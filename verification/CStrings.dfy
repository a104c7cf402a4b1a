/** C strings and the order that `strcmp` puts on them.

    The database only ever compares names, so the other modules work with the
    rank of a name: a real number in [0, 1) that orders exactly as `strcmp` does. */
module CStrings {

  /** A non-zero unsigned char: the terminating NUL is the end of the sequence. */
  type Char = c: int | 1 <= c < 256 witness 1

  type CString = seq<Char>

  /** The sign of the first differing byte; a proper prefix is smaller. */
  function Strcmp(a: CString, b: CString): (sign: int)
    ensures -1 <= sign <= 1
  {
    if a == [] then (if b == [] then 0 else -1)
    else if b == [] then 1
    else if a[0] < b[0] then -1
    else if a[0] > b[0] then 1
    else Strcmp(a[1..], b[1..])
  }

  /** The string read as the digits of a base-256 fraction. */
  function Rank(s: CString): (r: real)
    ensures 0.0 <= r < 1.0
    ensures r == 0.0 <==> s == []
  {
    if s == [] then 0.0 else (s[0] as real + Rank(s[1..])) / 256.0
  }

  lemma {:induction false} RankOrdersLikeStrcmp(a: CString, b: CString)
    ensures Strcmp(a, b) < 0 <==> Rank(a) < Rank(b)
    ensures Strcmp(a, b) == 0 <==> Rank(a) == Rank(b)
    ensures Strcmp(a, b) == 0 <==> a == b
  {
    if a != [] && b != [] {
      RankOrdersLikeStrcmp(a[1..], b[1..]);
      if a[0] == b[0] {
        assert a == [a[0]] + a[1..] && b == [b[0]] + b[1..];
      }
    }
  }
}
