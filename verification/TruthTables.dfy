/** Truth tables of `circuit.py`: nested lists built from a flat output list. */
module TruthTables {

  datatype Error = TypeError | ValueError | KeyError | IndexError | RecursionError

  datatype Result<+T> = Ok(value: T) | Err(error: Error)

  /** A nested list; Leaf stands for an entry. */
  datatype Table = Leaf(bit: int) | Node(zero: Table, one: Table)

  predicate IsBit(b: int) { b == 0 || b == 1 }

  function Pow2(n: nat): nat { if n == 0 then 1 else 2 * Pow2(n - 1) }

  ghost predicate PowerOfTwo(k: nat) { exists n: nat :: n > 0 && k == Pow2(n) }

  function Build(outputs: seq<int>): (r: Result<Table>)
    decreases |outputs|
  {
    if |outputs| == 2 then
      if IsBit(outputs[0]) && IsBit(outputs[1]) then Ok(Node(Leaf(outputs[0]), Leaf(outputs[1]))) else Err(TypeError)
    else if |outputs| % 2 != 0 then Err(ValueError)
    else if outputs == [] then Err(RecursionError)  // halving an empty list does not end
    else
      var half := |outputs| / 2;
      var zero := Build(outputs[0..half]);
      if zero.Err? then zero else
      var one := Build(outputs[half..]);
      if one.Err? then one else
      Ok(Node(zero.value, one.value))
  }

  function Depth(t: Table): nat {
    match t
    case Leaf(_) => 0
    case Node(zero, _) => 1 + Depth(zero)
  }

  /** All entries are equally deep. */
  predicate Full(t: Table) {
    t.Node? ==> Full(t.zero) && Full(t.one) && Depth(t.zero) == Depth(t.one)
  }

  predicate Bits(t: Table) {
    match t
    case Leaf(b) => IsBit(b)
    case Node(zero, one) => Bits(zero) && Bits(one)
  }

  /** The entry found by following the inputs, where there is one. */
  function Walk(t: Table, inputs: seq<int>): Table {
    if inputs == [] || t.Leaf? then t
    else Walk(if inputs[0] == 0 then t.zero else t.one, inputs[1..])
  }

  /** The number that the inputs spell, the first one the most significant. */
  function Counter(inputs: seq<int>): int {
    if inputs == [] then 0 else (if inputs[0] == 0 then 0 else Pow2(|inputs| - 1)) + Counter(inputs[1..])
  }

  predicate AreBits(s: seq<int>) { forall i :: 0 <= i < |s| ==> IsBit(s[i]) }

  /** Exactly the lists of bits whose length is a positive power of two are accepted;
      a wrong length is a ValueError, before any entry is looked at, a wrong entry a
      TypeError, and halving the empty list does not end. */
  lemma {:induction false} BuildAccepts(outputs: seq<int>)
    ensures Build(outputs).Ok? <==> AreBits(outputs) && PowerOfTwo(|outputs|)
    ensures Build(outputs).Err? ==>
      Build(outputs).error ==
      (if outputs == [] then RecursionError else if PowerOfTwo(|outputs|) then TypeError else ValueError)
    decreases |outputs|
  {
    if |outputs| == 2 || |outputs| % 2 != 0 || outputs == [] {
      SmallPowers(|outputs|);
    } else {
      var half := |outputs| / 2;
      var l, r := outputs[0..half], outputs[half..];
      BuildAccepts(l);
      BuildAccepts(r);
      assert outputs == l + r;
      assert AreBits(outputs) <==> AreBits(l) && AreBits(r);
      HalfPower(half);
    }
  }

  lemma SmallPowers(k: nat)
    requires k == 2 || k % 2 != 0 || k == 0
    ensures PowerOfTwo(k) <==> k == 2
  {
    assert Pow2(1) == 2;
    forall n: nat | n > 0 ensures Pow2(n) > 0 && Pow2(n) == 2 * Pow2(n - 1) { PowEven(n); }
  }

  lemma HalfPower(half: nat)
    requires half > 1
    ensures PowerOfTwo(2 * half) <==> PowerOfTwo(half)
  {
    if PowerOfTwo(2 * half) {
      var n: nat :| n > 0 && 2 * half == Pow2(n);
      assert Pow2(1) == 2;
      assert half == Pow2(n - 1) && n - 1 > 0;
    }
    if PowerOfTwo(half) {
      var n: nat :| n > 0 && half == Pow2(n);
      assert 2 * half == Pow2(n + 1);
    }
  }

  lemma {:induction false} PowEven(n: nat)
    requires n > 0
    ensures Pow2(n) > 0 && Pow2(n) == 2 * Pow2(n - 1)
  {
    if n > 1 { PowEven(n - 1); }
  }

  /** A built table is full, and as deep as the list's length says. */
  lemma {:induction false} BuildIsFull(outputs: seq<int>)
    requires Build(outputs).Ok?
    ensures var t := Build(outputs).value; t.Node? && Full(t) && Bits(t) && |outputs| == Pow2(Depth(t))
    decreases |outputs|
  {
    if |outputs| == 2 {
      assert Pow2(1) == 2;
    } else {
      var half := |outputs| / 2;
      BuiltDepth(outputs[0..half], outputs[half..]);
      BuildIsFull(outputs[0..half]);
      BuildIsFull(outputs[half..]);
    }
  }

  /** The entries of a table from left to right. */
  function Entries(t: Table): seq<int> {
    match t
    case Leaf(b) => [b]
    case Node(zero, one) => Entries(zero) + Entries(one)
  }

  /** A built table holds the list that it was built from. */
  lemma {:induction false} EntriesOfBuild(outputs: seq<int>)
    requires Build(outputs).Ok?
    ensures Entries(Build(outputs).value) == outputs
    decreases |outputs|
  {
    if |outputs| == 2 {
      assert Entries(Leaf(outputs[0])) + Entries(Leaf(outputs[1])) == outputs;
    } else {
      var half := |outputs| / 2;
      EntriesOfBuild(outputs[0..half]);
      EntriesOfBuild(outputs[half..]);
      assert outputs[0..half] + outputs[half..] == outputs;
    }
  }

  /** Following the inputs through a full table gives the entry at the number that
      they spell, the first input the most significant. */
  lemma {:induction false} WalkIsEntry(t: Table, inputs: seq<int>)
    requires Full(t) && AreBits(inputs) && |inputs| == Depth(t)
    ensures |Entries(t)| == Pow2(|inputs|) && 0 <= Counter(inputs) < |Entries(t)|
    ensures Walk(t, inputs) == Leaf(Entries(t)[Counter(inputs)])
    decreases t
  {
    if t.Node? {
      WalkIsEntry(if inputs[0] == 0 then t.zero else t.one, inputs[1..]);
      FullSize(t.zero);
      FullSize(t.one);
    }
  }

  lemma {:induction false} FullSize(t: Table)
    requires Full(t)
    ensures |Entries(t)| == Pow2(Depth(t))
  {
    if t.Node? {
      FullSize(t.zero);
      FullSize(t.one);
    }
  }

  lemma {:induction false} EntriesAreBits(t: Table)
    ensures Bits(t) <==> AreBits(Entries(t))
  {
    if t.Node? {
      EntriesAreBits(t.zero);
      EntriesAreBits(t.one);
      BitsOfParts(Entries(t.zero), Entries(t.one));
    } else {
      assert Entries(t)[0] == t.bit;
    }
  }

  lemma BitsOfParts(l: seq<int>, r: seq<int>)
    ensures AreBits(l + r) <==> AreBits(l) && AreBits(r)
  {
    if AreBits(l + r) {
      forall i | 0 <= i < |l| ensures IsBit(l[i]) { assert (l + r)[i] == l[i]; }
      forall i | 0 <= i < |r| ensures IsBit(r[i]) { assert (l + r)[|l| + i] == r[i]; }
    }
  }

  /** Following the inputs through a built table gives the list's entry at the
      number they spell: the list is in the order of an incrementing counter. */
  lemma BuildIsInCounterOrder(outputs: seq<int>, inputs: seq<int>)
    requires Build(outputs).Ok? && AreBits(inputs) && |inputs| == Depth(Build(outputs).value)
    ensures |outputs| == Pow2(|inputs|) && 0 <= Counter(inputs) < |outputs|
    ensures Walk(Build(outputs).value, inputs) == Leaf(outputs[Counter(inputs)])
  {
    BuildIsFull(outputs);
    EntriesOfBuild(outputs);
    WalkIsEntry(Build(outputs).value, inputs);
  }

  lemma {:induction false} BuiltDepth(a: seq<int>, b: seq<int>)
    requires |a| == |b| && Build(a).Ok? && Build(b).Ok?
    ensures Depth(Build(a).value) == Depth(Build(b).value)
    decreases |a|
  {
    if |a| != 2 {
      var half := |a| / 2;
      BuiltDepth(a[0..half], b[0..half]);
    }
  }

  lemma {:induction false} WalkEndsInBit(t: Table, inputs: seq<int>)
    requires Full(t) && Bits(t) && |inputs| == Depth(t)
    ensures Walk(t, inputs).Leaf? && IsBit(Walk(t, inputs).bit)
  {
    if t.Node? {
      if inputs[0] == 0 { WalkEndsInBit(t.zero, inputs[1..]); } else { WalkEndsInBit(t.one, inputs[1..]); }
    }
  }

  /** TruthTable._table_depth. */
  method TableDepth(t: Table) returns (depth: nat)
    ensures depth == Depth(t)
  {
    depth := 0;
    var table := t;
    while !table.Leaf?
      invariant depth + Depth(table) == Depth(t)
      decreases table
    {
      depth := depth + 1;
      table := table.zero;
    }
  }

  /** TruthTable.output. */
  method Output(t: Table, inputs: seq<int>) returns (r: Result<int>)
    requires Full(t) && Bits(t) && AreBits(inputs)
    ensures if |inputs| != Depth(t) then r == Err(ValueError)
      else
        && 0 <= Counter(inputs) < |Entries(t)|
        && r == Ok(Entries(t)[Counter(inputs)]) && IsBit(r.value)
  {
    if |inputs| != Depth(t) {
      return Err(ValueError);
    }
    var value := t;
    for i := 0 to |inputs|
      invariant Full(value) && Bits(value) && Depth(value) == |inputs| - i
      invariant Walk(value, inputs[i..]) == Walk(t, inputs)
    {
      value := if inputs[i] == 0 then value.zero else value.one;
    }
    WalkIsEntry(t, inputs);
    return Ok(value.bit);
  }
}
