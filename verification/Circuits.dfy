/** Circuits of `circuit.py`: gates are numbered in the order in which they were added. */
module Circuits {
  import opened TruthTables

  datatype GateType = GateType(table: Table, inputCount: nat, delay: nat)

  predicate TypeOk(k: GateType) { Full(k.table) && Bits(k.table) && Depth(k.table) == k.inputCount }

  /** The topology: each gate's type, the gates connected to its input terminals,
      first terminal first, and the gates its output is connected to. */
  datatype Net = Net(types: seq<GateType>, ins: seq<seq<nat>>, outs: seq<seq<nat>>)

  /** Inputs come from earlier gates or, since a gate is entered before its inputs
      are looked up, from the gate itself; outs lists each connection once. */
  ghost predicate Wired(net: Net) {
    && |net.ins| == |net.outs| == |net.types|
    && (forall g :: 0 <= g < |net.types| ==> TypeOk(net.types[g]) && |net.ins[g]| <= net.types[g].inputCount)
    && (forall g, i :: 0 <= g < |net.types| && 0 <= i < |net.ins[g]| ==> net.ins[g][i] <= g)
    && (forall g, h :: 0 <= g < |net.types| && 0 <= h < |net.types| ==>
      multiset(net.outs[g])[h] == multiset(net.ins[h])[g])
    && (forall g, h :: 0 <= g < |net.types| && h in net.outs[g] ==> h < |net.types|)
  }

  /** Ready for a run: no gate names itself, and a gate has all its inputs or none. */
  ghost predicate Ready(net: Net) {
    && Wired(net)
    && (forall g :: 0 <= g < |net.types| ==>
      g !in net.ins[g] && (net.ins[g] == [] || |net.ins[g]| == net.types[g].inputCount))
  }

  /** GateType.__init__ with its table built from a list. */
  function MakeType(outputs: seq<int>, delay: int): (r: Result<GateType>)
    ensures r.Ok? <==> Build(outputs).Ok? && delay >= 0
    ensures r.Ok? ==> TypeOk(r.value) && r.value.delay == delay && |outputs| == Pow2(r.value.inputCount)
    ensures r.Ok? ==> Entries(r.value.table) == outputs
    ensures r.Err? ==> r.error == if Build(outputs).Err? then Build(outputs).error else ValueError
  {
    var t := Build(outputs);
    if t.Err? then Err(t.error)
    else if delay < 0 then Err(ValueError)
    else
      BuildIsFull(outputs);
      EntriesOfBuild(outputs);
      Ok(GateType(t.value, Depth(t.value), delay))
  }

  class Circuit {
    var types: map<string, GateType>
    /** The gates by name, the topology and the gates' outputs. */
    var gates: map<string, nat>
    var net: Net
    var output: seq<int>

    ghost predicate Valid()
      reads this
    {
      && Wired(net) && |output| == |net.types| && AreBits(output)
      && (forall n :: n in types ==> TypeOk(types[n]))
      && (forall n :: n in gates ==> gates[n] < |net.types|)
    }

    constructor ()
      ensures Valid() && net.types == [] && gates == map[] && types == map[]
    {
      types, gates, net, output := map[], map[], Net([], [], []), [];
    }

    method AddGateType(name: string, outputs: seq<int>, delay: int) returns (r: Result<GateType>)
      requires Valid()
      modifies this`types
      ensures Valid()
      ensures r == if name in old(types) then Err(ValueError) else MakeType(outputs, delay)
      ensures types == if r.Ok? then old(types)[name := r.value] else old(types)
    {
      if name in types {
        return Err(ValueError);
      }
      r := MakeType(outputs, delay);
      if r.Ok? {
        types := types[name := r.value];
      }
    }

    /** Connects the gate added last to another gate's output. */
    method ConnectInput(g: nat, i: nat)
      requires Valid() && |net.types| > 0 && g < |net.types|
      requires i == |net.ins[|net.types| - 1]| < net.types[|net.types| - 1].inputCount
      modifies this`net
      ensures Valid() && net.types == old(net.types)
      ensures net.ins == old(net.ins)[|net.types| - 1 := old(net.ins[|net.types| - 1]) + [g]]
      ensures net.outs == old(net.outs)[g := old(net.outs[g]) + [|net.types| - 1]]
    {
      var last := |net.types| - 1;
      ConnectionAdded(net, g);
      net := net.(ins := net.ins[last := net.ins[last] + [g]], outs := net.outs[g := net.outs[g] + [last]]);
    }

    /** A gate with an output of 0, connected to the named gates. An unknown name
        or one input too many leaves the gate behind with the inputs before it. */
    method AddGate(name: string, typeName: string, inputNames: seq<string>) returns (r: Result<nat>)
      requires Valid()
      modifies this`gates, this`net, this`output
      ensures Valid()
      ensures name in old(gates) ==> r == Err(ValueError)
      ensures name !in old(gates) && typeName !in types ==> r == Err(KeyError)
      ensures name in old(gates) || typeName !in types ==>
        gates == old(gates) && net == old(net) && output == old(output)
      ensures name !in old(gates) && typeName in types ==>
        && gates == old(gates)[name := |old(net.types)|] && output == old(output) + [0]
        && net.types == old(net.types) + [types[typeName]] && |net.ins| == |old(net.ins)| + 1
        && net.ins[..|old(net.ins)|] == old(net.ins)
        && var made := net.ins[|old(net.ins)|];
           |made| <= |inputNames| && forall i :: 0 <= i < |made| ==>
             inputNames[i] in gates && made[i] == gates[inputNames[i]]
      ensures name !in old(gates) && typeName in types ==>
        r == var made := net.ins[|old(net.ins)|];
          if |made| == |inputNames| then Ok(|old(net.types)|)
          else if inputNames[|made|] !in gates then Err(KeyError) else Err(IndexError)
      ensures name !in old(gates) && typeName in types && r == Err(IndexError) ==>
        |net.ins[|old(net.ins)|]| == types[typeName].inputCount
    {
      if name in gates {
        return Err(ValueError);
      }
      if typeName !in types {
        return Err(KeyError);
      }
      var gate := |net.types|;
      GateAdded(net, types[typeName]);
      assert |net.ins| == gate;
      gates := gates[name := gate];
      net := Net(net.types + [types[typeName]], net.ins + [[]], net.outs + [[]]);
      output := output + [0];
      for i := 0 to |inputNames|
        invariant Valid() && gates == old(gates)[name := gate] && output == old(output) + [0]
        invariant net.types == old(net.types) + [types[typeName]] && |net.ins| == gate + 1
        invariant net.ins[..gate] == old(net.ins)
        invariant |net.ins[gate]| == i
        invariant forall k :: 0 <= k < i ==> inputNames[k] in gates && net.ins[gate][k] == gates[inputNames[k]]
      {
        if inputNames[i] !in gates {
          return Err(KeyError);
        }
        if i >= net.types[gate].inputCount {
          return Err(IndexError);
        }
        ghost var before := net.ins;
        ConnectInput(gates[inputNames[i]], i);
        assert net.ins[..gate] == before[..gate];
      }
      return Ok(gate);
    }
  }

  lemma GateAdded(net: Net, k: GateType)
    requires Wired(net) && TypeOk(k)
    ensures Wired(Net(net.types + [k], net.ins + [[]], net.outs + [[]]))
  {
    var n := |net.types|;
    var net' := Net(net.types + [k], net.ins + [[]], net.outs + [[]]);
    forall g, h | 0 <= g <= n && 0 <= h <= n ensures multiset(net'.outs[g])[h] == multiset(net'.ins[h])[g] {
      if g < n && h == n { assert n !in net.outs[g]; }
      if g == n && h < n { assert forall i :: 0 <= i < |net.ins[h]| ==> net.ins[h][i] <= h; assert n !in net.ins[h]; }
    }
  }

  /** net after gate g is connected to the next input terminal of the last gate. */
  function Joined(net: Net, g: nat): Net
    requires Wired(net) && g < |net.types|
  {
    var last := |net.types| - 1;
    net.(ins := net.ins[last := net.ins[last] + [g]], outs := net.outs[g := net.outs[g] + [last]])
  }

  lemma ConnectionCounts(net: Net, g: nat, a: nat, b: nat)
    requires Wired(net) && g < |net.types| && a < |net.types| && b < |net.types|
    ensures var net' := Joined(net, g); multiset(net'.outs[a])[b] == multiset(net'.ins[b])[a]
  {
    var last := |net.types| - 1;
    assert multiset(net.outs[a])[b] == multiset(net.ins[b])[a];
    CountMore(net.outs[g], last, b);
    CountMore(net.ins[last], g, a);
  }

  lemma ConnectionEnds(net: Net, g: nat, a: nat)
    requires Wired(net) && g < |net.types| && a < |net.types|
    ensures var net' := Joined(net, g);
      && (forall b :: b in net'.outs[a] ==> b < |net.types|)
      && (forall i :: 0 <= i < |net'.ins[a]| ==> net'.ins[a][i] <= a)
  {
  }

  lemma ConnectionAdded(net: Net, g: nat)
    requires Wired(net) && g < |net.types| && |net.ins[|net.types| - 1]| < net.types[|net.types| - 1].inputCount
    ensures Wired(Joined(net, g))
  {
    hide TypeOk;
    var net' := Joined(net, g);
    forall a | 0 <= a < |net.types|
      ensures TypeOk(net'.types[a]) && |net'.ins[a]| <= net'.types[a].inputCount
    {
      assert TypeOk(net.types[a]);
    }
    forall a, b | 0 <= a < |net.types| && 0 <= b < |net.types|
      ensures multiset(net'.outs[a])[b] == multiset(net'.ins[b])[a]
    {
      ConnectionCounts(net, g, a, b);
    }
    forall a | 0 <= a < |net.types|
      ensures forall b :: b in net'.outs[a] ==> b < |net.types|
      ensures forall i :: 0 <= i < |net'.ins[a]| ==> net'.ins[a][i] <= a
    {
      ConnectionEnds(net, g, a);
    }
  }

  lemma CountMore(s: seq<nat>, x: nat, y: nat)
    ensures multiset(s + [x])[y] == multiset(s)[y] + if x == y then 1 else 0
  {
  }
}
