/** What a flat topology holds, read off the commands of the script tree it was built from: nothing a
    script declares or connects, at any depth, is lost, changed or made up. */
module FlatContents {
  import opened Prelude
  import opened Topology
  import opened TopologyDsl
  import TopologySoundness

  // ---- what a script asks for ----

  predicate Wirable(c: Command) {
    c.Connect? && c.src.chain != [] && c.dst.chain != []
  }

  /** The wire a connect command asks for: from the source's leaf to the sink's, up the one chain and
      down the other. */
  function WireOf(c: Command): DirectedEdge
    requires Wirable(c)
  {
    DirectedEdge(c.src.chain[0], c.dst.chain[0], c.src.chain + Reverse(c.dst.chain), c.src.payload, c.uartRingLen)
  }

  /** The wires of one level, in the order of their commands. */
  function OwnWires(script: seq<Command>): seq<DirectedEdge> {
    if script == [] then []
    else (if Wirable(script[0]) then [WireOf(script[0])] else []) + OwnWires(script[1..])
  }

  /** Those of the child topologies, child by child. */
  function InnerWires(script: seq<Command>): seq<DirectedEdge>
    decreases script, 0
  {
    if script == [] then []
    else (if script[0].AddChild? then Wires(script[0].script) else []) + InnerWires(script[1..])
  }

  function Wires(script: seq<Command>): seq<DirectedEdge>
    decreases script, 1
  {
    OwnWires(script) + InnerWires(script)
  }

  /** The endpoints a script gives the board `local` of its level. */
  function PortsOf(local: string, script: seq<Command>): seq<EndpointSpec> {
    if script == [] then []
    else
      var c := script[0];
      (if c.AddEndpoint? && c.local == local then [EndpointSpec(c.name, c.direction, c.payload)] else []) +
      PortsOf(local, script[1..])
  }

  /** The boards of one level: each under its path, with its kind, firmware and endpoints. */
  function OwnBoards(path: string, script: seq<Command>): seq<BoardSpec> {
    if script == [] then []
    else
      var c := script[0];
      (if c.AddBoard? then [BoardSpec(path + "/" + c.local, c.kind, c.elf, PortsOf(c.local, script[1..]))] else []) +
      OwnBoards(path, script[1..])
  }

  function InnerBoards(path: string, script: seq<Command>): seq<BoardSpec>
    decreases script, 0
  {
    if script == [] then []
    else
      var c := script[0];
      (if c.AddChild? then Boards(path + "/" + c.childName, c.script) else []) + InnerBoards(path, script[1..])
  }

  function Boards(path: string, script: seq<Command>): seq<BoardSpec>
    decreases script, 1
  {
    OwnBoards(path, script) + InnerBoards(path, script)
  }

  // ---- what building leaves ----

  ghost predicate DistinctLocals(boards: seq<Board>) {
    forall i, j | 0 <= i < j < |boards| :: boards[i].local != boards[j].local
  }

  /** `b` is what a script makes of a board of its level. */
  predicate Equipped(a: Board, b: Board, script: seq<Command>) {
    b.local == a.local && Spec(b) == Spec(a).(endpoints := Spec(a).endpoints + PortsOf(a.local, script))
  }

  /** What a script makes of the boards of its level: they get their endpoints, and new ones follow. */
  ghost predicate BoardsGrown(t: Topo, u: Topo, script: seq<Command>) {
    u.path == t.path && |u.boards| >= |t.boards| &&
    (forall i | 0 <= i < |t.boards| :: Equipped(t.boards[i], u.boards[i], script)) &&
    Specs(u.boards[|t.boards|..]) == OwnBoards(t.path, script)
  }

  ghost predicate ChildrenGrown(t: Topo, u: Topo, script: seq<Command>) {
    ChildEdges(u.children) == ChildEdges(t.children) + InnerWires(script) &&
    Specs(ChildBoards(u.children)) == Specs(ChildBoards(t.children)) + InnerBoards(t.path, script)
  }

  lemma SpecsConcat(a: seq<Board>, b: seq<Board>)
    ensures Specs(a + b) == Specs(a) + Specs(b)
  {
  }

  /** What one accepted command changes. */
  predicate Changed(t: Topo, m: Topo, c: Command) {
    m.name == t.name && m.path == t.path &&
    match c
    case AddBoard(local, kind, elf) =>
      !HasBoard(t.boards, local) && m.edges == t.edges && m.children == t.children &&
      m.boards == t.boards + [Board(local, t.path + "/" + local, kind, elf, [])]
    case AddEndpoint(local, name, direction, payload) =>
      m.edges == t.edges && m.children == t.children &&
      exists k: nat :: k < |t.boards| && t.boards[k].local == local &&
                       m.boards == t.boards[k := WithEndpoint(t.boards[k], name, direction, payload)]
    case AddChild(_, _) => m.edges == t.edges && m.boards == t.boards
    case Export(_, _) => m.edges == t.edges && m.boards == t.boards && m.children == t.children
    case Connect(_, _, _) =>
      m.boards == t.boards && m.children == t.children && Wirable(c) && m.edges == t.edges + [WireOf(c)]
  }

  lemma ExecChanges(t: Topo, m: Topo, c: Command)
    requires Exec(t, c) == Ok(m)
    ensures Changed(t, m, c)
  {
    match c
    case AddChild(name, script) => ChildChanges(t, m, name, script);
    case AddEndpoint(local, name, direction, payload) => var k := BoardIndex(t.boards, local).value;
    case _ =>
  }

  lemma ChildChanges(t: Topo, m: Topo, name: string, script: seq<Command>)
    requires ExecChild(t, name, script) == Ok(m)
    ensures ExecAll(Fresh(name, Under(t.path, name)), script).Ok?
    ensures m == t.(children := t.children + [ExecAll(Fresh(name, Under(t.path, name)), script).value])
  {
  }

  lemma NewBoardFollows(path: string, boards: seq<Board>, c: Command, rest: seq<Command>)
    requires c.AddBoard? && boards != [] && Specs(boards[1..]) == OwnBoards(path, rest)
    requires Equipped(Board(c.local, path + "/" + c.local, c.kind, c.elf, []), boards[0], rest)
    ensures Specs(boards) == OwnBoards(path, [c] + rest)
  {
    assert ([c] + rest)[1..] == rest;
    assert [] + PortsOf(c.local, rest) == PortsOf(c.local, rest);
    assert boards == [boards[0]] + boards[1..];
    SpecsConcat([boards[0]], boards[1..]);
    assert Specs([boards[0]]) == [Spec(boards[0])];
  }

  lemma OtherEquipped(a: Board, b: Board, c: Command, rest: seq<Command>)
    requires Equipped(a, b, rest) && !(c.AddEndpoint? && c.local == a.local)
    ensures Equipped(a, b, [c] + rest)
  {
    assert ([c] + rest)[1..] == rest;
  }

  /** The boards of a level after its first command and after the rest. */
  lemma BoardGrowsOn(t: Topo, m: Topo, u: Topo, c: Command, rest: seq<Command>)
    requires c.AddBoard? && Changed(t, m, c) && BoardsGrown(m, u, rest)
    ensures BoardsGrown(t, u, [c] + rest)
  {
    var n := |t.boards|;
    assert Equipped(m.boards[n], u.boards[n], rest);
    assert u.boards[n..][1..] == u.boards[n + 1..];
    NewBoardFollows(t.path, u.boards[n..], c, rest);
    forall i | 0 <= i < n
      ensures Equipped(t.boards[i], u.boards[i], [c] + rest)
    {
      assert m.boards[i] == t.boards[i];
      OtherEquipped(m.boards[i], u.boards[i], c, rest);
    }
  }

  lemma EndpointGrowsOn(t: Topo, m: Topo, u: Topo, c: Command, rest: seq<Command>)
    requires c.AddEndpoint? && DistinctLocals(t.boards) && Changed(t, m, c) && BoardsGrown(m, u, rest)
    ensures BoardsGrown(t, u, [c] + rest)
  {
    assert ([c] + rest)[1..] == rest;
    var k: nat :| k < |t.boards| && t.boards[k].local == c.local &&
                  m.boards == t.boards[k := WithEndpoint(t.boards[k], c.name, c.direction, c.payload)];
    forall i | 0 <= i < |t.boards|
      ensures Equipped(t.boards[i], u.boards[i], [c] + rest)
    {
      assert Equipped(m.boards[i], u.boards[i], rest);
      if i == k {
        EndpointAdded(t.boards[i], u.boards[i], c.name, c.direction, c.payload, rest);
      } else {
        assert t.boards[i].local != c.local;
      }
    }
  }

  lemma EndpointAdded(a: Board, b: Board, name: string, direction: Direction, payload: PayloadKind,
                      rest: seq<Command>)
    requires Equipped(WithEndpoint(a, name, direction, payload), b, rest)
    ensures b.local == a.local
    ensures Spec(b) == Spec(a).(endpoints := Spec(a).endpoints +
                                             ([EndpointSpec(name, direction, payload)] + PortsOf(a.local, rest)))
  {
    assert Spec(WithEndpoint(a, name, direction, payload)).endpoints ==
           Spec(a).endpoints + [EndpointSpec(name, direction, payload)];
  }

  lemma BoardsGrowOn(t: Topo, m: Topo, u: Topo, c: Command, rest: seq<Command>)
    requires DistinctLocals(t.boards) && Changed(t, m, c) && BoardsGrown(m, u, rest)
    ensures BoardsGrown(t, u, [c] + rest)
  {
    if c.AddBoard? {
      BoardGrowsOn(t, m, u, c, rest);
    } else if c.AddEndpoint? {
      EndpointGrowsOn(t, m, u, c, rest);
    } else {
      assert ([c] + rest)[1..] == rest;
      forall i | 0 <= i < |t.boards|
        ensures Equipped(t.boards[i], u.boards[i], [c] + rest)
      {
        assert Equipped(m.boards[i], u.boards[i], rest);
      }
    }
  }

  lemma LocalsStayDistinct(t: Topo, m: Topo, c: Command)
    requires DistinctLocals(t.boards) && Changed(t, m, c)
    ensures DistinctLocals(m.boards)
  {
  }

  lemma EdgesGrowOn(t: Topo, m: Topo, u: Topo, c: Command, rest: seq<Command>)
    requires Changed(t, m, c) && u.edges == m.edges + OwnWires(rest)
    ensures u.edges == t.edges + OwnWires([c] + rest)
  {
    assert ([c] + rest)[1..] == rest;
  }

  /** What one level of a script leaves at that level. */
  lemma {:induction false} LevelGrows(t: Topo, u: Topo, script: seq<Command>)
    requires DistinctLocals(t.boards) && ExecAll(t, script) == Ok(u)
    ensures BoardsGrown(t, u, script) && u.edges == t.edges + OwnWires(script)
    decreases |script|
  {
    if script == [] {
      assert u.boards[|t.boards|..] == [];
    } else {
      var c, rest := script[0], script[1..];
      var m := Exec(t, c).value;
      ExecChanges(t, m, c);
      LocalsStayDistinct(t, m, c);
      LevelGrows(m, u, rest);
      BoardsGrowOn(t, m, u, c, rest);
      EdgesGrowOn(t, m, u, c, rest);
      assert script == [c] + rest;
    }
  }

  lemma {:induction false} ChildEdgesAppend(children: seq<Topo>, c: Topo)
    ensures ChildEdges(children + [c]) == ChildEdges(children) + AllEdges(c)
  {
    if children == [] {
      assert [c][1..] == [];
      assert ChildEdges([c]) == AllEdges(c) + [];
    } else {
      ChildEdgesAppend(children[1..], c);
      assert (children + [c])[1..] == children[1..] + [c];
    }
  }

  /** The whole tree under a fresh topology is the whole tree of its script. */
  predicate Complete(path: string, u: Topo, script: seq<Command>) {
    AllEdges(u) == Wires(script) && Specs(AllBoards(u)) == Boards(path, script)
  }

  lemma FreshIsComplete(name: string, path: string, u: Topo, script: seq<Command>)
    requires ExecAll(Fresh(name, path), script) == Ok(u) && ChildrenGrown(Fresh(name, path), u, script)
    ensures Complete(path, u, script)
  {
    var bare := Fresh(name, path);
    LevelGrows(bare, u, script);
    assert u.boards[|bare.boards|..] == u.boards;
    WholeTree(u, OwnWires(script), InnerWires(script), OwnBoards(path, script), InnerBoards(path, script));
  }

  lemma WholeTree(u: Topo, own: seq<DirectedEdge>, inner: seq<DirectedEdge>,
                  ownBoards: seq<BoardSpec>, innerBoards: seq<BoardSpec>)
    requires u.edges == [] + own && ChildEdges(u.children) == [] + inner
    requires Specs(u.boards) == ownBoards && Specs(ChildBoards(u.children)) == [] + innerBoards
    ensures AllEdges(u) == own + inner && Specs(AllBoards(u)) == ownBoards + innerBoards
  {
    SpecsConcat(u.boards, ChildBoards(u.children));
    assert AllBoards(u) == u.boards + ChildBoards(u.children);
    assert AllEdges(u) == u.edges + ChildEdges(u.children);
  }

  lemma ChildJoins(t: Topo, m: Topo, c: Command, child: Topo)
    requires c.AddChild? && m == t.(children := t.children + [child]) &&
             Complete(Under(t.path, c.childName), child, c.script)
    ensures ChildEdges(m.children) == ChildEdges(t.children) + Wires(c.script)
    ensures Specs(ChildBoards(m.children)) ==
            Specs(ChildBoards(t.children)) + Boards(Under(t.path, c.childName), c.script)
  {
    ChildEdgesAppend(t.children, child);
    TopologySoundness.ChildBoardsAppend(t.children, child);
    SpecsConcat(ChildBoards(t.children), AllBoards(child));
  }

  lemma InnerUnfolds(path: string, c: Command, rest: seq<Command>)
    ensures InnerWires([c] + rest) == (if c.AddChild? then Wires(c.script) else []) + InnerWires(rest)
    ensures InnerBoards(path, [c] + rest) ==
            (if c.AddChild? then Boards(path + "/" + c.childName, c.script) else []) + InnerBoards(path, rest)
  {
    assert ([c] + rest)[1..] == rest;
  }

  lemma Regroup<T>(all: seq<T>, before: seq<T>, more: seq<T>, rest: seq<T>)
    requires all == (before + more) + rest
    ensures all == before + (more + rest)
  {
  }

  lemma InnerGrowsOn(t: Topo, m: Topo, u: Topo, c: Command, rest: seq<Command>,
                     wires: seq<DirectedEdge>, boards: seq<BoardSpec>)
    requires ChildrenGrown(m, u, rest) && m.path == t.path
    requires ChildEdges(m.children) == ChildEdges(t.children) + wires
    requires Specs(ChildBoards(m.children)) == Specs(ChildBoards(t.children)) + boards
    requires wires == if c.AddChild? then Wires(c.script) else []
    requires boards == if c.AddChild? then Boards(t.path + "/" + c.childName, c.script) else []
    ensures ChildrenGrown(t, u, [c] + rest)
  {
    InnerUnfolds(t.path, c, rest);
    Regroup(ChildEdges(u.children), ChildEdges(t.children), wires, InnerWires(rest));
    Regroup(Specs(ChildBoards(u.children)), Specs(ChildBoards(t.children)), boards, InnerBoards(t.path, rest));
  }

  /** What a script leaves below its level. */
  lemma {:induction false} ChildrenGrow(t: Topo, u: Topo, script: seq<Command>)
    requires ExecAll(t, script) == Ok(u)
    ensures ChildrenGrown(t, u, script)
    decreases script
  {
    if script != [] {
      var c, rest := script[0], script[1..];
      var m := Exec(t, c).value;
      ExecChanges(t, m, c);
      ChildrenGrow(m, u, rest);
      if c.AddChild? {
        ChildChanges(t, m, c.childName, c.script);
        var path := Under(t.path, c.childName);
        var child := ExecAll(Fresh(c.childName, path), c.script).value;
        ChildrenGrow(Fresh(c.childName, path), child, c.script);
        FreshIsComplete(c.childName, path, child, c.script);
        ChildJoins(t, m, c, child);
      }
      InnerGrowsOn(t, m, u, c, rest, if c.AddChild? then Wires(c.script) else [],
                   if c.AddChild? then Boards(Under(t.path, c.childName), c.script) else []);
      assert script == [c] + rest;
    }
  }

  // ---- the flat topology ----

  function Connects(script: seq<Command>): nat {
    if script == [] then 0
    else
      (match script[0]
       case Connect(_, _, _) => 1
       case AddChild(_, inner) => Connects(inner)
       case _ => 0) + Connects(script[1..])
  }

  function BoardCalls(script: seq<Command>): nat {
    if script == [] then 0
    else
      (match script[0]
       case AddBoard(_, _, _) => 1
       case AddChild(_, inner) => BoardCalls(inner)
       case _ => 0) + BoardCalls(script[1..])
  }

  /** An accepted script yields one wire for each of its connect calls and one board for each of its
      board calls, at every depth. */
  lemma {:induction false} CountsMatch(t: Topo, path: string, script: seq<Command>)
    requires ExecAll(t, script).Ok?
    ensures |OwnWires(script)| + |InnerWires(script)| == Connects(script)
    ensures |OwnBoards(path, script)| + |InnerBoards(path, script)| == BoardCalls(script)
    decreases script
  {
    if script != [] {
      var c, rest := script[0], script[1..];
      var m := Exec(t, c).value;
      ExecChanges(t, m, c);
      CountsMatch(m, path, rest);
      if c.AddChild? {
        ChildChanges(t, m, c.childName, c.script);
        CountsMatch(Fresh(c.childName, Under(t.path, c.childName)), path + "/" + c.childName, c.script);
      }
    }
  }

  /** Command `c` is called by the topology at path `at` in the tree of `script`, whose root is at
      `path`. */
  predicate CalledAt(path: string, script: seq<Command>, at: string, c: Command)
    decreases script
  {
    script != [] &&
    ((at == path && script[0] == c) || CalledAt(path, script[1..], at, c) ||
     match script[0]
     case AddChild(name, inner) => CalledAt(path + "/" + name, inner, at, c)
     case _ => false)
  }

  /** Every connect call has its wire, and every board call its board. */
  lemma {:induction false} CalledIsThere(t: Topo, path: string, script: seq<Command>, at: string, c: Command)
    requires ExecAll(t, script).Ok? && CalledAt(path, script, at, c)
    ensures c.Connect? ==> Wirable(c) && WireOf(c) in Wires(script)
    ensures c.AddBoard? ==>
              exists b | b in Boards(path, script) :: b.id == at + "/" + c.local && b.kind == c.kind && b.elf == c.elf
    decreases script
  {
    var first, rest := script[0], script[1..];
    var m := Exec(t, first).value;
    ExecChanges(t, m, first);
    if at == path && first == c {
      if c.AddBoard? {
        assert OwnBoards(path, script)[0] in Boards(path, script);
      } else if c.Connect? {
        assert OwnWires(script)[0] == WireOf(c);
        assert WireOf(c) in OwnWires(script);
      }
    } else if CalledAt(path, rest, at, c) {
      CalledIsThere(m, path, rest, at, c);
      RestIsThere(path, script);
    } else {
      ChildChanges(t, m, first.childName, first.script);
      CalledIsThere(Fresh(first.childName, Under(t.path, first.childName)), path + "/" + first.childName,
                    first.script, at, c);
      ChildIsThere(path, script);
    }
  }

  lemma RestIsThere(path: string, script: seq<Command>)
    requires script != []
    ensures forall e | e in Wires(script[1..]) :: e in Wires(script)
    ensures forall b | b in Boards(path, script[1..]) :: b in Boards(path, script)
  {
  }

  lemma ChildIsThere(path: string, script: seq<Command>)
    requires script != [] && script[0].AddChild?
    ensures forall e | e in Wires(script[0].script) :: e in Wires(script)
    ensures forall b | b in Boards(path + "/" + script[0].childName, script[0].script) :: b in Boards(path, script)
  {
    assert forall e | e in Wires(script[0].script) :: e in InnerWires(script);
    assert forall b | b in Boards(path + "/" + script[0].childName, script[0].script) :: b in InnerBoards(path, script);
  }

  lemma TreeHoldsTheScript(name: string, script: seq<Command>)
    requires ExecAll(Fresh(name, name), script).Ok?
    ensures Complete(name, ExecAll(Fresh(name, name), script).value, script)
  {
    var root := ExecAll(Fresh(name, name), script).value;
    ChildrenGrow(Fresh(name, name), root, script);
    FreshIsComplete(name, name, root, script);
  }

  /** The flat topology of an accepted script: its wires are those of the connect calls of the whole
      tree, one for each, and its boards those of the board calls, each under its path with its kind,
      its firmware and the endpoints its script gave it; both in the order of the calls, parents
      before children. */
  lemma FlatHoldsTheScript(name: string, script: seq<Command>, marginNs: u64, headroomThresholdNs: u64,
                           flat: LogicalTopology)
    requires ToDict(name, script, marginNs, headroomThresholdNs) == Ok(flat)
    ensures flat.edges == Wires(script) && flat.boards == Boards(name, script)
    ensures |flat.edges| == Connects(script) && |flat.boards| == BoardCalls(script)
    ensures flat.marginNs == marginNs && flat.headroomThresholdNs == headroomThresholdNs
    ensures forall at, c | CalledAt(name, script, at, c) && c.Connect? :: Wirable(c) && WireOf(c) in flat.edges
    ensures forall at, c | CalledAt(name, script, at, c) && c.AddBoard? ::
              exists b | b in flat.boards :: b.id == at + "/" + c.local && b.kind == c.kind && b.elf == c.elf
  {
    TreeHoldsTheScript(name, script);
    CountsMatch(Fresh(name, name), name, script);
    forall at, c | CalledAt(name, script, at, c)
      ensures c.Connect? ==> Wirable(c) && WireOf(c) in Wires(script)
      ensures c.AddBoard? ==>
                exists b | b in Boards(name, script) :: b.id == at + "/" + c.local && b.kind == c.kind && b.elf == c.elf
    {
      CalledIsThere(Fresh(name, name), name, script, at, c);
    }
  }
}
