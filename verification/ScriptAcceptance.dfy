/** Which scripts the topology language accepts, said of their calls alone: each call is allowed by
    the calls of its level made before it. */
module ScriptAcceptance {
  import opened Prelude
  import opened Topology
  import opened TopologyDsl
  import FlatContents

  // ---- what earlier calls have done ----

  predicate BoardCalled(done: seq<Command>, local: string) {
    exists j | 0 <= j < |done| :: done[j].AddBoard? && done[j].local == local
  }

  predicate PortCalled(done: seq<Command>, local: string, name: string) {
    exists j | 0 <= j < |done| :: done[j].AddEndpoint? && done[j].local == local && done[j].name == name
  }

  predicate ChildCalled(done: seq<Command>, name: string) {
    exists j | 0 <= j < |done| :: done[j].AddChild? && done[j].childName == name
  }

  predicate ExportCalled(done: seq<Command>, name: string) {
    exists j | 0 <= j < |done| :: done[j].Export? && done[j].exportName == name
  }

  /** A child added under this name exports this port. */
  predicate ChildExports(done: seq<Command>, name: string, port: string) {
    exists j | 0 <= j < |done| ::
      done[j].AddChild? && done[j].childName == name && ExportCalled(done[j].script, port)
  }

  predicate ConnectCalled(done: seq<Command>, from: Loc, to: Loc) {
    exists j | 0 <= j < |done| ::
      FlatContents.Wirable(done[j]) && done[j].src.chain[0] == from && done[j].dst.chain[0] == to
  }

  /** A port of a board of this level. */
  predicate OwnPort(path: string, done: seq<Command>, loc: Loc) {
    exists j | 0 <= j < |done| ::
      done[j].AddEndpoint? && loc == Loc(path + "/" + done[j].local, done[j].name)
  }

  /** A port exported by a child of this level. */
  predicate InnerPort(path: string, done: seq<Command>, loc: Loc) {
    exists j | 0 <= j < |done| ::
      done[j].AddChild? && loc.path == path + "/" + done[j].childName && ExportCalled(done[j].script, loc.port)
  }

  /** A port may be used at this level. */
  predicate MayUse(path: string, done: seq<Command>, ref: PortRef) {
    ref.chain != [] &&
    ((|ref.chain| == 1 && OwnPort(path, done, ref.chain[0])) ||
     InnerPort(path, done, ref.chain[|ref.chain| - 1]))
  }

  /** A name is fit for a new board or child of this level. */
  predicate NameFree(done: seq<Command>, name: string) {
    name != "" && '/' !in name && !BoardCalled(done, name) && !ChildCalled(done, name)
  }

  /** Call `c` is allowed after the calls `done` of its level. */
  predicate Allowed(path: string, done: seq<Command>, c: Command)
    decreases c, 0
  {
    match c
    case AddBoard(local, _, _) => NameFree(done, local)
    case AddEndpoint(local, name, _, _) => BoardCalled(done, local) && name != "" && !PortCalled(done, local, name)
    case AddChild(name, script) => NameFree(done, name) && AllAllowed(path + "/" + name, [], script)
    case Export(name, ref) => name != "" && !ExportCalled(done, name) && MayUse(path, done, ref)
    case Connect(src, dst, _) =>
      MayUse(path, done, src) && MayUse(path, done, dst) && src.direction == Out && dst.direction == In &&
      src.payload == dst.payload && src.chain[0].path != dst.chain[0].path &&
      !ConnectCalled(done, src.chain[0], dst.chain[0])
  }

  /** So is each call of `script`, after `done` and the calls before it. */
  predicate AllAllowed(path: string, done: seq<Command>, script: seq<Command>)
    decreases script, 1
  {
    script == [] || (Allowed(path, done, script[0]) && AllAllowed(path, done + [script[0]], script[1..]))
  }

  // ---- the topology under construction reflects the calls ----

  predicate Placed(path: string, b: Board) {
    '/' !in b.local && b.path == Under(path, b.local)
  }

  ghost predicate PortsReflect(done: seq<Command>, b: Board) {
    forall name :: HasKey(b.endpoints, name) <==> PortCalled(done, b.local, name)
  }

  ghost predicate ExportsReflect(done: seq<Command>, c: Topo) {
    forall port :: HasKey(c.exports, port) <==> ChildExports(done, c.name, port)
  }

  predicate HasEdge(edges: seq<DirectedEdge>, from: Loc, to: Loc) {
    exists i | 0 <= i < |edges| :: edges[i].from == from && edges[i].to == to
  }

  ghost predicate BoardsReflect(t: Topo, done: seq<Command>) {
    (forall local :: HasBoard(t.boards, local) <==> BoardCalled(done, local)) &&
    (forall i | 0 <= i < |t.boards| :: Placed(t.path, t.boards[i]) && PortsReflect(done, t.boards[i])) &&
    (forall local, name | PortCalled(done, local, name) :: BoardCalled(done, local)) &&
    FlatContents.DistinctLocals(t.boards)
  }

  ghost predicate ChildrenReflect(t: Topo, done: seq<Command>) {
    (forall name :: HasChild(t.children, name) <==> ChildCalled(done, name)) &&
    forall i | 0 <= i < |t.children| ::
      t.children[i].path == Under(t.path, t.children[i].name) && ExportsReflect(done, t.children[i])
  }

  ghost predicate LinksReflect(t: Topo, done: seq<Command>) {
    (forall name :: HasKey(t.exports, name) <==> ExportCalled(done, name)) &&
    forall from, to :: HasEdge(t.edges, from, to) <==> ConnectCalled(done, from, to)
  }

  ghost predicate Reflects(t: Topo, done: seq<Command>) {
    BoardsReflect(t, done) && ChildrenReflect(t, done) && LinksReflect(t, done)
  }

  // ---- visible ports ----

  lemma {:induction false} LastSegmentUnder(path: string, name: string)
    requires '/' !in name
    ensures LastSegment(Under(path, name)) == name
    decreases |path|
  {
    if path == "" {
      assert Under(path, name)[0] == '/';
      assert Under(path, name)[1..] == name;
    } else {
      assert Under(path, name)[1..] == Under(path[1..], name);
      assert Under(path, name)[|path|] == '/';
      LastSegmentUnder(path[1..], name);
    }
  }

  lemma OwnPortShown(t: Topo, done: seq<Command>, loc: Loc)
    requires BoardsReflect(t, done)
    ensures BoardShows(t, loc) <==> OwnPort(t.path, done, loc)
  {
    if BoardShows(t, loc) {
      var i :| 0 <= i < |t.boards| && t.boards[i].local == LastSegment(loc.path) && t.boards[i].path == loc.path &&
               HasKey(t.boards[i].endpoints, loc.port);
      assert PortsReflect(done, t.boards[i]) && PortCalled(done, t.boards[i].local, loc.port);
      var j :| 0 <= j < |done| && done[j].AddEndpoint? && done[j].local == t.boards[i].local &&
          done[j].name == loc.port;
      assert loc == Loc(t.path + "/" + done[j].local, done[j].name);
    }
    if OwnPort(t.path, done, loc) {
      var j :| 0 <= j < |done| && done[j].AddEndpoint? && loc == Loc(t.path + "/" + done[j].local, done[j].name);
      assert PortCalled(done, done[j].local, loc.port);
      assert HasBoard(t.boards, done[j].local);
      var i :| 0 <= i < |t.boards| && t.boards[i].local == done[j].local;
      assert Placed(t.path, t.boards[i]) && PortsReflect(done, t.boards[i]);
      LastSegmentUnder(t.path, done[j].local);
    }
  }

  lemma InnerPortShown(t: Topo, done: seq<Command>, loc: Loc)
    requires ChildrenReflect(t, done)
    ensures ChildShows(t, loc) <==> InnerPort(t.path, done, loc)
  {
    if ChildShows(t, loc) {
      var i :| 0 <= i < |t.children| && t.children[i].path == loc.path && HasKey(t.children[i].exports, loc.port);
      assert ExportsReflect(done, t.children[i]);
      var j :| 0 <= j < |done| && done[j].AddChild? && done[j].childName == t.children[i].name &&
               ExportCalled(done[j].script, loc.port);
      assert loc.path == t.path + "/" + done[j].childName;
    }
    if InnerPort(t.path, done, loc) {
      var j :| 0 <= j < |done| && done[j].AddChild? && loc.path == t.path + "/" + done[j].childName &&
               ExportCalled(done[j].script, loc.port);
      assert ChildCalled(done, done[j].childName);
      var i :| 0 <= i < |t.children| && t.children[i].name == done[j].childName;
      assert ExportsReflect(done, t.children[i]);
      assert ChildExports(done, t.children[i].name, loc.port);
    }
  }

  lemma VisibleIffMayUse(t: Topo, done: seq<Command>, ref: PortRef)
    requires Reflects(t, done)
    ensures IsVisible(t, ref) <==> MayUse(t.path, done, ref)
  {
    if ref.chain != [] {
      OwnPortShown(t, done, ref.chain[0]);
      InnerPortShown(t, done, ref.chain[|ref.chain| - 1]);
    }
  }

  // ---- one call ----

  lemma IndexedIffCalled(boards: seq<Board>, local: string)
    ensures BoardIndex(boards, local).Some? <==> HasBoard(boards, local)
  {
    if boards != [] && boards[|boards| - 1].local != local {
      var front := boards[..|boards| - 1];
      IndexedIffCalled(front, local);
      assert forall i | 0 <= i < |front| :: front[i] == boards[i];
    }
  }

  lemma EndsConnected(t: Topo, done: seq<Command>, edge: DirectedEdge)
    requires LinksReflect(t, done)
    ensures (exists i | 0 <= i < |t.edges| :: SameEnds(t.edges[i], edge)) <==> ConnectCalled(done, edge.from, edge.to)
  {
    assert HasEdge(t.edges, edge.from, edge.to) <==> ConnectCalled(done, edge.from, edge.to);
    if HasEdge(t.edges, edge.from, edge.to) {
      var i :| 0 <= i < |t.edges| && t.edges[i].from == edge.from && t.edges[i].to == edge.to;
      assert SameEnds(t.edges[i], edge);
    }
  }

  lemma ConnectAcceptedIff(t: Topo, done: seq<Command>, c: Command)
    requires Reflects(t, done) && c.Connect?
    ensures Exec(t, c).Ok? <==> Allowed(t.path, done, c)
  {
    VisibleIffMayUse(t, done, c.src);
    VisibleIffMayUse(t, done, c.dst);
    if c.src.chain != [] && c.dst.chain != [] {
      EndsConnected(t, done, MakeEdge(c.src, c.dst, c.uartRingLen));
    }
  }

  lemma EndpointAcceptedIff(t: Topo, done: seq<Command>, c: Command)
    requires Reflects(t, done) && c.AddEndpoint?
    ensures Exec(t, c).Ok? <==> Allowed(t.path, done, c)
  {
    IndexedIffCalled(t.boards, c.local);
    var i := BoardIndex(t.boards, c.local);
    if i.Some? {
      assert PortsReflect(done, t.boards[i.value]);
    }
  }

  /** A call other than adding a child is accepted exactly if it is allowed. */
  lemma CallAcceptedIff(t: Topo, done: seq<Command>, c: Command)
    requires Reflects(t, done) && !c.AddChild?
    ensures Exec(t, c).Ok? <==> Allowed(t.path, done, c)
  {
    match c
    case Connect(_, _, _) => ConnectAcceptedIff(t, done, c);
    case AddEndpoint(_, _, _, _) => EndpointAcceptedIff(t, done, c);
    case Export(_, ref) => VisibleIffMayUse(t, done, ref);
    case AddBoard(_, _, _) =>
  }

  // ---- one more call ----

  lemma BoardCallsMore(done: seq<Command>, c: Command)
    ensures forall local :: BoardCalled(done + [c], local) <==>
                            BoardCalled(done, local) || (c.AddBoard? && c.local == local)
    ensures forall local, name :: PortCalled(done + [c], local, name) <==>
                                  PortCalled(done, local, name) ||
                                  (c.AddEndpoint? && c.local == local && c.name == name)
  {
    var more := done + [c];
    assert more[|done|] == c;
    assert forall j | 0 <= j < |done| :: more[j] == done[j];
  }

  lemma ChildCallsMore(done: seq<Command>, c: Command)
    ensures forall name :: ChildCalled(done + [c], name) <==>
                           ChildCalled(done, name) || (c.AddChild? && c.childName == name)
    ensures forall name, port :: ChildExports(done + [c], name, port) <==>
                                 ChildExports(done, name, port) ||
                                 (c.AddChild? && c.childName == name && ExportCalled(c.script, port))
  {
    var more := done + [c];
    assert more[|done|] == c;
    assert forall j | 0 <= j < |done| :: more[j] == done[j];
  }

  lemma LinkCallsMore(done: seq<Command>, c: Command)
    ensures forall name :: ExportCalled(done + [c], name) <==>
                           ExportCalled(done, name) || (c.Export? && c.exportName == name)
    ensures forall from, to :: ConnectCalled(done + [c], from, to) <==>
                               ConnectCalled(done, from, to) ||
                               (FlatContents.Wirable(c) && c.src.chain[0] == from && c.dst.chain[0] == to)
  {
    var more := done + [c];
    assert more[|done|] == c;
    assert forall j | 0 <= j < |done| :: more[j] == done[j];
  }

  lemma KeysMore(s: seq<(string, PortRef)>, p: (string, PortRef))
    ensures forall name :: HasKey(s + [p], name) <==> HasKey(s, name) || p.0 == name
  {
    var more := s + [p];
    assert more[|s|] == p;
    assert forall j | 0 <= j < |s| :: more[j] == s[j];
  }

  lemma EdgesMore(edges: seq<DirectedEdge>, e: DirectedEdge)
    ensures forall from, to :: HasEdge(edges + [e], from, to) <==>
                               HasEdge(edges, from, to) || (e.from == from && e.to == to)
  {
    var more := edges + [e];
    assert more[|edges|] == e;
    assert forall j | 0 <= j < |edges| :: more[j] == edges[j];
  }

  lemma LinksStillReflect(t: Topo, m: Topo, done: seq<Command>, c: Command)
    requires LinksReflect(t, done) && Exec(t, c) == Ok(m)
    ensures LinksReflect(m, done + [c])
  {
    FlatContents.ExecChanges(t, m, c);
    LinkCallsMore(done, c);
    match c
    case Connect(_, _, _) => EdgesMore(t.edges, FlatContents.WireOf(c));
    case Export(name, ref) => KeysMore(t.exports, (name, ref.(chain := ref.chain + [Loc(t.path, name)])));
    case AddChild(name, script) => FlatContents.ChildChanges(t, m, name, script);
    case _ =>
  }

  lemma BoardAdded(t: Topo, m: Topo, done: seq<Command>, c: Command)
    requires BoardsReflect(t, done) && c.AddBoard? && FlatContents.Changed(t, m, c) && '/' !in c.local
    ensures BoardsReflect(m, done + [c])
  {
    BoardCallsMore(done, c);
    FlatContents.LocalsStayDistinct(t, m, c);
    var n := |t.boards|;
    assert !BoardCalled(done, c.local);
    assert forall name :: !HasKey(m.boards[n].endpoints, name) && !PortCalled(done, c.local, name);
    forall local
      ensures HasBoard(m.boards, local) <==> HasBoard(t.boards, local) || c.local == local
    {
      assert m.boards[n].local == c.local;
      assert forall i | 0 <= i < n :: m.boards[i] == t.boards[i];
    }
    forall i | 0 <= i < |m.boards|
      ensures Placed(m.path, m.boards[i]) && PortsReflect(done + [c], m.boards[i])
    {
      if i < n {
        assert PortsReflect(done, t.boards[i]);
      }
    }
  }

  lemma PortAdded(t: Topo, m: Topo, done: seq<Command>, c: Command)
    requires BoardsReflect(t, done) && c.AddEndpoint? && FlatContents.Changed(t, m, c)
    ensures BoardsReflect(m, done + [c])
  {
    BoardCallsMore(done, c);
    FlatContents.LocalsStayDistinct(t, m, c);
    var k: nat :| k < |t.boards| && t.boards[k].local == c.local &&
                  m.boards == t.boards[k := WithEndpoint(t.boards[k], c.name, c.direction, c.payload)];
    KeysMore(t.boards[k].endpoints, (c.name, PortRef([Loc(t.boards[k].path, c.name)], c.direction, c.payload)));
    assert HasBoard(t.boards, c.local);
    forall i | 0 <= i < |m.boards|
      ensures m.boards[i].local == t.boards[i].local && Placed(m.path, m.boards[i])
      ensures PortsReflect(done + [c], m.boards[i])
    {
      assert Placed(t.path, t.boards[i]) && PortsReflect(done, t.boards[i]);
      if i != k {
        assert t.boards[i].local != c.local;
      }
    }
    SameLocals(t.boards, m.boards);
  }

  lemma SameLocals(a: seq<Board>, b: seq<Board>)
    requires |a| == |b| && forall i | 0 <= i < |a| :: b[i].local == a[i].local
    ensures forall local :: HasBoard(b, local) <==> HasBoard(a, local)
  {
  }

  lemma BoardsStillReflect(t: Topo, m: Topo, done: seq<Command>, c: Command)
    requires BoardsReflect(t, done) && Exec(t, c) == Ok(m)
    ensures BoardsReflect(m, done + [c])
  {
    FlatContents.ExecChanges(t, m, c);
    match c
    case AddBoard(_, _, _) => BoardAdded(t, m, done, c);
    case AddEndpoint(_, _, _, _) => PortAdded(t, m, done, c);
    case _ =>
      BoardCallsMore(done, c);
      forall i | 0 <= i < |m.boards|
        ensures PortsReflect(done + [c], m.boards[i])
      {
        assert PortsReflect(done, t.boards[i]);
      }
  }

  lemma ChildrenStillReflect(t: Topo, m: Topo, done: seq<Command>, c: Command)
    requires ChildrenReflect(t, done) && !c.AddChild? && m.children == t.children && m.path == t.path
    ensures ChildrenReflect(m, done + [c])
  {
    ChildCallsMore(done, c);
    forall i | 0 <= i < |m.children|
      ensures ExportsReflect(done + [c], m.children[i])
    {
      assert ExportsReflect(done, t.children[i]);
    }
  }

  lemma ChildAdded(t: Topo, m: Topo, done: seq<Command>, c: Command, child: Topo)
    requires ChildrenReflect(t, done) && c.AddChild? && m == t.(children := t.children + [child])
    requires child.name == c.childName && child.path == Under(t.path, c.childName) && !ChildCalled(done, c.childName)
    requires forall port :: HasKey(child.exports, port) <==> ExportCalled(c.script, port)
    ensures ChildrenReflect(m, done + [c])
  {
    ChildCallsMore(done, c);
    var n := |t.children|;
    forall name
      ensures HasChild(m.children, name) <==> HasChild(t.children, name) || c.childName == name
    {
      assert m.children[n] == child;
      assert forall i | 0 <= i < n :: m.children[i] == t.children[i];
    }
    forall i | 0 <= i < |m.children|
      ensures m.children[i].path == Under(m.path, m.children[i].name) && ExportsReflect(done + [c], m.children[i])
    {
      if i < n {
        assert m.children[i] == t.children[i] && ExportsReflect(done, t.children[i]);
        assert HasChild(t.children, t.children[i].name);
      } else {
        assert forall port :: !ChildExports(done, c.childName, port);
      }
    }
  }

  // ---- a whole script ----

  lemma FreshReflects(name: string, path: string)
    ensures Reflects(Fresh(name, path), [])
  {
  }

  lemma {:induction false} ExecAllKeepsPlace(t: Topo, script: seq<Command>)
    requires ExecAll(t, script).Ok?
    ensures ExecAll(t, script).value.name == t.name && ExecAll(t, script).value.path == t.path
    decreases |script|
  {
    if script != [] {
      FlatContents.ExecChanges(t, Exec(t, script[0]).value, script[0]);
      ExecAllKeepsPlace(Exec(t, script[0]).value, script[1..]);
    }
  }

  lemma ChildReflects(t: Topo, done: seq<Command>, c: Command, built: Topo)
    requires Reflects(t, done) && c.AddChild? && built == Fresh(c.childName, Under(t.path, c.childName))
    requires ExecAll(built, c.script).Ok? <==> AllAllowed(built.path, [], c.script)
    requires ExecAll(built, c.script).Ok? ==> LinksReflect(ExecAll(built, c.script).value, [] + c.script)
    ensures Exec(t, c).Ok? <==> Allowed(t.path, done, c)
    ensures Exec(t, c).Ok? ==> ChildrenReflect(Exec(t, c).value, done + [c])
  {
    assert Exec(t, c) == ExecChild(t, c.childName, c.script);
    if Exec(t, c).Ok? {
      var m := Exec(t, c).value;
      FlatContents.ChildChanges(t, m, c.childName, c.script);
      ExecAllKeepsPlace(built, c.script);
      assert [] + c.script == c.script;
      ChildAdded(t, m, done, c, ExecAll(built, c.script).value);
    }
  }

  /** Whatever has been built so far, the rest of a script is accepted exactly if each of its calls is
      allowed by those before it, and what it leaves reflects all calls. */
  lemma {:induction false} AcceptedIffAllowed(t: Topo, done: seq<Command>, script: seq<Command>)
    requires Reflects(t, done)
    ensures ExecAll(t, script).Ok? <==> AllAllowed(t.path, done, script)
    ensures ExecAll(t, script).Ok? ==> Reflects(ExecAll(t, script).value, done + script)
    decreases script
  {
    if script == [] {
      assert done + script == done;
    } else {
      var c, rest := script[0], script[1..];
      if c.AddChild? {
        var built := Fresh(c.childName, Under(t.path, c.childName));
        FreshReflects(c.childName, Under(t.path, c.childName));
        AcceptedIffAllowed(built, [], c.script);
        ChildReflects(t, done, c, built);
      } else {
        CallAcceptedIff(t, done, c);
      }
      if Exec(t, c).Ok? {
        var m := Exec(t, c).value;
        FlatContents.ExecChanges(t, m, c);
        LinksStillReflect(t, m, done, c);
        BoardsStillReflect(t, m, done, c);
        if !c.AddChild? {
          ChildrenStillReflect(t, m, done, c);
        }
        AcceptedIffAllowed(m, done + [c], rest);
        assert done + [c] + rest == done + script;
      }
    }
  }

  /** A configuration is accepted exactly if its root name is fit, every call of its script tree is
      allowed by the calls made before it at its level, and no two wires of the whole tree join the
      same ends. */
  lemma BuildsIffAllowed(name: string, script: seq<Command>, marginNs: u64, headroomThresholdNs: u64)
    ensures ToDict(name, script, marginNs, headroomThresholdNs).Ok? <==>
            name != "" && '/' !in name && AllAllowed(name, [], script) && DistinctEdges(FlatContents.Wires(script))
  {
    FreshReflects(name, name);
    AcceptedIffAllowed(Fresh(name, name), [], script);
    if ExecAll(Fresh(name, name), script).Ok? {
      FlatContents.TreeHoldsTheScript(name, script);
    }
  }
}
