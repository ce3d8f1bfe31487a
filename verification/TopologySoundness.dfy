/** When a topology the language accepts flattens to one the validator accepts. */
module TopologySoundness {
  import opened Prelude
  import opened Topology
  import opened TopologyDsl

  // ---- honest scripts ----

  /** `ref` is a port that one of this topology's boards or children handed out. */
  ghost predicate Handed(t: Topo, ref: PortRef) {
    (exists b, p: string :: b in t.boards && (p, ref) in b.endpoints) ||
    (exists c, p: string :: c in t.children && (p, ref) in c.exports)
  }

  /** A port that passes for visible is a real one. */
  ghost predicate Honest(t: Topo, ref: PortRef) {
    IsVisible(t, ref) ==> Handed(t, ref)
  }

  ghost predicate HonestCommand(t: Topo, c: Command)
    decreases c, 2
  {
    match c
    case Export(_, ref) => Honest(t, ref)
    case Connect(src, dst, _) => Honest(t, src) && Honest(t, dst)
    case AddChild(name, script) => HonestScript(Fresh(name, Under(t.path, name)), script)
    case _ => true
  }

  ghost predicate HonestScript(t: Topo, script: seq<Command>)
    decreases script, 0
  {
    script == [] ||
    (HonestCommand(t, script[0]) &&
     (Exec(t, script[0]).Ok? ==> HonestScript(Exec(t, script[0]).value, script[1..])))
  }

  // ---- what every topology under construction satisfies ----

  predicate OwnPort(b: Board, p: (string, PortRef)) {
    p.0 != "" && p.1.chain == [Loc(b.path, p.0)]
  }

  ghost predicate DistinctPorts(s: seq<(string, PortRef)>) {
    forall i, j | 0 <= i < j < |s| :: s[i].0 != s[j].0
  }

  ghost predicate GoodBoard(path: string, b: Board) {
    Named(b.local) && b.path == Under(path, b.local) && DistinctPorts(b.endpoints) &&
    forall p | p in b.endpoints :: OwnPort(b, p)
  }

  /** Some board among `boards` has such an endpoint. */
  ghost predicate Offers(boards: seq<Board>, loc: Loc, direction: Direction, payload: PayloadKind) {
    exists b, r: PortRef :: b in boards && b.path == loc.path && (loc.port, r) in b.endpoints &&
                            r.direction == direction && r.payload == payload
  }

  /** `outer` is one hierarchy level above `inner`. */
  ghost predicate OneUp(inner: Loc, outer: Loc) {
    exists n :: Named(n) && inner.path == Under(outer.path, n)
  }

  ghost predicate Climbs(chain: seq<Loc>) {
    forall k: nat | k + 1 < |chain| :: OneUp(chain[k], chain[k + 1])
  }

  /** A port that leads to a real endpoint of `boards`, one level per hop. */
  ghost predicate GoodRef(boards: seq<Board>, ref: PortRef) {
    ref.chain != [] && Climbs(ref.chain) && Offers(boards, ref.chain[0], ref.direction, ref.payload)
  }

  ghost predicate GoodExport(boards: seq<Board>, path: string, p: (string, PortRef)) {
    GoodRef(boards, p.1) && p.1.chain[|p.1.chain| - 1] == Loc(path, p.0)
  }

  /** The route goes up the source's chain and down the sink's. */
  ghost predicate UpAndDown(e: DirectedEdge, up: seq<Loc>, down: seq<Loc>) {
    up != [] && down != [] && e.route == up + Reverse(down) && up[0] == e.from && down[0] == e.to &&
    Climbs(up) && Climbs(down)
  }

  ghost predicate GoodEdge(boards: seq<Board>, e: DirectedEdge) {
    Offers(boards, e.from, Out, e.payload) && Offers(boards, e.to, In, e.payload) && e.from.path != e.to.path &&
    exists up, down :: UpAndDown(e, up, down)
  }

  ghost predicate GoodNames(t: Topo) {
    (forall i | 0 <= i < |t.boards| :: GoodBoard(t.path, t.boards[i])) &&
    (forall i, j | 0 <= i < j < |t.boards| :: t.boards[i].local != t.boards[j].local) &&
    (forall i | 0 <= i < |t.children| ::
      Named(t.children[i].name) && t.children[i].path == Under(t.path, t.children[i].name)) &&
    (forall i, j | 0 <= i < j < |t.children| :: t.children[i].name != t.children[j].name) &&
    forall i, j | 0 <= i < |t.boards| && 0 <= j < |t.children| :: t.boards[i].local != t.children[j].name
  }

  ghost predicate GoodPorts(t: Topo) {
    (forall p | p in t.exports :: GoodExport(AllBoards(t), t.path, p)) &&
    forall e | e in t.edges :: GoodEdge(AllBoards(t), e)
  }

  /** What `connect` makes sure of whatever ports it is given. */
  predicate PlainEdge(e: DirectedEdge) {
    e.route != [] && e.route[0] == e.from && e.route[|e.route| - 1] == e.to && e.from.path != e.to.path
  }

  /** What every accepted script leaves, honest or not. */
  ghost predicate Shaped(t: Topo)
    decreases t
  {
    match t
    case Topo(_, _, _, children, _, _) =>
      GoodNames(t) && (forall e | e in t.edges :: PlainEdge(e)) && forall i | 0 <= i < |children| :: Shaped(children[i])
  }

  /** What an honest one leaves besides. */
  ghost predicate Good(t: Topo)
    decreases t
  {
    match t
    case Topo(_, _, _, children, _, _) => GoodPorts(t) && forall i | 0 <= i < |children| :: Good(children[i])
  }

  // ---- growth ----

  /** Every endpoint of `a` is one of `b`. */
  ghost predicate Covers(a: seq<Board>, b: seq<Board>) {
    forall x | x in a :: exists y :: y in b && y.path == x.path && forall p | p in x.endpoints :: p in y.endpoints
  }

  lemma OffersGrows(a: seq<Board>, b: seq<Board>, loc: Loc, direction: Direction, payload: PayloadKind)
    requires Covers(a, b) && Offers(a, loc, direction, payload)
    ensures Offers(b, loc, direction, payload)
  {
    var x, r: PortRef :| x in a && x.path == loc.path && (loc.port, r) in x.endpoints &&
                         r.direction == direction && r.payload == payload;
    var y :| y in b && y.path == x.path && forall p | p in x.endpoints :: p in y.endpoints;
  }

  lemma PortsGrow(t: Topo, next: Topo)
    requires GoodPorts(t) && Covers(AllBoards(t), AllBoards(next))
    requires next.path == t.path && next.exports == t.exports && next.edges == t.edges
    ensures GoodPorts(next)
  {
    var a, b := AllBoards(t), AllBoards(next);
    forall p | p in next.exports ensures GoodExport(b, next.path, p) {
      assert GoodExport(a, t.path, p);
      OffersGrows(a, b, p.1.chain[0], p.1.direction, p.1.payload);
    }
    forall e | e in next.edges ensures GoodEdge(b, e) {
      assert GoodEdge(a, e);
      OffersGrows(a, b, e.from, Out, e.payload);
      OffersGrows(a, b, e.to, In, e.payload);
    }
  }

  lemma {:induction false} ChildBoardsAppend(children: seq<Topo>, c: Topo)
    ensures ChildBoards(children + [c]) == ChildBoards(children) + AllBoards(c)
  {
    if children == [] {
      assert [c][1..] == [];
      assert ChildBoards([c]) == AllBoards(c) + [];
    } else {
      ChildBoardsAppend(children[1..], c);
      assert (children + [c])[1..] == children[1..] + [c];
    }
  }

  lemma {:induction false} ChildBoardsHas(children: seq<Topo>, i: nat, b: Board)
    requires i < |children| && b in AllBoards(children[i])
    ensures b in ChildBoards(children)
  {
    if i > 0 {
      ChildBoardsHas(children[1..], i - 1, b);
    }
  }

  // ---- what a visible port is ----

  /** A port a board or child handed out leads to a real endpoint inside, and its last hop is
      one level below this topology. */
  lemma HandedIsGood(t: Topo, ref: PortRef)
    requires Shaped(t) && Good(t) && Handed(t, ref)
    ensures GoodRef(AllBoards(t), ref) && OneUp(ref.chain[|ref.chain| - 1], Loc(t.path, ""))
  {
    if b, p: string :| b in t.boards && (p, ref) in b.endpoints {
      var i :| 0 <= i < |t.boards| && t.boards[i] == b;
      assert GoodBoard(t.path, t.boards[i]);
      assert OwnPort(b, (p, ref));
      assert b in AllBoards(t);
      assert b.path == Under(t.path, b.local);
    } else {
      var c, p: string :| c in t.children && (p, ref) in c.exports;
      var i :| 0 <= i < |t.children| && t.children[i] == c;
      assert Good(t.children[i]) && GoodExport(AllBoards(c), c.path, (p, ref));
      forall x | x in AllBoards(c) ensures x in AllBoards(t) {
        ChildBoardsHas(t.children, i, x);
      }
      assert Covers(AllBoards(c), AllBoards(t));
      OffersGrows(AllBoards(c), AllBoards(t), ref.chain[0], ref.direction, ref.payload);
      assert c.path == Under(t.path, c.name);
    }
  }

  lemma ChainExtends(chain: seq<Loc>, outer: Loc)
    requires chain != [] && Climbs(chain) && OneUp(chain[|chain| - 1], outer)
    ensures Climbs(chain + [outer])
  {
    var longer := chain + [outer];
    forall k: nat | k + 1 < |longer| ensures OneUp(longer[k], longer[k + 1]) {
      if k + 1 < |chain| {
        assert OneUp(chain[k], chain[k + 1]);
      }
    }
  }

  // ---- every call keeps the shape ----

  lemma EndpointKeepsNames(t: Topo, i: nat, name: string, direction: Direction, payload: PayloadKind)
    requires GoodNames(t) && i < |t.boards| && name != "" && !HasKey(t.boards[i].endpoints, name)
    ensures GoodNames(t.(boards := t.boards[i := WithEndpoint(t.boards[i], name, direction, payload)]))
  {
    var b := t.boards[i];
    var more := WithEndpoint(b, name, direction, payload);
    assert GoodBoard(t.path, b);
    forall p | p in more.endpoints ensures OwnPort(more, p) {
      if p in b.endpoints {
        assert OwnPort(b, p);
      }
    }
    assert GoodBoard(t.path, more);
  }

  lemma BoardShapes(t: Topo, local: string, kind: string, elf: Option<string>)
    requires Shaped(t) && ExecBoard(t, local, kind, elf).Ok?
    ensures Shaped(ExecBoard(t, local, kind, elf).value)
  {
    assert GoodBoard(t.path, Board(local, Under(t.path, local), kind, elf, []));
    assert GoodNames(ExecBoard(t, local, kind, elf).value);
  }

  lemma ConnectShapes(t: Topo, src: PortRef, dst: PortRef, ring: Option<nat>)
    requires Shaped(t) && ExecConnect(t, src, dst, ring).Ok?
    ensures Shaped(ExecConnect(t, src, dst, ring).value)
  {
    var next, e := ExecConnect(t, src, dst, ring).value, MakeEdge(src, dst, ring);
    assert e.route[|e.route| - 1] == Reverse(dst.chain)[|dst.chain| - 1] == dst.chain[0];
    assert GoodNames(next);
    forall x | x in next.edges ensures PlainEdge(x) {
      assert x in t.edges || x == e;
    }
  }

  lemma ChildShapes(t: Topo, child: Topo)
    requires Shaped(t) && Shaped(child) && Named(child.name) && child.path == Under(t.path, child.name)
    requires !HasChild(t.children, child.name) && !HasBoard(t.boards, child.name)
    ensures Shaped(t.(children := t.children + [child]))
  {
    var next := t.(children := t.children + [child]);
    assert GoodNames(next);
    forall i | 0 <= i < |next.children| ensures Shaped(next.children[i]) {
      if i < |t.children| {
        assert next.children[i] == t.children[i];
      }
    }
  }

  lemma {:induction false} ExecShapes(t: Topo, c: Command)
    requires Shaped(t) && Exec(t, c).Ok?
    ensures Shaped(Exec(t, c).value) && Exec(t, c).value.name == t.name && Exec(t, c).value.path == t.path
    decreases c, 2
  {
    match c
    case AddBoard(local, kind, elf) => BoardShapes(t, local, kind, elf);
    case AddEndpoint(local, name, direction, payload) =>
      EndpointKeepsNames(t, BoardIndex(t.boards, local).value, name, direction, payload);
    case Export(name, ref) => assert GoodNames(Exec(t, c).value);
    case Connect(src, dst, ring) => ConnectShapes(t, src, dst, ring);
    case AddChild(name, script) =>
      ExecAllShapes(Fresh(name, Under(t.path, name)), script);
      ChildShapes(t, ExecAll(Fresh(name, Under(t.path, name)), script).value);
  }

  /** Every accepted script leaves a well-shaped topology. */
  lemma {:induction false} ExecAllShapes(t: Topo, script: seq<Command>)
    requires Shaped(t) && ExecAll(t, script).Ok?
    ensures Shaped(ExecAll(t, script).value) && ExecAll(t, script).value.name == t.name &&
            ExecAll(t, script).value.path == t.path
    decreases script, 0
  {
    if script != [] {
      ExecShapes(t, script[0]);
      ExecAllShapes(Exec(t, script[0]).value, script[1..]);
    }
  }

  // ---- every honest call keeps the ports ----

  lemma BoardKeeps(t: Topo, local: string, kind: string, elf: Option<string>)
    requires Good(t) && ExecBoard(t, local, kind, elf).Ok?
    ensures Good(ExecBoard(t, local, kind, elf).value)
  {
    var next := ExecBoard(t, local, kind, elf).value;
    forall x | x in AllBoards(t) ensures x in AllBoards(next) {}
    PortsGrow(t, next);
  }

  lemma EndpointKeeps(t: Topo, local: string, name: string, direction: Direction, payload: PayloadKind)
    requires Good(t) && ExecEndpoint(t, local, name, direction, payload).Ok?
    ensures Good(ExecEndpoint(t, local, name, direction, payload).value)
  {
    var next := ExecEndpoint(t, local, name, direction, payload).value;
    var i := BoardIndex(t.boards, local).value;
    var more := WithEndpoint(t.boards[i], name, direction, payload);
    assert next.boards[i] == more;
    forall x | x in AllBoards(t)
      ensures exists y :: y in AllBoards(next) && y.path == x.path && forall p | p in x.endpoints :: p in y.endpoints
    {
      if x in t.boards {
        var j :| 0 <= j < |t.boards| && t.boards[j] == x;
        var y := next.boards[j];
        assert y in AllBoards(next) && y.path == x.path && forall p | p in x.endpoints :: p in y.endpoints;
      } else {
        assert x in AllBoards(next);
      }
    }
    PortsGrow(t, next);
  }

  lemma ExportKeeps(t: Topo, name: string, ref: PortRef)
    requires Shaped(t) && Good(t) && Honest(t, ref) && ExecExport(t, name, ref).Ok?
    ensures Good(ExecExport(t, name, ref).value)
  {
    var next := ExecExport(t, name, ref).value;
    HandedIsGood(t, ref);
    ChainExtends(ref.chain, Loc(t.path, name)) by {
      var n :| Named(n) && ref.chain[|ref.chain| - 1].path == Under(t.path, n);
    }
    assert AllBoards(next) == AllBoards(t);
    var p := next.exports[|t.exports|];
    assert GoodExport(AllBoards(next), next.path, p);
    forall q | q in next.exports ensures GoodExport(AllBoards(next), next.path, q) {
      if q in t.exports {
        assert GoodExport(AllBoards(t), t.path, q);
      }
    }
  }

  lemma ConnectKeeps(t: Topo, src: PortRef, dst: PortRef, ring: Option<nat>)
    requires Shaped(t) && Good(t) && Honest(t, src) && Honest(t, dst) && ExecConnect(t, src, dst, ring).Ok?
    ensures Good(ExecConnect(t, src, dst, ring).value)
  {
    var next := ExecConnect(t, src, dst, ring).value;
    HandedIsGood(t, src);
    HandedIsGood(t, dst);
    var e := MakeEdge(src, dst, ring);
    assert UpAndDown(e, src.chain, dst.chain);
    assert AllBoards(next) == AllBoards(t);
    assert GoodEdge(AllBoards(next), e);
    forall x | x in next.edges ensures GoodEdge(AllBoards(next), x) {
      if x in t.edges {
        assert GoodEdge(AllBoards(t), x);
      }
    }
  }

  lemma ChildKeeps(t: Topo, child: Topo)
    requires Good(t) && Good(child)
    ensures Good(t.(children := t.children + [child]))
  {
    var next := t.(children := t.children + [child]);
    ChildBoardsAppend(t.children, child);
    forall x | x in AllBoards(t) ensures x in AllBoards(next) {}
    PortsGrow(t, next);
    forall i | 0 <= i < |next.children| ensures Good(next.children[i]) {
      if i < |t.children| {
        assert next.children[i] == t.children[i];
      }
    }
  }

  lemma {:induction false} ExecKeeps(t: Topo, c: Command)
    requires Shaped(t) && Good(t) && HonestCommand(t, c) && Exec(t, c).Ok?
    ensures Good(Exec(t, c).value)
    decreases c, 2
  {
    match c
    case AddBoard(local, kind, elf) => BoardKeeps(t, local, kind, elf);
    case AddEndpoint(local, name, direction, payload) => EndpointKeeps(t, local, name, direction, payload);
    case Export(name, ref) => ExportKeeps(t, name, ref);
    case Connect(src, dst, ring) => ConnectKeeps(t, src, dst, ring);
    case AddChild(name, script) =>
      ExecAllKeeps(Fresh(name, Under(t.path, name)), script);
      ChildKeeps(t, ExecAll(Fresh(name, Under(t.path, name)), script).value);
  }

  lemma {:induction false} ExecAllKeeps(t: Topo, script: seq<Command>)
    requires Shaped(t) && Good(t) && HonestScript(t, script) && ExecAll(t, script).Ok?
    ensures Good(ExecAll(t, script).value)
    decreases script, 0
  {
    if script != [] {
      ExecShapes(t, script[0]);
      ExecKeeps(t, script[0]);
      ExecAllKeeps(Exec(t, script[0]).value, script[1..]);
    }
  }

  // ---- board paths are unique ----

  ghost predicate AllUnder(boards: seq<Board>, prefix: string) {
    forall b | b in boards :: exists rest: string :: b.path == prefix + "/" + rest
  }

  ghost predicate DistinctPaths(boards: seq<Board>) {
    forall i, j | 0 <= i < j < |boards| :: boards[i].path != boards[j].path
  }

  lemma FirstSlash(a: string, x: string)
    requires '/' !in a
    ensures var s := a + "/" + x;
            s[|a|] == '/' && s[..|a|] == a && forall i | 0 <= i < |a| :: s[i] != '/'
  {
    var s := a + "/" + x;
    forall i | 0 <= i < |a| ensures s[i] != '/' {
      assert s[i] == a[i] && a[i] in a;
    }
  }

  /** Names without a slash are determined by the path they start. */
  lemma SlashSplit(a: string, x: string, b: string, y: string)
    requires '/' !in a && '/' !in b && a + "/" + x == b + "/" + y
    ensures a == b
  {
    FirstSlash(a, x);
    FirstSlash(b, y);
  }

  lemma CutPrefix(p: string, x: string, y: string)
    requires p + "/" + x == p + "/" + y
    ensures x == y
  {
    assert x == (p + "/" + x)[|p| + 1..];
    assert y == (p + "/" + y)[|p| + 1..];
  }

  lemma Deeper(p: string, n: string, rest: string)
    ensures Under(p, n) + "/" + rest == p + "/" + (n + "/" + rest)
  {
  }

  lemma {:induction false} BoardsAreUnder(t: Topo)
    requires Shaped(t)
    ensures AllUnder(AllBoards(t), t.path)
    decreases t, 1
  {
    ChildrenAreUnder(t.children, t.path);
    forall b | b in AllBoards(t) ensures exists rest: string :: b.path == t.path + "/" + rest {
      if b in t.boards {
        var i :| 0 <= i < |t.boards| && t.boards[i] == b;
        assert GoodBoard(t.path, t.boards[i]);
        assert b.path == t.path + "/" + b.local;
      }
    }
  }

  lemma {:induction false} ChildrenAreUnder(children: seq<Topo>, path: string)
    requires forall i | 0 <= i < |children| :: Shaped(children[i]) && children[i].path == Under(path, children[i].name)
    ensures AllUnder(ChildBoards(children), path)
    decreases children, 0
  {
    if children != [] {
      var c := children[0];
      BoardsAreUnder(c);
      ChildrenAreUnder(children[1..], path);
      forall b | b in AllBoards(c) ensures exists rest: string :: b.path == path + "/" + rest {
        var rest: string :| b.path == c.path + "/" + rest;
        Deeper(path, c.name, rest);
      }
    }
  }

  lemma DistinctConcat(a: seq<Board>, b: seq<Board>)
    requires DistinctPaths(a) && DistinctPaths(b) && forall x, y | x in a && y in b :: x.path != y.path
    ensures DistinctPaths(a + b)
  {
    var s := a + b;
    forall i, j | 0 <= i < j < |s| ensures s[i].path != s[j].path {
      if i < |a| <= j {
        assert s[i] in a && s[j] in b;
      }
    }
  }

  /** Boards under different names of one level have different paths. */
  lemma NamesSeparate(path: string, a: string, x: string, b: string, y: string)
    requires Named(a) && Named(b) && a != b
    ensures Under(path, a) + "/" + x != Under(path, b) + "/" + y
    ensures Under(path, a) != Under(path, b) + "/" + y
    ensures Under(path, a) != Under(path, b)
  {
    if Under(path, a) + "/" + x == Under(path, b) + "/" + y {
      Deeper(path, a, x);
      Deeper(path, b, y);
      CutPrefix(path, a + "/" + x, b + "/" + y);
      SlashSplit(a, x, b, y);
    }
    FirstSlash(b, y);
    assert '/' in b + "/" + y;
    if Under(path, a) == Under(path, b) + "/" + y {
      Deeper(path, b, y);
      CutPrefix(path, a, b + "/" + y);
    }
    if Under(path, a) == Under(path, b) {
      CutPrefix(path, a, b);
    }
  }

  /** Whatever ports a script uses, no two boards of the whole tree have the same path. */
  lemma {:induction false} PathsAreDistinct(t: Topo)
    requires Shaped(t)
    ensures DistinctPaths(AllBoards(t))
    decreases t, 1
  {
    forall i, j | 0 <= i < j < |t.boards| ensures t.boards[i].path != t.boards[j].path {
      assert GoodBoard(t.path, t.boards[i]) && GoodBoard(t.path, t.boards[j]);
      NamesSeparate(t.path, t.boards[i].local, "", t.boards[j].local, "");
    }
    ChildPathsAreDistinct(t.children, t.path);
    forall x, y | x in t.boards && y in ChildBoards(t.children) ensures x.path != y.path {
      var i :| 0 <= i < |t.boards| && t.boards[i] == x;
      assert GoodBoard(t.path, t.boards[i]);
      var j, rest := ChildOf(t.children, y);
      NamesSeparate(t.path, x.local, "", t.children[j].name, rest);
    }
    DistinctConcat(t.boards, ChildBoards(t.children));
  }

  lemma {:induction false} ChildOf(children: seq<Topo>, b: Board) returns (j: nat, rest: string)
    requires forall i | 0 <= i < |children| :: Shaped(children[i])
    requires b in ChildBoards(children)
    ensures j < |children| && b.path == children[j].path + "/" + rest
  {
    if b in AllBoards(children[0]) {
      BoardsAreUnder(children[0]);
      j := 0;
      rest :| b.path == children[0].path + "/" + rest;
    } else {
      var k, r := ChildOf(children[1..], b);
      j, rest := k + 1, r;
    }
  }

  lemma {:induction false} ChildPathsAreDistinct(children: seq<Topo>, path: string)
    requires forall i | 0 <= i < |children| ::
               Shaped(children[i]) && Named(children[i].name) && children[i].path == Under(path, children[i].name)
    requires forall i, j | 0 <= i < j < |children| :: children[i].name != children[j].name
    ensures DistinctPaths(ChildBoards(children))
    decreases children, 0
  {
    if children != [] {
      PathsAreDistinct(children[0]);
      ChildPathsAreDistinct(children[1..], path);
      BoardsAreUnder(children[0]);
      forall x, y | x in AllBoards(children[0]) && y in ChildBoards(children[1..]) ensures x.path != y.path {
        var r: string :| x.path == children[0].path + "/" + r;
        var j, rest := ChildOf(children[1..], y);
        NamesSeparate(path, children[0].name, r, children[j + 1].name, rest);
      }
      DistinctConcat(AllBoards(children[0]), ChildBoards(children[1..]));
    }
  }

  // ---- the flat topology ----

  ghost predicate SpecBoard(b: Board) {
    b.path != "" && DistinctPorts(b.endpoints) && forall p | p in b.endpoints :: OwnPort(b, p)
  }

  lemma {:induction false} TreeIsFlat(t: Topo)
    requires Shaped(t)
    ensures forall b | b in AllBoards(t) :: SpecBoard(b)
    ensures forall e | e in AllEdges(t) :: PlainEdge(e)
    decreases t, 1
  {
    ChildrenAreFlat(t.children);
    forall b | b in AllBoards(t) ensures SpecBoard(b) {
      if b in t.boards {
        var i :| 0 <= i < |t.boards| && t.boards[i] == b;
        assert GoodBoard(t.path, t.boards[i]);
      }
    }
  }

  lemma {:induction false} ChildrenAreFlat(children: seq<Topo>)
    requires forall i | 0 <= i < |children| :: Shaped(children[i])
    ensures forall b | b in ChildBoards(children) :: SpecBoard(b)
    ensures forall e | e in ChildEdges(children) :: PlainEdge(e)
    decreases children, 0
  {
    if children != [] {
      TreeIsFlat(children[0]);
      ChildrenAreFlat(children[1..]);
    }
  }

  lemma {:induction false} TreeIsFlatGood(t: Topo)
    requires Good(t)
    ensures forall e | e in AllEdges(t) :: GoodEdge(AllBoards(t), e)
    decreases t, 1
  {
    ChildrenAreFlatGood(t.children);
    forall e | e in AllEdges(t) ensures GoodEdge(AllBoards(t), e) {
      if e in t.edges {
      } else {
        assert GoodEdge(ChildBoards(t.children), e);
        assert Covers(ChildBoards(t.children), AllBoards(t));
        EdgeGrows(ChildBoards(t.children), AllBoards(t), e);
      }
    }
  }

  lemma EdgeGrows(a: seq<Board>, b: seq<Board>, e: DirectedEdge)
    requires Covers(a, b) && GoodEdge(a, e)
    ensures GoodEdge(b, e)
  {
    OffersGrows(a, b, e.from, Out, e.payload);
    OffersGrows(a, b, e.to, In, e.payload);
  }

  lemma {:induction false} ChildrenAreFlatGood(children: seq<Topo>)
    requires forall i | 0 <= i < |children| :: Good(children[i])
    ensures forall e | e in ChildEdges(children) :: GoodEdge(ChildBoards(children), e)
    decreases children, 0
  {
    if children != [] {
      var c, rest := children[0], children[1..];
      TreeIsFlatGood(c);
      ChildrenAreFlatGood(rest);
      var all := ChildBoards(children);
      assert all == AllBoards(c) + ChildBoards(rest);
      assert forall x | x in AllBoards(c) || x in ChildBoards(rest) :: x in all;
      assert Covers(AllBoards(c), all) && Covers(ChildBoards(rest), all);
      forall e | e in ChildEdges(children) ensures GoodEdge(all, e) {
        if e in AllEdges(c) {
          EdgeGrows(AllBoards(c), all, e);
        } else {
          EdgeGrows(ChildBoards(rest), all, e);
        }
      }
    }
  }

  lemma OffersHasEndpoint(boards: seq<Board>, loc: Loc, direction: Direction, payload: PayloadKind)
    requires Offers(boards, loc, direction, payload)
    ensures HasEndpoint(Specs(boards), loc, direction, payload)
  {
    var b, r: PortRef :| b in boards && b.path == loc.path && (loc.port, r) in b.endpoints &&
                         r.direction == direction && r.payload == payload;
    var i :| 0 <= i < |boards| && boards[i] == b;
    var k :| 0 <= k < |b.endpoints| && b.endpoints[k] == (loc.port, r);
    assert Specs(boards)[i] == Spec(b);
    assert EndpointSpecs(b.endpoints)[k] == EndpointSpec(loc.port, direction, payload);
  }

  lemma EndpointIsOffered(boards: seq<Board>, loc: Loc, direction: Direction, payload: PayloadKind)
    requires HasEndpoint(Specs(boards), loc, direction, payload)
    ensures Offers(boards, loc, direction, payload)
  {
    var s :| s in Specs(boards) && s.id == loc.path && EndpointSpec(loc.port, direction, payload) in s.endpoints;
    var i :| 0 <= i < |boards| && Specs(boards)[i] == s;
    var k :| 0 <= k < |s.endpoints| && s.endpoints[k] == EndpointSpec(loc.port, direction, payload);
    var b := boards[i];
    assert b.endpoints[k] == (loc.port, b.endpoints[k].1) && b.endpoints[k] in b.endpoints;
  }

  lemma OffersIffEndpoint(boards: seq<Board>, loc: Loc, direction: Direction, payload: PayloadKind)
    ensures Offers(boards, loc, direction, payload) <==> HasEndpoint(Specs(boards), loc, direction, payload)
  {
    if Offers(boards, loc, direction, payload) {
      OffersHasEndpoint(boards, loc, direction, payload);
    } else if HasEndpoint(Specs(boards), loc, direction, payload) {
      EndpointIsOffered(boards, loc, direction, payload);
    }
  }

  lemma SpecIsValid(b: Board, elfOk: string -> bool)
    requires SpecBoard(b)
    ensures ValidBoard(Spec(b), elfOk) <==> (b.elf.Some? ==> elfOk(b.elf.value))
  {
    var eps := Spec(b).endpoints;
    forall e | e in eps ensures e.name != "" {
      var i :| 0 <= i < |eps| && eps[i] == e;
      assert OwnPort(b, b.endpoints[i]);
    }
  }

  /** Both ends of the edge are endpoints that boards really have: the source an output, the sink
      an input, of the edge's payload. */
  ghost predicate EndsExist(boards: seq<Board>, e: DirectedEdge) {
    Offers(boards, e.from, Out, e.payload) && Offers(boards, e.to, In, e.payload)
  }

  predicate ElfsOk(boards: seq<Board>, elfOk: string -> bool) {
    forall i | 0 <= i < |boards| && boards[i].elf.Some? :: elfOk(boards[i].elf.value)
  }

  lemma BoardsAreValid(boards: seq<Board>, elfOk: string -> bool)
    requires forall b | b in boards :: SpecBoard(b)
    ensures (forall b | b in Specs(boards) :: ValidBoard(b, elfOk)) <==> ElfsOk(boards, elfOk)
  {
    forall i | 0 <= i < |boards|
      ensures ValidBoard(Specs(boards)[i], elfOk) <==> (boards[i].elf.Some? ==> elfOk(boards[i].elf.value))
    {
      assert boards[i] in boards;
      SpecIsValid(boards[i], elfOk);
    }
    if forall b | b in Specs(boards) :: ValidBoard(b, elfOk) {
      forall i | 0 <= i < |boards| && boards[i].elf.Some? ensures elfOk(boards[i].elf.value) {
        assert Specs(boards)[i] in Specs(boards);
      }
    }
  }

  /** Exactly when the flat topology of an accepted script, honest or not, is valid for the
      cluster: it has a board, its firmware strings are acceptable, and both ends of every edge
      exist. Distinct paths and ports, distinct edges, routes from end to end and different
      boards at the ends follow from the checks made while building. */
  lemma ValidIffEndsExist(name: string, script: seq<Command>, marginNs: u64, headroomThresholdNs: u64,
                          elfOk: string -> bool)
    requires ToDict(name, script, marginNs, headroomThresholdNs).Ok?
    ensures var root := ExecAll(Fresh(name, name), script).value;
            ValidTopology(ToDict(name, script, marginNs, headroomThresholdNs).value, elfOk) <==>
            AllBoards(root) != [] && ElfsOk(AllBoards(root), elfOk) &&
            forall e | e in AllEdges(root) :: EndsExist(AllBoards(root), e)
  {
    ExecAllShapes(Fresh(name, name), script);
    var root := ExecAll(Fresh(name, name), script).value;
    var t := ToDict(name, script, marginNs, headroomThresholdNs).value;
    var boards := AllBoards(root);
    TreeIsFlat(root);
    PathsAreDistinct(root);
    BoardsAreValid(boards, elfOk);
    assert DistinctIds(t.boards);
    forall e | e in t.edges ensures ValidEdge(t.boards, e) <==> EndsExist(boards, e) {
      OffersIffEndpoint(boards, e.from, Out, e.payload);
      OffersIffEndpoint(boards, e.to, In, e.payload);
    }
  }

  /** Scripts that use only the ports they were handed satisfy the condition. */
  lemma DslIsSound(name: string, script: seq<Command>, marginNs: u64, headroomThresholdNs: u64, elfOk: string -> bool)
    requires HonestScript(Fresh(name, name), script)
    requires ToDict(name, script, marginNs, headroomThresholdNs).Ok?
    requires var boards := AllBoards(ExecAll(Fresh(name, name), script).value); boards != [] && ElfsOk(boards, elfOk)
    ensures ValidTopology(ToDict(name, script, marginNs, headroomThresholdNs).value, elfOk)
  {
    ExecAllKeeps(Fresh(name, name), script);
    TreeIsFlatGood(ExecAll(Fresh(name, name), script).value);
    ValidIffEndsExist(name, script, marginNs, headroomThresholdNs, elfOk);
  }

  /** Every route of an accepted, honest script climbs one hierarchy level per hop from the
      source's board and descends one per hop to the sink's. */
  lemma RoutesClimb(name: string, script: seq<Command>, e: DirectedEdge)
    requires HonestScript(Fresh(name, name), script) && ExecAll(Fresh(name, name), script).Ok?
    requires e in AllEdges(ExecAll(Fresh(name, name), script).value)
    ensures exists up, down :: UpAndDown(e, up, down)
  {
    ExecAllKeeps(Fresh(name, name), script);
    TreeIsFlatGood(ExecAll(Fresh(name, name), script).value);
  }

  // ---- why honesty is needed ----

  const PORT_X := PortRef([Loc("r/a", "x")], In, UartPayload)
  const PORT_Y := PortRef([Loc("r/b", "y")], In, UartPayload)

  /** Made by hand: claims that `x` is an output. */
  const FORGED_X := PortRef([Loc("r/a", "x")], Out, UartPayload)

  const FORGING_SCRIPT := [
    AddBoard("a", "k", None), AddEndpoint("a", "x", In, UartPayload),
    AddBoard("b", "k", None), AddEndpoint("b", "y", In, UartPayload), Connect(FORGED_X, PORT_Y, None)]

  const BOARD_A := Board("a", "r/a", "k", None, [("x", PORT_X)])
  const BOARD_B := Board("b", "r/b", "k", None, [("y", PORT_Y)])

  lemma ForgingSetup(t0: Topo, t1: Topo, t2: Topo, t3: Topo, t4: Topo)
    requires t0 == Fresh("r", "r") && t1 == t0.(boards := [BOARD_A.(endpoints := [])])
    requires t2 == t0.(boards := [BOARD_A]) && t3 == t0.(boards := [BOARD_A, BOARD_B.(endpoints := [])])
    requires t4 == t0.(boards := [BOARD_A, BOARD_B])
    ensures ExecBoard(t0, "a", "k", None) == Ok(t1) && ExecEndpoint(t1, "a", "x", In, UartPayload) == Ok(t2)
    ensures ExecBoard(t2, "b", "k", None) == Ok(t3) && ExecEndpoint(t3, "b", "y", In, UartPayload) == Ok(t4)
  {
    var a0, b0 := BOARD_A.(endpoints := []), BOARD_B.(endpoints := []);
    assert Under("r", "a") == "r/a" && Under("r", "b") == "r/b";
    assert '/' !in "a" && '/' !in "b";
    assert t0.boards + [a0] == t1.boards && t2.boards + [b0] == t3.boards;
    assert BoardIndex(t1.boards, "a") == Some(0) && BoardIndex(t3.boards, "b") == Some(1);
    assert a0.endpoints + [("x", PORT_X)] == BOARD_A.endpoints && b0.endpoints + [("y", PORT_Y)] == BOARD_B.endpoints;
    assert t1.boards[0 := BOARD_A] == t2.boards && t3.boards[1 := BOARD_B] == t4.boards;
  }

  lemma ForgedIsVisible(t: Topo)
    requires t == Topo("r", "r", [BOARD_A, BOARD_B], [], [], [])
    ensures IsVisible(t, FORGED_X) && IsVisible(t, PORT_Y)
    ensures ExecConnect(t, FORGED_X, PORT_Y, None) == Ok(t.(edges := [MakeEdge(FORGED_X, PORT_Y, None)]))
  {
    assert "r/a"[1..] == "/a" && "/a"[1..] == "a" && LastSegment("/a") == "a" && LastSegment("r/a") == "a";
    assert "r/b"[1..] == "/b" && "/b"[1..] == "b" && LastSegment("/b") == "b" && LastSegment("r/b") == "b";
    assert t.boards[0] == BOARD_A && t.boards[1] == BOARD_B;
    assert BOARD_A.endpoints[0].0 == "x" && BOARD_B.endpoints[0].0 == "y";
    assert BoardShows(t, Loc("r/a", "x")) && BoardShows(t, Loc("r/b", "y"));
    assert Loc("r/a", "x").path != Loc("r/b", "y").path by {
      assert "r/a"[2] != "r/b"[2];
    }
    assert t.edges + [MakeEdge(FORGED_X, PORT_Y, None)] == [MakeEdge(FORGED_X, PORT_Y, None)];
  }

  lemma ForgedRun(root: Topo)
    requires root == Topo("r", "r", [BOARD_A, BOARD_B], [], [], [MakeEdge(FORGED_X, PORT_Y, None)])
    ensures ExecAll(Fresh("r", "r"), FORGING_SCRIPT) == Ok(root)
    ensures AllBoards(root) == [BOARD_A, BOARD_B] && AllEdges(root) == [MakeEdge(FORGED_X, PORT_Y, None)]
  {
    var t0 := Fresh("r", "r");
    var t1, t2 := t0.(boards := [BOARD_A.(endpoints := [])]), t0.(boards := [BOARD_A]);
    var t3, t4 := t0.(boards := [BOARD_A, BOARD_B.(endpoints := [])]), t0.(boards := [BOARD_A, BOARD_B]);
    ForgingSetup(t0, t1, t2, t3, t4);
    ForgedIsVisible(t4);
    ScriptOf5(t0, t1, t2, t3, t4, root, FORGING_SCRIPT);
  }

  lemma NoSuchOutput(boards: seq<BoardSpec>)
    requires boards == [Spec(BOARD_A), Spec(BOARD_B)]
    ensures !HasEndpoint(boards, Loc("r/a", "x"), Out, UartPayload)
  {
    assert Spec(BOARD_A).endpoints == [EndpointSpec("x", In, UartPayload)];
    assert Spec(BOARD_B).endpoints == [EndpointSpec("y", In, UartPayload)];
  }

  /** Visibility looks only at the last hop's name, so a port made by hand can claim a direction
      its endpoint does not have, and the flat topology is then invalid. */
  lemma ForgedPortSlipsThrough(elfOk: string -> bool)
    ensures ToDict("r", FORGING_SCRIPT, 1, 1).Ok?
    ensures !ValidTopology(ToDict("r", FORGING_SCRIPT, 1, 1).value, elfOk)
  {
    var e := MakeEdge(FORGED_X, PORT_Y, None);
    var root := Topo("r", "r", [BOARD_A, BOARD_B], [], [], [e]);
    ForgedRun(root);
    assert '/' !in "r";
    var t := ToDict("r", FORGING_SCRIPT, 1, 1).value;
    assert e in t.edges;
    assert t.boards == [Spec(BOARD_A), Spec(BOARD_B)];
    NoSuchOutput(t.boards);
  }

  lemma ScriptOf5(t0: Topo, t1: Topo, t2: Topo, t3: Topo, t4: Topo, t5: Topo, script: seq<Command>)
    requires |script| == 5
    requires Exec(t0, script[0]) == Ok(t1) && Exec(t1, script[1]) == Ok(t2) && Exec(t2, script[2]) == Ok(t3)
    requires Exec(t3, script[3]) == Ok(t4) && Exec(t4, script[4]) == Ok(t5)
    ensures ExecAll(t0, script) == Ok(t5)
  {
    var s1, s2, s3, s4 := script[1..], script[2..], script[3..], script[4..];
    assert s1[1..] == s2 && s2[1..] == s3 && s3[1..] == s4 && s4[1..] == [];
    assert ExecAll(t4, s4) == Ok(t5);
    assert ExecAll(t3, s3) == Ok(t5);
    assert ExecAll(t2, s2) == Ok(t5);
    assert ExecAll(t1, s1) == Ok(t5);
  }
}
