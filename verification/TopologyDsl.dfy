/** The hierarchical topology language (python/topology_dsl/__init__.py): topologies built by
    scripts, and their collection into one flat topology. A script is the sequence of calls a
    `build` method makes; an error ends it. */
module TopologyDsl {
  import opened Prelude
  import opened Topology

  /** A port as scripts hold it: the hops from the leaf endpoint up, innermost first. */
  datatype PortRef = PortRef(chain: seq<Loc>, direction: Direction, payload: PayloadKind)

  datatype Board = Board(
    local: string, path: string, kind: string, elf: Option<string>, endpoints: seq<(string, PortRef)>)

  datatype Topo = Topo(
    name: string,
    path: string,
    boards: seq<Board>,
    children: seq<Topo>,
    exports: seq<(string, PortRef)>,
    edges: seq<DirectedEdge>)

  datatype Command =
    | AddBoard(local: string, kind: string, elf: Option<string>)
    | AddEndpoint(local: string, name: string, direction: Direction, payload: PayloadKind)
    | AddChild(childName: string, script: seq<Command>)
    | Export(exportName: string, ref: PortRef)
    | Connect(src: PortRef, dst: PortRef, uartRingLen: Option<nat>)

  datatype DslError =
    | EmptyName
    | SlashInName
    | NameTaken
    | NoSuchBoard
    | DuplicatePort
    | NotVisible
    | SourceMustBeOut
    | SinkMustBeIn
    | PayloadsDiffer
    | SameLeafBoard
    | DuplicateConnect
    | NotBuilding

  // ---- dictionaries in insertion order ----

  predicate HasKey(s: seq<(string, PortRef)>, key: string) {
    exists i | 0 <= i < |s| :: s[i].0 == key
  }

  predicate HasBoard(boards: seq<Board>, local: string) {
    exists i | 0 <= i < |boards| :: boards[i].local == local
  }

  predicate HasChild(children: seq<Topo>, name: string) {
    exists i | 0 <= i < |children| :: children[i].name == name
  }

  // ---- names and paths ----

  predicate Named(name: string) {
    name != "" && '/' !in name
  }

  function Under(path: string, name: string): string {
    path + "/" + name
  }

  function Fresh(name: string, path: string): Topo {
    Topo(name, path, [], [], [], [])
  }

  // ---- building ----

  /** `rsplit("/", 1)[-1]`. */
  function LastSegment(s: string): string
    decreases |s|
  {
    if '/' !in s then s else LastSegment(s[1..])
  }

  predicate BoardShows(t: Topo, last: Loc) {
    exists i | 0 <= i < |t.boards| ::
      t.boards[i].local == LastSegment(last.path) && t.boards[i].path == last.path &&
      HasKey(t.boards[i].endpoints, last.port)
  }

  predicate ChildShows(t: Topo, last: Loc) {
    exists i | 0 <= i < |t.children| ::
      t.children[i].path == last.path && HasKey(t.children[i].exports, last.port)
  }

  /** `_is_visible`: only the last hop is looked at. */
  predicate IsVisible(t: Topo, ref: PortRef) {
    ref.chain != [] &&
    ((|ref.chain| == 1 && BoardShows(t, ref.chain[0])) || ChildShows(t, ref.chain[|ref.chain| - 1]))
  }

  function Reverse(s: seq<Loc>): (r: seq<Loc>)
    ensures |r| == |s| && forall i | 0 <= i < |s| :: r[i] == s[|s| - 1 - i]
  {
    if s == [] then [] else Reverse(s[1..]) + [s[0]]
  }

  function MakeEdge(src: PortRef, dst: PortRef, uartRingLen: Option<nat>): DirectedEdge
    requires src.chain != [] && dst.chain != []
  {
    DirectedEdge(src.chain[0], dst.chain[0], src.chain + Reverse(dst.chain), src.payload, uartRingLen)
  }

  function ExecConnect(t: Topo, src: PortRef, dst: PortRef, uartRingLen: Option<nat>): Result<Topo, DslError> {
    if !IsVisible(t, src) || !IsVisible(t, dst) then Err(NotVisible)
    else if src.direction != Out then Err(SourceMustBeOut)
    else if dst.direction != In then Err(SinkMustBeIn)
    else if src.payload != dst.payload then Err(PayloadsDiffer)
    else if src.chain[0].path == dst.chain[0].path then Err(SameLeafBoard)
    else
      var edge := MakeEdge(src, dst, uartRingLen);
      if exists i | 0 <= i < |t.edges| :: SameEnds(t.edges[i], edge) then Err(DuplicateConnect)
      else Ok(t.(edges := t.edges + [edge]))
  }

  function ExecExport(t: Topo, name: string, ref: PortRef): Result<Topo, DslError> {
    if name == "" then Err(EmptyName)
    else if HasKey(t.exports, name) then Err(DuplicatePort)
    else if !IsVisible(t, ref) then Err(NotVisible)
    else Ok(t.(exports := t.exports + [(name, ref.(chain := ref.chain + [Loc(t.path, name)]))]))
  }

  function ExecBoard(t: Topo, local: string, kind: string, elf: Option<string>): Result<Topo, DslError> {
    if local == "" then Err(EmptyName)
    else if '/' in local then Err(SlashInName)
    else if HasBoard(t.boards, local) || HasChild(t.children, local) then Err(NameTaken)
    else Ok(t.(boards := t.boards + [Board(local, Under(t.path, local), kind, elf, [])]))
  }

  function WithEndpoint(b: Board, name: string, direction: Direction, payload: PayloadKind): Board {
    b.(endpoints := b.endpoints + [(name, PortRef([Loc(b.path, name)], direction, payload))])
  }

  function BoardIndex(boards: seq<Board>, local: string): (r: Option<nat>)
    ensures r.Some? ==> r.value < |boards| && boards[r.value].local == local
  {
    if boards == [] then None
    else if boards[|boards| - 1].local == local then Some(|boards| - 1)
    else BoardIndex(boards[..|boards| - 1], local)
  }

  function ExecEndpoint(t: Topo, local: string, name: string, direction: Direction,
                        payload: PayloadKind): Result<Topo, DslError> {
    match BoardIndex(t.boards, local)
    case None => Err(NoSuchBoard)
    case Some(i) =>
      if name == "" then Err(EmptyName)
      else if HasKey(t.boards[i].endpoints, name) then Err(DuplicatePort)
      else Ok(t.(boards := t.boards[i := WithEndpoint(t.boards[i], name, direction, payload)]))
  }

  /** `_add_child` of a topology with this name and these `build` calls. */
  function ExecChild(t: Topo, name: string, script: seq<Command>): Result<Topo, DslError>
    decreases script, 1
  {
    if name == "" then Err(EmptyName)
    else if '/' in name then Err(SlashInName)
    else if HasChild(t.children, name) || HasBoard(t.boards, name) then Err(NameTaken)
    else
      match ExecAll(Fresh(name, Under(t.path, name)), script)
      case Err(e) => Err(e)
      case Ok(child) => Ok(t.(children := t.children + [child]))
  }

  function Exec(t: Topo, c: Command): Result<Topo, DslError>
    decreases c, 2
  {
    match c
    case AddBoard(local, kind, elf) => ExecBoard(t, local, kind, elf)
    case AddEndpoint(local, name, direction, payload) => ExecEndpoint(t, local, name, direction, payload)
    case AddChild(name, script) => ExecChild(t, name, script)
    case Export(name, ref) => ExecExport(t, name, ref)
    case Connect(src, dst, ring) => ExecConnect(t, src, dst, ring)
  }

  function ExecAll(t: Topo, script: seq<Command>): Result<Topo, DslError>
    decreases script, 0
  {
    if script == [] then Ok(t)
    else
      match Exec(t, script[0])
      case Err(e) => Err(e)
      case Ok(next) => ExecAll(next, script[1..])
  }

  // ---- collection ----

  function EndpointSpecs(endpoints: seq<(string, PortRef)>): (r: seq<EndpointSpec>)
    ensures |r| == |endpoints|
    ensures forall i | 0 <= i < |r| ::
            r[i] == EndpointSpec(endpoints[i].0, endpoints[i].1.direction, endpoints[i].1.payload)
  {
    seq(|endpoints|, i requires 0 <= i < |endpoints| =>
      EndpointSpec(endpoints[i].0, endpoints[i].1.direction, endpoints[i].1.payload))
  }

  function Spec(b: Board): BoardSpec {
    BoardSpec(b.path, b.kind, b.elf, EndpointSpecs(b.endpoints))
  }

  function Specs(boards: seq<Board>): (r: seq<BoardSpec>)
    ensures |r| == |boards| && forall i | 0 <= i < |r| :: r[i] == Spec(boards[i])
  {
    seq(|boards|, i requires 0 <= i < |boards| => Spec(boards[i]))
  }

  function AllBoards(t: Topo): seq<Board>
    decreases t, 1
  {
    match t
    case Topo(_, _, boards, children, _, _) => boards + ChildBoards(children)
  }

  function ChildBoards(children: seq<Topo>): seq<Board>
    decreases children, 0
  {
    if children == [] then [] else AllBoards(children[0]) + ChildBoards(children[1..])
  }

  function AllEdges(t: Topo): seq<DirectedEdge>
    decreases t, 1
  {
    match t
    case Topo(_, _, _, children, _, edges) => edges + ChildEdges(children)
  }

  function ChildEdges(children: seq<Topo>): seq<DirectedEdge>
    decreases children, 0
  {
    if children == [] then [] else AllEdges(children[0]) + ChildEdges(children[1..])
  }

  /** `SimulationConfig.to_dict`. */
  ghost function ToDict(name: string, script: seq<Command>, marginNs: u64,
                        headroomThresholdNs: u64): Result<LogicalTopology, DslError> {
    if name == "" then Err(EmptyName)
    else if '/' in name then Err(SlashInName)
    else
      match ExecAll(Fresh(name, name), script)
      case Err(e) => Err(e)
      case Ok(root) =>
        if DistinctEdges(AllEdges(root))
        then Ok(LogicalTopology(Specs(AllBoards(root)), AllEdges(root), marginNs, headroomThresholdNs))
        else Err(DuplicateConnect)
  }

  lemma ChildEdgesStep(children: seq<Topo>, i: nat)
    requires i < |children|
    ensures ChildEdges(children[..i + 1]) == ChildEdges(children[..i]) + AllEdges(children[i])
    ensures ChildBoards(children[..i + 1]) == ChildBoards(children[..i]) + AllBoards(children[i])
  {
    if i == 0 {
      assert children[..1][1..] == [];
    } else {
      ChildEdgesStep(children[1..], i - 1);
      assert children[..i + 1][1..] == children[1..][..i] && children[..i][1..] == children[1..][..i - 1];
    }
  }

  /** `collect_boards` and `collect_edges`: own entries, then those of the children in turn. */
  method Collect(t: Topo) returns (boards: seq<Board>, edges: seq<DirectedEdge>)
    ensures boards == AllBoards(t) && edges == AllEdges(t)
    decreases t
  {
    match t
    case Topo(_, _, own, children, _, ownEdges) =>
      boards, edges := own, ownEdges;
      var i := 0;
      while i < |children|
        invariant 0 <= i <= |children|
        invariant boards == own + ChildBoards(children[..i]) && edges == ownEdges + ChildEdges(children[..i])
      {
        var b, e := Collect(children[i]);
        ChildEdgesStep(children, i);
        boards, edges := boards + b, edges + e;
        i := i + 1;
      }
      assert children[..i] == children;
  }

  /** `_reject_duplicate_edges`. */
  method RejectDuplicateEdges(edges: seq<DirectedEdge>) returns (ok: bool)
    ensures ok <==> DistinctEdges(edges)
  {
    var seen: set<(Loc, Loc)> := {};
    var i := 0;
    while i < |edges|
      invariant 0 <= i <= |edges|
      invariant forall k :: k in seen <==> exists j :: 0 <= j < i && (edges[j].from, edges[j].to) == k
      invariant DistinctEdges(edges[..i])
    {
      var key := (edges[i].from, edges[i].to);
      if key in seen {
        var j :| 0 <= j < i && (edges[j].from, edges[j].to) == key;
        assert SameEnds(edges[j], edges[i]);
        return false;
      }
      forall j | 0 <= j < i ensures !SameEnds(edges[j], edges[i]) {
        assert (edges[j].from, edges[j].to) in seen;
      }
      MoreDistinct(edges, i);
      seen := seen + {key};
      i := i + 1;
    }
    assert edges[..i] == edges;
    ok := true;
  }

  /** A topology under construction. */
  class TopologyBuilder {
    const name: string
    const path: string
    var boards: seq<Board>
    var children: seq<Topo>
    var exports: seq<(string, PortRef)>
    var edges: seq<DirectedEdge>
    var building: bool

    ghost function View(): Topo
      reads this
    {
      Topo(name, path, boards, children, exports, edges)
    }

    constructor (name: string, path: string)
      ensures View() == Fresh(name, path) && !building
    {
      this.name, this.path := name, path;
      boards, children, exports, edges, building := [], [], [], [], false;
    }

    method DeclareBoard(local: string, kind: string, elf: Option<string>) returns (error: Option<DslError>)
      modifies this
      ensures building == old(building) && (!building ==> error == Some(NotBuilding) && View() == old(View()))
      ensures building ==> match ExecBoard(old(View()), local, kind, elf)
                           case Ok(t) => error == None && View() == t
                           case Err(e) => error == Some(e) && View() == old(View())
    {
      if !building {
        return Some(NotBuilding);
      }
      if local == "" {
        return Some(EmptyName);
      }
      if '/' in local {
        return Some(SlashInName);
      }
      if HasBoard(boards, local) || HasChild(children, local) {
        return Some(NameTaken);
      }
      boards := boards + [Board(local, Under(path, local), kind, elf, [])];
      error := None;
    }

    /** `Board.endpoint`, called on the board with this local name. */
    method Endpoint(local: string, name: string, direction: Direction, payload: PayloadKind)
        returns (error: Option<DslError>)
      modifies this
      ensures building == old(building)
      ensures match ExecEndpoint(old(View()), local, name, direction, payload)
              case Ok(t) => error == None && View() == t
              case Err(e) => error == Some(e) && View() == old(View())
    {
      var i := BoardIndex(boards, local);
      if i.None? {
        return Some(NoSuchBoard);
      }
      if name == "" {
        return Some(EmptyName);
      }
      var board := boards[i.value];
      if HasKey(board.endpoints, name) {
        return Some(DuplicatePort);
      }
      boards := boards[i.value := WithEndpoint(board, name, direction, payload)];
      error := None;
    }

    method ExportPort(name: string, ref: PortRef) returns (error: Option<DslError>)
      modifies this
      ensures building == old(building) && (!building ==> error == Some(NotBuilding) && View() == old(View()))
      ensures building ==> match ExecExport(old(View()), name, ref)
                           case Ok(t) => error == None && View() == t
                           case Err(e) => error == Some(e) && View() == old(View())
    {
      if !building {
        return Some(NotBuilding);
      }
      if name == "" {
        return Some(EmptyName);
      }
      if HasKey(exports, name) {
        return Some(DuplicatePort);
      }
      if !IsVisible(Topo(this.name, path, boards, children, exports, edges), ref) {
        return Some(NotVisible);
      }
      exports := exports + [(name, ref.(chain := ref.chain + [Loc(path, name)]))];
      error := None;
    }

    method ConnectPorts(src: PortRef, dst: PortRef, ring: Option<nat>) returns (error: Option<DslError>)
      modifies this
      ensures building == old(building) && (!building ==> error == Some(NotBuilding) && View() == old(View()))
      ensures building ==> match ExecConnect(old(View()), src, dst, ring)
                           case Ok(t) => error == None && View() == t
                           case Err(e) => error == Some(e) && View() == old(View())
    {
      if !building {
        return Some(NotBuilding);
      }
      var here := Topo(name, path, boards, children, exports, edges);
      if !IsVisible(here, src) || !IsVisible(here, dst) {
        return Some(NotVisible);
      }
      if src.direction != Out {
        return Some(SourceMustBeOut);
      }
      if dst.direction != In {
        return Some(SinkMustBeIn);
      }
      if src.payload != dst.payload {
        return Some(PayloadsDiffer);
      }
      if src.chain[0].path == dst.chain[0].path {
        return Some(SameLeafBoard);
      }
      var edge := MakeEdge(src, dst, ring);
      var i := 0;
      while i < |edges|
        invariant 0 <= i <= |edges| && edges == old(edges) && building && View() == old(View())
        invariant forall j | 0 <= j < i :: !SameEnds(edges[j], edge)
      {
        if edges[i].from == src.chain[0] && edges[i].to == dst.chain[0] {
          assert SameEnds(edges[i], edge);
          return Some(DuplicateConnect);
        }
        i := i + 1;
      }
      edges := edges + [edge];
      error := None;
    }

    /** `_add_child`: the child is attached under this path and built by its own script. */
    method AddChildTopology(childName: string, script: seq<Command>) returns (error: Option<DslError>)
      modifies this
      ensures building == old(building) && (!building ==> error == Some(NotBuilding) && View() == old(View()))
      ensures building ==> match ExecChild(old(View()), childName, script)
                           case Ok(t) => error == None && View() == t
                           case Err(e) => error == Some(e)
      decreases script, 1
    {
      if !building {
        return Some(NotBuilding);
      }
      if childName == "" {
        return Some(EmptyName);
      }
      if '/' in childName {
        return Some(SlashInName);
      }
      if HasChild(children, childName) || HasBoard(boards, childName) {
        return Some(NameTaken);
      }
      var child := new TopologyBuilder(childName, Under(path, childName));
      error := child.RunBuild(script);
      if error.Some? {
        return;
      }
      children := children + [Topo(child.name, child.path, child.boards, child.children, child.exports, child.edges)];
    }

    /** `run_build`: the calls of `build` in order, up to the first error. */
    method RunBuild(script: seq<Command>) returns (error: Option<DslError>)
      requires !building
      modifies this
      ensures !building
      ensures match ExecAll(old(View()), script)
              case Ok(t) => error == None && View() == t
              case Err(e) => error == Some(e)
      decreases script, 0
    {
      building := true;
      var i := 0;
      error := None;
      while i < |script|
        invariant 0 <= i <= |script| && building && error == None
        invariant ExecAll(old(View()), script) == ExecAll(View(), script[i..])
      {
        assert script[i..][1..] == script[i + 1..];
        match script[i] {
          case AddBoard(local, kind, elf) => error := DeclareBoard(local, kind, elf);
          case AddEndpoint(local, port, direction, payload) => error := Endpoint(local, port, direction, payload);
          case AddChild(childName, inner) => error := AddChildTopology(childName, inner);
          case Export(port, ref) => error := ExportPort(port, ref);
          case Connect(src, dst, ring) => error := ConnectPorts(src, dst, ring);
        }
        if error.Some? {
          building := false;
          return;
        }
        i := i + 1;
      }
      building := false;
    }
  }

  /** `SimulationConfig.to_dict`. */
  method BuildFlat(name: string, script: seq<Command>, marginNs: u64, headroomThresholdNs: u64)
      returns (r: Result<LogicalTopology, DslError>)
    ensures r == ToDict(name, script, marginNs, headroomThresholdNs)
  {
    if name == "" {
      return Err(EmptyName);
    }
    if '/' in name {
      return Err(SlashInName);
    }
    var root := new TopologyBuilder(name, name);
    var error := root.RunBuild(script);
    if error.Some? {
      return Err(error.value);
    }
    var boards, edges := Collect(Topo(root.name, root.path, root.boards, root.children, root.exports, root.edges));
    var ok := RejectDuplicateEdges(edges);
    if !ok {
      return Err(DuplicateConnect);
    }
    r := Ok(LogicalTopology(Specs(boards), edges, marginNs, headroomThresholdNs));
  }
}
