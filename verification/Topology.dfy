/** The flat topology and its validator (sim-cluster/src/topology.rs). Whether a firmware string
    is acceptable is decided elsewhere (`elfOk`). */
module Topology {
  import opened Prelude

  datatype PayloadKind = UartPayload | DigitalPayload | AnalogPayload

  datatype Direction = In | Out

  datatype EndpointSpec = EndpointSpec(name: string, direction: Direction, payload: PayloadKind)

  datatype BoardSpec = BoardSpec(id: string, kind: string, elf: Option<string>, endpoints: seq<EndpointSpec>)

  /** One hop of a route. */
  datatype Loc = Loc(path: string, port: string)

  datatype DirectedEdge = DirectedEdge(
    from: Loc, to: Loc, route: seq<Loc>, payload: PayloadKind, uartRingLen: Option<nat>)

  datatype LogicalTopology = LogicalTopology(
    boards: seq<BoardSpec>, edges: seq<DirectedEdge>, marginNs: u64, headroomThresholdNs: u64)

  datatype TopologyError =
    | NoBoards
    | EmptyBoardId
    | DuplicateBoardId(id: string)
    | EmptyEndpointName(id: string)
    | DuplicateEndpoint(id: string, name: string)
    | BadElf(id: string)
    | EmptyRoute
    | RouteStart
    | RouteEnd
    | DuplicateEdge(from: Loc, to: Loc)
    | UnknownBoard(path: string)
    | UnknownEndpoint(loc: Loc)
    | SourceNotOut(loc: Loc)
    | SinkNotIn(loc: Loc)
    | PayloadMismatch
    | SameBoard

  // ---- what a valid topology is ----

  ghost predicate DistinctIds(boards: seq<BoardSpec>) {
    forall i, j | 0 <= i < j < |boards| :: boards[i].id != boards[j].id
  }

  ghost predicate DistinctNames(endpoints: seq<EndpointSpec>) {
    forall i, j | 0 <= i < j < |endpoints| :: endpoints[i].name != endpoints[j].name
  }

  ghost predicate ValidBoard(b: BoardSpec, elfOk: string -> bool) {
    b.id != "" && (forall e | e in b.endpoints :: e.name != "") && DistinctNames(b.endpoints) &&
    (b.elf.Some? ==> elfOk(b.elf.value))
  }

  /** Some board has such an endpoint at `loc`. */
  ghost predicate HasEndpoint(boards: seq<BoardSpec>, loc: Loc, direction: Direction, payload: PayloadKind) {
    exists b :: b in boards && b.id == loc.path && EndpointSpec(loc.port, direction, payload) in b.endpoints
  }

  ghost predicate ValidEdge(boards: seq<BoardSpec>, e: DirectedEdge) {
    e.route != [] && e.route[0] == e.from && e.route[|e.route| - 1] == e.to &&
    HasEndpoint(boards, e.from, Out, e.payload) && HasEndpoint(boards, e.to, In, e.payload) &&
    e.from.path != e.to.path
  }

  predicate SameEnds(a: DirectedEdge, b: DirectedEdge) {
    a.from == b.from && a.to == b.to
  }

  ghost predicate DistinctEdges(edges: seq<DirectedEdge>) {
    forall i, j | 0 <= i < j < |edges| :: !SameEnds(edges[i], edges[j])
  }

  ghost predicate ValidTopology(t: LogicalTopology, elfOk: string -> bool) {
    t.boards != [] && DistinctIds(t.boards) && (forall b | b in t.boards :: ValidBoard(b, elfOk)) &&
    DistinctEdges(t.edges) && forall e | e in t.edges :: ValidEdge(t.boards, e)
  }

  // ---- errors are real ----

  ghost predicate RepeatedId(boards: seq<BoardSpec>, id: string) {
    exists i, j :: 0 <= i < j < |boards| && boards[i].id == id && boards[j].id == id
  }

  ghost predicate RepeatedName(b: BoardSpec, name: string) {
    exists i, j :: 0 <= i < j < |b.endpoints| && b.endpoints[i].name == name && b.endpoints[j].name == name
  }

  ghost predicate RepeatedEdge(edges: seq<DirectedEdge>, from: Loc, to: Loc) {
    exists i, j :: 0 <= i < j < |edges| && SameEnds(edges[i], edges[j]) && edges[j].from == from && edges[j].to == to
  }

  /** The endpoint `loc` of the board that bears its path. */
  ghost predicate EndpointIs(boards: seq<BoardSpec>, loc: Loc, e: EndpointSpec) {
    e.name == loc.port && exists b :: b in boards && b.id == loc.path && e in b.endpoints
  }

  /** What an error says about a board of the topology. */
  ghost predicate BoardFault(boards: seq<BoardSpec>, elfOk: string -> bool, error: TopologyError) {
    match error
    case NoBoards => boards == []
    case EmptyBoardId => exists b :: b in boards && b.id == ""
    case DuplicateBoardId(id) => RepeatedId(boards, id)
    case EmptyEndpointName(id) => exists b, e :: b in boards && b.id == id && e in b.endpoints && e.name == ""
    case DuplicateEndpoint(id, name) => exists b :: b in boards && b.id == id && RepeatedName(b, name)
    case BadElf(id) => exists b :: b in boards && b.id == id && b.elf.Some? && !elfOk(b.elf.value)
    case _ => false
  }

  /** What an error says about an edge of the topology. */
  ghost predicate EdgeFault(t: LogicalTopology, e: DirectedEdge, error: TopologyError) {
    match error
    case EmptyRoute => e.route == []
    case RouteStart => e.route != [] && e.route[0] != e.from
    case RouteEnd => e.route != [] && e.route[|e.route| - 1] != e.to
    case DuplicateEdge(from, to) => RepeatedEdge(t.edges, from, to)
    case UnknownBoard(path) => path in {e.from.path, e.to.path} && forall b | b in t.boards :: b.id != path
    case UnknownEndpoint(loc) => loc in {e.from, e.to} && forall s :: !EndpointIs(t.boards, loc, s)
    case SourceNotOut(loc) => loc == e.from && exists s :: EndpointIs(t.boards, loc, s) && s.direction != Out
    case SinkNotIn(loc) => loc == e.to && exists s :: EndpointIs(t.boards, loc, s) && s.direction != In
    case PayloadMismatch =>
      exists s :: (EndpointIs(t.boards, e.from, s) || EndpointIs(t.boards, e.to, s)) && s.payload != e.payload
    case SameBoard => e.from.path == e.to.path
    case _ => false
  }

  // ---- the validator ----

  /** `boards.iter().find`. */
  method FindBoard(boards: seq<BoardSpec>, path: string) returns (found: Option<BoardSpec>)
    requires DistinctIds(boards)
    ensures found.None? ==> forall b | b in boards :: b.id != path
    ensures found.Some? ==> found.value in boards && found.value.id == path
    ensures found.Some? ==> forall b | b in boards && b.id == path :: b == found.value
  {
    var i := 0;
    while i < |boards|
      invariant 0 <= i <= |boards|
      invariant forall j | 0 <= j < i :: boards[j].id != path
    {
      if boards[i].id == path {
        forall b | b in boards && b.id == path ensures b == boards[i] {
          var j :| 0 <= j < |boards| && boards[j] == b;
        }
        return Some(boards[i]);
      }
      i := i + 1;
    }
    found := None;
  }

  method FindEndpoint(endpoints: seq<EndpointSpec>, name: string) returns (found: Option<EndpointSpec>)
    requires DistinctNames(endpoints)
    ensures found.None? ==> forall e | e in endpoints :: e.name != name
    ensures found.Some? ==> found.value in endpoints && found.value.name == name
    ensures found.Some? ==> forall e | e in endpoints && e.name == name :: e == found.value
  {
    var i := 0;
    while i < |endpoints|
      invariant 0 <= i <= |endpoints|
      invariant forall j | 0 <= j < i :: endpoints[j].name != name
    {
      if endpoints[i].name == name {
        forall e | e in endpoints && e.name == name ensures e == endpoints[i] {
          var j :| 0 <= j < |endpoints| && endpoints[j] == e;
        }
        return Some(endpoints[i]);
      }
      i := i + 1;
    }
    found := None;
  }

  method CheckEndpoints(b: BoardSpec) returns (error: Option<TopologyError>)
    ensures error.None? <==> (forall e | e in b.endpoints :: e.name != "") && DistinctNames(b.endpoints)
    ensures error.Some? ==> match error.value
                            case EmptyEndpointName(id) => id == b.id && exists e :: e in b.endpoints && e.name == ""
                            case DuplicateEndpoint(id, name) => id == b.id && RepeatedName(b, name)
                            case _ => false
  {
    var names: set<string> := {};
    var i := 0;
    while i < |b.endpoints|
      invariant 0 <= i <= |b.endpoints|
      invariant forall n :: n in names <==> exists j :: 0 <= j < i && b.endpoints[j].name == n
      invariant forall j | 0 <= j < i :: b.endpoints[j].name != ""
      invariant DistinctNames(b.endpoints[..i])
    {
      var name := b.endpoints[i].name;
      if name == "" {
        assert b.endpoints[i] in b.endpoints;
        return Some(EmptyEndpointName(b.id));
      }
      if name in names {
        var j :| 0 <= j < i && b.endpoints[j].name == name;
        assert RepeatedName(b, name);
        return Some(DuplicateEndpoint(b.id, name));
      }
      names := names + {name};
      i := i + 1;
    }
    assert b.endpoints[..i] == b.endpoints;
    error := None;
  }

  method CheckBoards(boards: seq<BoardSpec>, elfOk: string -> bool) returns (error: Option<TopologyError>)
    ensures error.None? <==> DistinctIds(boards) && forall b | b in boards :: ValidBoard(b, elfOk)
    ensures error.Some? ==> BoardFault(boards, elfOk, error.value)
  {
    var ids: set<string> := {};
    var i := 0;
    while i < |boards|
      invariant 0 <= i <= |boards|
      invariant forall n :: n in ids <==> exists j :: 0 <= j < i && boards[j].id == n
      invariant forall j | 0 <= j < i :: ValidBoard(boards[j], elfOk)
      invariant DistinctIds(boards[..i])
    {
      var board := boards[i];
      assert board in boards;
      if board.id == "" {
        return Some(EmptyBoardId);
      }
      if board.id in ids {
        var j :| 0 <= j < i && boards[j].id == board.id;
        assert RepeatedId(boards, board.id);
        return Some(DuplicateBoardId(board.id));
      }
      ids := ids + {board.id};
      error := CheckEndpoints(board);
      if error.Some? {
        return;
      }
      if board.elf.Some? && !elfOk(board.elf.value) {
        return Some(BadElf(board.id));
      }
      i := i + 1;
    }
    assert boards[..i] == boards;
    error := None;
  }

  /** One endpoint of an edge: it exists, faces the right way and carries the payload. */
  method CheckEnds(boards: seq<BoardSpec>, e: DirectedEdge) returns (error: Option<TopologyError>)
    requires DistinctIds(boards) && forall b | b in boards :: DistinctNames(b.endpoints)
    ensures error.None? <==>
            HasEndpoint(boards, e.from, Out, e.payload) && HasEndpoint(boards, e.to, In, e.payload) &&
                e.from.path != e.to.path
    ensures error.Some? ==> EdgeFault(LogicalTopology(boards, [e], 0, 0), e, error.value) && !error.value.DuplicateEdge?
  {
    var from := FindBoard(boards, e.from.path);
    if from.None? {
      return Some(UnknownBoard(e.from.path));
    }
    var to := FindBoard(boards, e.to.path);
    if to.None? {
      return Some(UnknownBoard(e.to.path));
    }
    var fromEp := FindEndpoint(from.value.endpoints, e.from.port);
    if fromEp.None? {
      return Some(UnknownEndpoint(e.from));
    }
    var toEp := FindEndpoint(to.value.endpoints, e.to.port);
    if toEp.None? {
      return Some(UnknownEndpoint(e.to));
    }
    assert EndpointIs(boards, e.from, fromEp.value) && EndpointIs(boards, e.to, toEp.value);
    if fromEp.value.direction != Out {
      return Some(SourceNotOut(e.from));
    }
    if toEp.value.direction != In {
      return Some(SinkNotIn(e.to));
    }
    if fromEp.value.payload != e.payload || toEp.value.payload != e.payload {
      return Some(PayloadMismatch);
    }
    if e.from.path == e.to.path {
      return Some(SameBoard);
    }
    assert fromEp.value == EndpointSpec(e.from.port, Out, e.payload);
    assert toEp.value == EndpointSpec(e.to.port, In, e.payload);
    error := None;
  }

  method CheckEdge(boards: seq<BoardSpec>, e: DirectedEdge, known: set<(Loc, Loc)>)
    returns (error: Option<TopologyError>)
    requires DistinctIds(boards) && forall b | b in boards :: DistinctNames(b.endpoints)
    ensures error.None? <==> ValidEdge(boards, e) && (e.from, e.to) !in known
    ensures error.Some? ==>
              if error.value.DuplicateEdge? then (e.from, e.to) in known && error.value == DuplicateEdge(e.from, e.to)
              else EdgeFault(LogicalTopology(boards, [e], 0, 0), e, error.value)
  {
    if e.route == [] {
      return Some(EmptyRoute);
    }
    if e.route[0] != e.from {
      return Some(RouteStart);
    }
    if e.route[|e.route| - 1] != e.to {
      return Some(RouteEnd);
    }
    if (e.from, e.to) in known {
      return Some(DuplicateEdge(e.from, e.to));
    }
    error := CheckEnds(boards, e);
  }

  lemma FaultIsOfTopology(t: LogicalTopology, e: DirectedEdge, error: TopologyError)
    requires EdgeFault(LogicalTopology(t.boards, [e], 0, 0), e, error) && !error.DuplicateEdge?
    ensures EdgeFault(t, e, error)
  {
  }

  lemma DuplicateIsFault(t: LogicalTopology, j: nat, i: nat)
    requires j < i < |t.edges| && SameEnds(t.edges[j], t.edges[i])
    ensures EdgeFault(t, t.edges[i], DuplicateEdge(t.edges[i].from, t.edges[i].to))
    ensures !DistinctEdges(t.edges)
  {
  }

  /** An edge with new ends extends a prefix of distinct edges. */
  lemma MoreDistinct(edges: seq<DirectedEdge>, i: nat)
    requires i < |edges| && DistinctEdges(edges[..i])
    requires forall j | 0 <= j < i :: !SameEnds(edges[j], edges[i])
    ensures DistinctEdges(edges[..i + 1])
  {
  }

  method CheckEdges(t: LogicalTopology) returns (error: Option<TopologyError>, ghost culprit: nat)
    requires DistinctIds(t.boards) && forall b | b in t.boards :: DistinctNames(b.endpoints)
    ensures error.None? <==> DistinctEdges(t.edges) && forall e | e in t.edges :: ValidEdge(t.boards, e)
    ensures error.Some? ==> culprit < |t.edges| && EdgeFault(t, t.edges[culprit], error.value)
  {
    var keys: set<(Loc, Loc)> := {};
    var i := 0;
    while i < |t.edges|
      invariant 0 <= i <= |t.edges|
      invariant forall k :: k in keys <==> exists j :: 0 <= j < i && (t.edges[j].from, t.edges[j].to) == k
      invariant forall j | 0 <= j < i :: ValidEdge(t.boards, t.edges[j])
      invariant DistinctEdges(t.edges[..i])
    {
      var e := t.edges[i];
      error := CheckEdge(t.boards, e, keys);
      if error.Some? {
        assert e in t.edges;
        if error.value.DuplicateEdge? {
          var j :| 0 <= j < i && (t.edges[j].from, t.edges[j].to) == (e.from, e.to);
          DuplicateIsFault(t, j, i);
        } else {
          FaultIsOfTopology(t, e, error.value);
        }
        return error, i;
      }
      forall j | 0 <= j < i ensures !SameEnds(t.edges[j], e) {
        assert (t.edges[j].from, t.edges[j].to) in keys;
      }
      MoreDistinct(t.edges, i);
      keys := keys + {(e.from, e.to)};
      i := i + 1;
    }
    assert t.edges[..i] == t.edges;
    error, culprit := None, 0;
  }

  /** `validate` accepts exactly the valid topologies, and the error it reports otherwise is
      true of the topology. */
  method Validate(t: LogicalTopology, elfOk: string -> bool) returns (error: Option<TopologyError>)
    ensures error.None? <==> ValidTopology(t, elfOk)
    ensures error.Some? ==> BoardFault(t.boards, elfOk, error.value) ||
                            exists e :: e in t.edges && EdgeFault(t, e, error.value)
  {
    if t.boards == [] {
      return Some(NoBoards);
    }
    error := CheckBoards(t.boards, elfOk);
    if error.Some? {
      return;
    }
    ghost var culprit;
    error, culprit := CheckEdges(t);
    if error.Some? {
      assert t.edges[culprit] in t.edges;
    }
  }
}
