/** The chunked export of probe samples (sim-cluster/src/probe.rs, sim-cluster/src/server.rs): a
    request to several boards, their replies in chunks, and the job that collects them. Queries
    and replies travel in one first-in first-out queue per board, without loss. */
module CsvExport {
  import opened Prelude
  import opened SpillFile
  import Control

  type BoardId = Control.BoardId

  const QUERY_CHUNK := 32
  const CSV_CHUNKS_PER_TICK := 4

  datatype Chunk = Chunk(requestId: nat, records: seq<Record>, last: bool, truncated: bool)

  datatype CsvSend = CsvSend(requestId: nat, records: seq<Record>, offset: nat, truncated: bool)

  /** A board: the requests that wait for it, the export it is sending, and its replies on their
      way. */
  datatype Node = Node(queries: seq<nat>, out: Option<CsvSend>, replies: seq<Chunk>)

  datatype Job = Job(
    requestId: nat,
    expected: set<BoardId>,
    pending: seq<Record>,
    truncated: bool,
    failed: bool,
    done: bool)

  datatype CsvPoll = CsvPoll(records: seq<Record>, done: bool, failed: bool, truncated: bool)

  // ---- a node ----

  /** The receive loop of `service_csv`: the first request starts an export if none is being
      sent; every other one is dropped. `records` is what the log holds in the range asked for. */
  function TakeQueries(n: Node, records: seq<Record>, truncated: bool): Node {
    if n.queries == [] then n
    else
      n.(queries := [],
         out := if n.out.None? then Some(CsvSend(n.queries[0], records, 0, truncated)) else n.out)
  }

  function ChunkEnd(out: CsvSend): nat {
    if out.offset + QUERY_CHUNK < |out.records| then out.offset + QUERY_CHUNK else |out.records|
  }

  predicate Sendable(n: Node) {
    n.out.Some? ==> n.out.value.offset <= |n.out.value.records|
  }

  function SendOne(n: Node): (r: Node)
    requires Sendable(n) && n.out.Some?
    ensures Sendable(r)
  {
    var out := n.out.value;
    var end := ChunkEnd(out);
    var last := end == |out.records|;
    n.(out := if last then None else Some(out.(offset := end)),
       replies := n.replies + [Chunk(out.requestId, out.records[out.offset..end], last, out.truncated)])
  }

  /** Up to `k` chunks of `send_csv_tick`. */
  function SendTick(n: Node, k: nat): (r: Node)
    requires Sendable(n)
    ensures Sendable(r)
    decreases k
  {
    if k == 0 || n.out.None? then n else SendTick(SendOne(n), k - 1)
  }

  function Service(n: Node, records: seq<Record>, truncated: bool): (r: Node)
    requires Sendable(n)
    ensures Sendable(r)
  {
    SendTick(TakeQueries(n, records, truncated), CSV_CHUNKS_PER_TICK)
  }

  // ---- the collecting job ----

  /** One reply of `ingest_csv_replies`. */
  function Ingest(job: Job, from: BoardId, reply: Chunk): Job {
    if reply.requestId != job.requestId then job
    else
      job.(pending := job.pending + reply.records,
           truncated := job.truncated || reply.truncated,
           expected := if reply.last then job.expected - {from} else job.expected)
  }

  /** The end of `ingest_csv_replies`. */
  function Conclude(job: Job, expired: bool): Job {
    if job.expected == {} then job.(done := true)
    else if expired then job.(failed := true, done := true)
    else job
  }

  // ---- the whole export ----

  datatype Tagged = Tagged(board: BoardId, record: Record)

  /** Boards, server, and what the client has got of the current job. `asked`, `answers` and
      `tagged` record which boards were asked, what each found in its log when it began, and
      where each collected record came from. */
  datatype Export = Export(
    nodes: map<BoardId, Node>,
    nextRequestId: nat,
    job: Option<Job>,
    delivered: seq<Record>,
    asked: set<BoardId>,
    answers: map<BoardId, seq<Record>>,
    tagged: seq<Tagged>)

  datatype Action =
    | Start(boards: set<BoardId>, expired: bool)
    | StartAborted(reached: set<BoardId>)
    | OtherRequest
    | ServiceNode(board: BoardId, records: seq<Record>, truncated: bool)
    | Receive(board: BoardId)
    | Check(expired: bool)
    | TransportError
    | PollJob

  predicate Busy(e: Export, expired: bool) {
    e.job.Some? && !e.job.value.done && !expired
  }

  /** Send request `id` to each of `boards`. */
  function Ask(nodes: map<BoardId, Node>, boards: set<BoardId>, id: nat): map<BoardId, Node> {
    map b | b in nodes :: if b in boards then nodes[b].(queries := nodes[b].queries + [id]) else nodes[b]
  }

  predicate Enabled(e: Export, a: Action) {
    match a
    case Start(boards, expired) => !Busy(e, expired) && boards <= e.nodes.Keys
    case ServiceNode(b, _, _) => b in e.nodes && Sendable(e.nodes[b])
    case Receive(b) => e.job.Some? && !e.job.value.done && b in e.nodes && e.nodes[b].replies != []
    case Check(_) => e.job.Some? && !e.job.value.done
    case TransportError => e.job.Some? && !e.job.value.done
    case PollJob => e.job.Some?
    case _ => true
  }

  function TagAll(b: BoardId, records: seq<Record>): (r: seq<Tagged>)
    ensures |r| == |records| && forall i | 0 <= i < |r| :: r[i] == Tagged(b, records[i])
  {
    seq(|records|, i requires 0 <= i < |records| => Tagged(b, records[i]))
  }

  function Apply(e: Export, a: Action): Export
    requires Enabled(e, a)
  {
    match a
    case Start(boards, _) =>
      Export(Ask(e.nodes, boards, e.nextRequestId), e.nextRequestId + 1,
             Some(Job(e.nextRequestId, boards, [], false, false, boards == {})),
             [], boards, map[], [])
    case StartAborted(reached) =>
      e.(nodes := Ask(e.nodes, reached, e.nextRequestId), nextRequestId := e.nextRequestId + 1)
    case OtherRequest => e.(nextRequestId := e.nextRequestId + 1)
    case ServiceNode(b, records, truncated) =>
      var n := e.nodes[b];
      var begins := n.queries != [] && n.out.None? && e.job.Some? && n.queries[0] == e.job.value.requestId;
      e.(nodes := e.nodes[b := Service(n, records, truncated)],
         answers := if begins then e.answers[b := records] else e.answers)
    case Receive(b) =>
      var n := e.nodes[b];
      var reply := n.replies[0];
      e.(nodes := e.nodes[b := n.(replies := n.replies[1..])],
         job := Some(Ingest(e.job.value, b, reply)),
         tagged := if reply.requestId == e.job.value.requestId then e.tagged + TagAll(b, reply.records) else e.tagged)
    case Check(expired) => e.(job := Some(Conclude(e.job.value, expired)))
    case TransportError => e.(job := Some(e.job.value.(failed := true, done := true)))
    case PollJob =>
      e.(job := Some(e.job.value.(pending := [])), delivered := e.delivered + e.job.value.pending)
  }

  function Fresh(boards: set<BoardId>): Export {
    Export(map b | b in boards :: Node([], None, []), 0, None, [], {}, map[], [])
  }

  predicate Possible(boards: set<BoardId>, actions: seq<Action>)
    decreases |actions|, 0
  {
    actions == [] ||
    (Possible(boards, actions[..|actions| - 1]) &&
     Enabled(Run(boards, actions[..|actions| - 1]), actions[|actions| - 1]))
  }

  function Run(boards: set<BoardId>, actions: seq<Action>): Export
    requires Possible(boards, actions)
    decreases |actions|, 1
  {
    if actions == [] then Fresh(boards)
    else Apply(Run(boards, actions[..|actions| - 1]), actions[|actions| - 1])
  }

  // ---- reassembly ----

  function Untag(s: seq<Tagged>): (r: seq<Record>)
    ensures |r| == |s| && forall i | 0 <= i < |r| :: r[i] == s[i].record
  {
    seq(|s|, i requires 0 <= i < |s| => s[i].record)
  }

  function FromBoard(s: seq<Tagged>, b: BoardId): seq<Record> {
    if s == [] then []
    else FromBoard(s[..|s| - 1], b) + (if s[|s| - 1].board == b then [s[|s| - 1].record] else [])
  }

  lemma {:induction false} FromBoardConcat(s: seq<Tagged>, t: seq<Tagged>, b: BoardId)
    ensures FromBoard(s + t, b) == FromBoard(s, b) + FromBoard(t, b)
    decreases |t|
  {
    if t == [] {
      assert s + t == s;
    } else {
      FromBoardConcat(s, t[..|t| - 1], b);
      assert (s + t)[..|s + t| - 1] == s + t[..|t| - 1];
    }
  }

  lemma {:induction false} FromBoardTagAll(a: BoardId, records: seq<Record>, b: BoardId)
    ensures FromBoard(TagAll(a, records), b) == if a == b then records else []
    decreases |records|
  {
    if records != [] {
      var front := records[..|records| - 1];
      FromBoardTagAll(a, front, b);
      assert TagAll(a, records)[..|records| - 1] == TagAll(a, front);
      assert records == front + [records[|records| - 1]];
    }
  }

  /** Replies to request `id`, in order. */
  function ChunksOf(replies: seq<Chunk>, id: nat): seq<Chunk> {
    if replies == [] then []
    else (if replies[0].requestId == id then [replies[0]] else []) + ChunksOf(replies[1..], id)
  }

  function Content(chunks: seq<Chunk>): seq<Record> {
    if chunks == [] then [] else chunks[0].records + Content(chunks[1..])
  }

  lemma {:induction false} ChunksConcat(a: seq<Chunk>, b: seq<Chunk>, id: nat)
    ensures ChunksOf(a + b, id) == ChunksOf(a, id) + ChunksOf(b, id)
  {
    if a == [] {
      assert a + b == b;
    } else {
      ChunksConcat(a[1..], b, id);
      assert (a + b)[1..] == a[1..] + b;
      var head := if a[0].requestId == id then [a[0]] else [];
      assert ChunksOf(a + b, id) == head + (ChunksOf(a[1..], id) + ChunksOf(b, id));
    }
  }

  lemma {:induction false} ContentConcat(a: seq<Chunk>, b: seq<Chunk>)
    ensures Content(a + b) == Content(a) + Content(b)
  {
    if a == [] {
      assert a + b == b;
    } else {
      ContentConcat(a[1..], b);
      assert (a + b)[1..] == a[1..] + b;
      var head := a[0].records;
      assert Content(a + b) == head + (Content(a[1..]) + Content(b));
      assert head + (Content(a[1..]) + Content(b)) == (head + Content(a[1..])) + Content(b);
    }
  }

  lemma {:induction false} NoChunks(replies: seq<Chunk>, id: nat)
    requires forall c | c in replies :: c.requestId != id
    ensures ChunksOf(replies, id) == []
  {
    if replies != [] {
      assert replies == [replies[0]] + replies[1..];
      NoChunks(replies[1..], id);
    }
  }

  /** No chunk is marked last. */
  predicate NoneLast(chunks: seq<Chunk>) {
    forall i | 0 <= i < |chunks| :: !chunks[i].last
  }

  /** Exactly the final chunk is marked last. */
  predicate EndsInLast(chunks: seq<Chunk>) {
    chunks != [] && chunks[|chunks| - 1].last && NoneLast(chunks[..|chunks| - 1])
  }

  predicate SendsFor(n: Node, id: nat) {
    n.out.Some? && n.out.value.requestId == id
  }

  /** Everything a node holds of earlier requests stays below `next`. */
  ghost predicate Numbered(n: Node, next: nat) {
    Sendable(n) &&
    (forall q | q in n.queries :: q < next) && (n.out.Some? ==> n.out.value.requestId < next) &&
    (forall c | c in n.replies :: c.requestId < next)
  }

  /** A board that has not begun the current request. */
  ghost predicate NotBegun(n: Node, id: nat, expected: bool, got: seq<Record>) {
    !SendsFor(n, id) && ChunksOf(n.replies, id) == [] && got == [] && expected
  }

  /** A board that has: what the server got, what is on its way and what is still to be sent
      make up the answer, and one last mark is still to come exactly while the board is
      expected. */
  ghost predicate Begun(n: Node, id: nat, expected: bool, got: seq<Record>, answer: seq<Record>) {
    Sendable(n) && id !in n.queries &&
    var chunks := ChunksOf(n.replies, id);
    answer == got + Content(chunks) + (if SendsFor(n, id) then n.out.value.records[n.out.value.offset..] else []) &&
    (if SendsFor(n, id) then expected && NoneLast(chunks)
     else if expected then EndsInLast(chunks) else chunks == [])
  }

  /** The current request waits at most once in a node's queue. */
  ghost predicate AskedOnce(queries: seq<nat>, id: nat) {
    forall i, j | 0 <= i < j < |queries| :: !(queries[i] == id && queries[j] == id)
  }

  /** What a board is to the current request. */
  ghost predicate Part(n: Node, id: nat, asked: bool, expected: bool, got: seq<Record>, answer: Option<seq<Record>>) {
    if !asked then id !in n.queries && !SendsFor(n, id) && ChunksOf(n.replies, id) == [] && got == []
    else
      match answer
      case Some(records) => Begun(n, id, expected, got, records)
      case None => NotBegun(n, id, expected, got)
  }

  ghost function AnswerOf(e: Export, b: BoardId): Option<seq<Record>> {
    if b in e.answers then Some(e.answers[b]) else None
  }

  ghost predicate BoardKept(e: Export, b: BoardId)
    requires b in e.nodes && e.job.Some?
  {
    var id := e.job.value.requestId;
    Numbered(e.nodes[b], e.nextRequestId) && AskedOnce(e.nodes[b].queries, id) &&
    Part(e.nodes[b], id, b in e.asked, b in e.job.value.expected, FromBoard(e.tagged, b), AnswerOf(e, b))
  }

  ghost predicate BoardsKept(e: Export) {
    forall b | b in e.nodes ::
      if e.job.Some? then BoardKept(e, b) else Numbered(e.nodes[b], e.nextRequestId)
  }

  ghost predicate JobKept(e: Export) {
    e.job.Some? ==>
      e.job.value.requestId < e.nextRequestId && e.asked <= e.nodes.Keys &&
      e.job.value.expected <= e.asked && e.answers.Keys <= e.asked &&
      Untag(e.tagged) == e.delivered + e.job.value.pending &&
      (forall t | t in e.tagged :: t.board in e.asked) &&
      (e.job.value.done && !e.job.value.failed ==> e.job.value.expected == {})
  }

  // ---- a board keeps its part of the invariant ----

  lemma ChunkPushed(n: Node, id: nat)
    requires Sendable(n) && n.out.Some?
    ensures var out := n.out.value;
            var chunk := Chunk(out.requestId, out.records[out.offset..ChunkEnd(out)],
                               ChunkEnd(out) == |out.records|, out.truncated);
            ChunksOf(SendOne(n).replies, id) ==
            ChunksOf(n.replies, id) + (if out.requestId == id then [chunk] else [])
  {
    var chunk := SendOne(n).replies[|n.replies|];
    ChunksConcat(n.replies, [chunk], id);
    assert [chunk][1..] == [];
  }

  lemma SendOneKeeps(n: Node, id: nat, asked: bool, expected: bool, got: seq<Record>, answer: Option<seq<Record>>)
    requires Sendable(n) && n.out.Some? && Part(n, id, asked, expected, got, answer)
    ensures Part(SendOne(n), id, asked, expected, got, answer)
  {
    ChunkPushed(n, id);
    if SendsFor(n, id) && asked && answer.Some? {
      var out, before := n.out.value, ChunksOf(n.replies, id);
      var end := ChunkEnd(out);
      var chunk := Chunk(id, out.records[out.offset..end], end == |out.records|, out.truncated);
      ContentConcat(before, [chunk]);
      assert [chunk][1..] == [];
      assert Content([chunk]) == chunk.records;
      assert out.records[out.offset..] == chunk.records + out.records[end..];
      assert (before + [chunk])[..|before|] == before;
      assert got + (Content(before) + chunk.records) + out.records[end..] ==
             got + Content(before) + (chunk.records + out.records[end..]);
      if end == |out.records| {
        assert out.records[end..] == [];
      }
    } else {
      assert ChunksOf(n.replies, id) + [] == ChunksOf(n.replies, id);
    }
  }

  lemma SendOneNumbered(n: Node, next: nat)
    requires Sendable(n) && n.out.Some? && Numbered(n, next)
    ensures Numbered(SendOne(n), next)
  {
  }

  lemma {:induction false} SendTickKeeps(
      n: Node, k: nat, next: nat, id: nat, asked: bool, expected: bool, got: seq<Record>, answer: Option<seq<Record>>)
    requires Numbered(n, next) && Part(n, id, asked, expected, got, answer)
    ensures Numbered(SendTick(n, k), next) && SendTick(n, k).queries == n.queries
    ensures Part(SendTick(n, k), id, asked, expected, got, answer)
    decreases k
  {
    if k != 0 && n.out.Some? {
      SendOneKeeps(n, id, asked, expected, got, answer);
      SendOneNumbered(n, next);
      SendTickKeeps(SendOne(n), k - 1, next, id, asked, expected, got, answer);
    }
  }

  /** The answer of a board after its receive loop. */
  ghost function Answer(n: Node, id: nat, answer: Option<seq<Record>>, records: seq<Record>): Option<seq<Record>> {
    if n.queries != [] && n.out.None? && n.queries[0] == id then Some(records) else answer
  }

  lemma TakeKeeps(n: Node, records: seq<Record>, truncated: bool, next: nat,
                  id: nat, asked: bool, expected: bool, got: seq<Record>, answer: Option<seq<Record>>)
    requires Numbered(n, next) && Part(n, id, asked, expected, got, answer)
    ensures var m := TakeQueries(n, records, truncated);
            Numbered(m, next) && Part(m, id, asked, expected, got, Answer(n, id, answer, records))
  {
    if n.queries != [] {
      assert n.queries[0] in n.queries;
      assert records[0..] == records;
    }
  }

  lemma ServiceKeeps(n: Node, records: seq<Record>, truncated: bool, next: nat,
                     id: nat, asked: bool, expected: bool, got: seq<Record>, answer: Option<seq<Record>>)
    requires Numbered(n, next) && Part(n, id, asked, expected, got, answer)
    ensures Numbered(Service(n, records, truncated), next)
    ensures AskedOnce(n.queries, id) ==> AskedOnce(Service(n, records, truncated).queries, id)
    ensures Part(Service(n, records, truncated), id, asked, expected, got, Answer(n, id, answer, records))
  {
    TakeKeeps(n, records, truncated, next, id, asked, expected, got, answer);
    SendTickKeeps(TakeQueries(n, records, truncated), CSV_CHUNKS_PER_TICK, next, id, asked, expected, got,
                  Answer(n, id, answer, records));
  }

  lemma LastOfTail(chunks: seq<Chunk>)
    requires EndsInLast(chunks)
    ensures chunks[0].last <==> |chunks| == 1
    ensures |chunks| > 1 ==> EndsInLast(chunks[1..])
  {
    if |chunks| > 1 {
      assert chunks[..|chunks| - 1][0] == chunks[0];
      assert chunks[1..][..|chunks| - 2] == chunks[..|chunks| - 1][1..];
    }
  }

  /** A reply is taken off the queue; if it belongs to the current request, the server has its
      records, and a last mark ends the wait. */
  lemma ReceiveMine(n: Node, id: nat, expected: bool, got: seq<Record>, answer: seq<Record>)
    requires n.replies != [] && n.replies[0].requestId == id && Begun(n, id, expected, got, answer)
    ensures Begun(n.(replies := n.replies[1..]), id, expected && !n.replies[0].last, got + n.replies[0].records, answer)
  {
    var reply := n.replies[0];
    var chunks, left := ChunksOf(n.replies, id), ChunksOf(n.replies[1..], id);
    assert chunks == [reply] + left;
    assert chunks[0] == reply && chunks[1..] == left;
    assert got + (reply.records + Content(left)) == (got + reply.records) + Content(left);
    if EndsInLast(chunks) {
      LastOfTail(chunks);
    }
  }

  lemma ReceiveForeign(n: Node, id: nat, asked: bool, expected: bool, got: seq<Record>, answer: Option<seq<Record>>)
    requires n.replies != [] && n.replies[0].requestId != id && Part(n, id, asked, expected, got, answer)
    ensures Part(n.(replies := n.replies[1..]), id, asked, expected, got, answer)
  {
    assert ChunksOf(n.replies, id) == [] + ChunksOf(n.replies[1..], id) == ChunksOf(n.replies[1..], id);
  }

  lemma FirstIsMine(n: Node, id: nat, asked: bool, expected: bool, got: seq<Record>, answer: Option<seq<Record>>)
    requires n.replies != [] && n.replies[0].requestId == id && Part(n, id, asked, expected, got, answer)
    ensures asked && answer.Some? && expected
  {
    assert ChunksOf(n.replies, id)[0] == n.replies[0];
  }

  // ---- every step keeps the invariant ----

  lemma StartKeeps(e: Export, boards: set<BoardId>, expired: bool)
    requires BoardsKept(e) && JobKept(e) && Enabled(e, Start(boards, expired))
    ensures BoardsKept(Apply(e, Start(boards, expired))) && JobKept(Apply(e, Start(boards, expired)))
  {
    var next := Apply(e, Start(boards, expired));
    forall b | b in next.nodes ensures BoardKept(next, b) {
      var queries := e.nodes[b].queries;
      NoChunks(e.nodes[b].replies, e.nextRequestId);
      assert BoardsKept(e);
      assert Numbered(e.nodes[b], e.nextRequestId);
      assert forall i | 0 <= i < |queries| :: queries[i] in queries && queries[i] < e.nextRequestId;
    }
  }

  lemma AbortKeeps(e: Export, reached: set<BoardId>)
    requires BoardsKept(e) && JobKept(e)
    ensures BoardsKept(Apply(e, StartAborted(reached))) && JobKept(Apply(e, StartAborted(reached)))
  {
    var next := Apply(e, StartAborted(reached));
    forall b | b in next.nodes
      ensures if next.job.Some? then BoardKept(next, b) else Numbered(next.nodes[b], next.nextRequestId)
    {
      if e.job.Some? {
        assert BoardKept(e, b);
        assert AnswerOf(next, b) == AnswerOf(e, b);
        StrangeRequest(e.nodes[b], e.nextRequestId, e.job.value.requestId, b in e.asked,
                       b in e.job.value.expected, FromBoard(e.tagged, b), AnswerOf(e, b));
      }
    }
  }

  /** A request of another job that reaches a board does not touch its part in the current one. */
  lemma StrangeRequest(n: Node, next: nat, id: nat, asked: bool, expected: bool, got: seq<Record>,
                       answer: Option<seq<Record>>)
    requires Numbered(n, next) && AskedOnce(n.queries, id) && id < next && Part(n, id, asked, expected, got, answer)
    ensures var m := n.(queries := n.queries + [next]);
            Numbered(m, next + 1) && AskedOnce(m.queries, id) && Part(m, id, asked, expected, got, answer)
  {
  }

  lemma ServiceStepKeeps(e: Export, b: BoardId, records: seq<Record>, truncated: bool)
    requires BoardsKept(e) && JobKept(e) && b in e.nodes && Sendable(e.nodes[b])
    ensures BoardsKept(Apply(e, ServiceNode(b, records, truncated)))
    ensures JobKept(Apply(e, ServiceNode(b, records, truncated)))
  {
    var next := Apply(e, ServiceNode(b, records, truncated));
    if e.job.Some? {
      var id := e.job.value.requestId;
      assert BoardKept(e, b);
      ServiceKeeps(e.nodes[b], records, truncated, e.nextRequestId, id, b in e.asked, b in e.job.value.expected,
                   FromBoard(e.tagged, b), AnswerOf(e, b));
      assert e.nodes[b].queries != [] ==> e.nodes[b].queries[0] in e.nodes[b].queries;
      assert AnswerOf(next, b) == Answer(e.nodes[b], id, AnswerOf(e, b), records);
      forall a | a in next.nodes && a != b ensures BoardKept(next, a) {
        assert BoardKept(e, a);
        assert AnswerOf(next, a) == AnswerOf(e, a);
      }
    } else {
      assert e.nodes[b].queries != [] ==> e.nodes[b].queries[0] in e.nodes[b].queries;
      TickNumbered(TakeQueries(e.nodes[b], records, truncated), CSV_CHUNKS_PER_TICK, e.nextRequestId);
    }
  }

  lemma {:induction false} TickNumbered(n: Node, k: nat, next: nat)
    requires Numbered(n, next)
    ensures Numbered(SendTick(n, k), next)
    decreases k
  {
    if k != 0 && n.out.Some? {
      SendOneNumbered(n, next);
      TickNumbered(SendOne(n), k - 1, next);
    }
  }

  lemma TagsGrow(tagged: seq<Tagged>, b: BoardId, records: seq<Record>, asked: set<BoardId>)
    requires b in asked && forall t | t in tagged :: t.board in asked
    ensures forall t | t in tagged + TagAll(b, records) :: t.board in asked
    ensures Untag(tagged + TagAll(b, records)) == Untag(tagged) + records
  {
    forall t | t in tagged + TagAll(b, records) ensures t.board in asked {
      assert t in tagged || t in TagAll(b, records);
    }
  }

  lemma ReceiveJobMine(e: Export, b: BoardId, records: seq<Record>, next: Export)
    requires JobKept(e) && e.job.Some? && next.job.Some? && b in e.asked
    requires next.nodes.Keys == e.nodes.Keys && next.asked == e.asked && next.answers == e.answers
    requires next.nextRequestId == e.nextRequestId && next.delivered == e.delivered
    requires next.tagged == e.tagged + TagAll(b, records)
    requires next.job.value.pending == e.job.value.pending + records
    requires next.job.value.requestId == e.job.value.requestId && next.job.value.expected <= e.job.value.expected
    requires next.job.value.done == e.job.value.done && next.job.value.failed == e.job.value.failed
    ensures JobKept(next)
  {
    TagsGrow(e.tagged, b, records, e.asked);
    assert e.delivered + (e.job.value.pending + records) == (e.delivered + e.job.value.pending) + records;
  }

  lemma ReceiveJob(e: Export, b: BoardId)
    requires JobKept(e) && BoardsKept(e) && Enabled(e, Receive(b))
    ensures JobKept(Apply(e, Receive(b)))
  {
    var reply := e.nodes[b].replies[0];
    assert BoardKept(e, b);
    if reply.requestId == e.job.value.requestId {
      FirstIsMine(e.nodes[b], reply.requestId, b in e.asked, b in e.job.value.expected,
                  FromBoard(e.tagged, b), AnswerOf(e, b));
      ReceiveJobMine(e, b, reply.records, Apply(e, Receive(b)));
    }
  }

  /** The board whose reply was taken, with its records now with the server. */
  lemma ReceiveSelf(e: Export, b: BoardId)
    requires BoardsKept(e) && Enabled(e, Receive(b))
    ensures BoardKept(Apply(e, Receive(b)), b)
  {
    var n := e.nodes[b];
    var reply := n.replies[0];
    var id := e.job.value.requestId;
    assert BoardKept(e, b);
    assert AnswerOf(Apply(e, Receive(b)), b) == AnswerOf(e, b);
    if reply.requestId == id {
      FromBoardConcat(e.tagged, TagAll(b, reply.records), b);
      FromBoardTagAll(b, reply.records, b);
      FirstIsMine(n, id, b in e.asked, b in e.job.value.expected, FromBoard(e.tagged, b), AnswerOf(e, b));
      ReceiveMine(n, id, true, FromBoard(e.tagged, b), e.answers[b]);
    } else {
      ReceiveForeign(n, id, b in e.asked, b in e.job.value.expected, FromBoard(e.tagged, b), AnswerOf(e, b));
    }
  }

  lemma OtherBoardKept(e: Export, b: BoardId, a: BoardId, records: seq<Record>, next: Export)
    requires e.job.Some? && next.job.Some? && a in e.nodes && a in next.nodes && a != b && BoardKept(e, a)
    requires next.nodes[a] == e.nodes[a] && next.nextRequestId == e.nextRequestId
    requires next.job.value.requestId == e.job.value.requestId
    requires next.asked == e.asked && next.answers == e.answers
    requires a in next.job.value.expected <==> a in e.job.value.expected
    requires next.tagged == e.tagged || next.tagged == e.tagged + TagAll(b, records)
    ensures BoardKept(next, a)
  {
    FromBoardConcat(e.tagged, TagAll(b, records), a);
    FromBoardTagAll(b, records, a);
    assert FromBoard(e.tagged, a) + [] == FromBoard(e.tagged, a);
    assert AnswerOf(next, a) == AnswerOf(e, a);
  }

  lemma ReceiveOther(e: Export, b: BoardId, a: BoardId)
    requires BoardsKept(e) && Enabled(e, Receive(b)) && a in e.nodes && a != b
    ensures BoardKept(Apply(e, Receive(b)), a)
  {
    assert BoardKept(e, a);
    OtherBoardKept(e, b, a, e.nodes[b].replies[0].records, Apply(e, Receive(b)));
  }

  lemma ReceiveBoards(e: Export, b: BoardId)
    requires BoardsKept(e) && Enabled(e, Receive(b))
    ensures BoardsKept(Apply(e, Receive(b)))
  {
    forall a | a in e.nodes ensures BoardKept(Apply(e, Receive(b)), a) {
      if a == b {
        ReceiveSelf(e, b);
      } else {
        ReceiveOther(e, b, a);
      }
    }
  }

  lemma JobStepKeeps(e: Export, a: Action)
    requires BoardsKept(e) && JobKept(e) && Enabled(e, a) &&
             (a.OtherRequest? || a.Check? || a.TransportError? || a.PollJob?)
    ensures BoardsKept(Apply(e, a)) && JobKept(Apply(e, a))
  {
    var next := Apply(e, a);
    forall b | b in next.nodes
      ensures if next.job.Some? then BoardKept(next, b) else Numbered(next.nodes[b], next.nextRequestId)
    {
      if e.job.Some? {
        assert BoardKept(e, b);
        assert AnswerOf(next, b) == AnswerOf(e, b);
      }
    }
  }

  lemma StepKept(e: Export, a: Action)
    requires BoardsKept(e) && JobKept(e) && Enabled(e, a)
    ensures BoardsKept(Apply(e, a)) && JobKept(Apply(e, a))
  {
    match a
    case Start(asked, expired) => StartKeeps(e, asked, expired);
    case StartAborted(reached) => AbortKeeps(e, reached);
    case ServiceNode(b, records, truncated) => ServiceStepKeeps(e, b, records, truncated);
    case Receive(b) =>
      ReceiveJob(e, b);
      ReceiveBoards(e, b);
    case _ => JobStepKeeps(e, a);
  }

  lemma {:induction false} RunKept(boards: set<BoardId>, actions: seq<Action>)
    requires Possible(boards, actions)
    ensures BoardsKept(Run(boards, actions)) && JobKept(Run(boards, actions))
  {
    if actions != [] {
      var before := actions[..|actions| - 1];
      RunKept(boards, before);
      StepKept(Run(boards, before), actions[|actions| - 1]);
    }
  }

  /** `all` is the given sequences mixed, each in its own order and complete. */
  ghost predicate Interleaves(all: seq<Record>, parts: map<BoardId, seq<Record>>) {
    exists tags: seq<Tagged> ::
      Untag(tags) == all && (forall t | t in tags :: t.board in parts) &&
      forall b | b in parts :: FromBoard(tags, b) == parts[b]
  }

  /** When an export job has finished without failure, what the polls returned, together with
      what the next poll will return, is an interleaving of the answers of all boards asked:
      nothing lost, nothing twice, each board's records in order. No reply to it is left on the
      way. */
  lemma FinishedExportIsComplete(boards: set<BoardId>, actions: seq<Action>)
    requires Possible(boards, actions)
    requires var e := Run(boards, actions); e.job.Some? && e.job.value.done && !e.job.value.failed
    ensures var e := Run(boards, actions);
            e.answers.Keys == e.asked && Interleaves(e.delivered + e.job.value.pending, e.answers) &&
            forall b | b in e.nodes :: ChunksOf(e.nodes[b].replies, e.job.value.requestId) == []
  {
    RunKept(boards, actions);
    var e := Run(boards, actions);
    forall b | b in e.nodes
      ensures ChunksOf(e.nodes[b].replies, e.job.value.requestId) == []
      ensures b in e.asked ==> b in e.answers && FromBoard(e.tagged, b) == e.answers[b]
    {
      assert BoardKept(e, b);
    }
  }

  /** While a job runs, each board still expected owes exactly one last mark, and each board no
      longer expected has delivered its whole answer, an empty one included. */
  lemma OneLastMarkEach(boards: set<BoardId>, actions: seq<Action>, b: BoardId)
    requires Possible(boards, actions)
    requires var e := Run(boards, actions); e.job.Some? && b in e.asked && b in e.answers
    ensures var e := Run(boards, actions);
            b in e.nodes &&
            var chunks := ChunksOf(e.nodes[b].replies, e.job.value.requestId);
            if b !in e.job.value.expected then FromBoard(e.tagged, b) == e.answers[b] && chunks == []
            else if SendsFor(e.nodes[b], e.job.value.requestId) then NoneLast(chunks)
            else EndsInLast(chunks)
  {
    RunKept(boards, actions);
    assert BoardKept(Run(boards, actions), b);
  }

  // ---- as it runs ----

  class NodeCsv {
    var queries: seq<nat>
    var out: Option<CsvSend>
    /** Everything published, oldest first. */
    var replies: seq<Chunk>

    ghost function View(): Node
      reads this
    {
      Node(queries, out, replies)
    }

    constructor ()
      ensures View() == Node([], None, [])
    {
      queries, out, replies := [], None, [];
    }

    method SendCsvTick()
      requires Sendable(View())
      modifies this`out, this`replies
      ensures Sendable(View()) && View() == SendTick(old(View()), CSV_CHUNKS_PER_TICK)
    {
      var i := 0;
      while i < CSV_CHUNKS_PER_TICK && out.Some?
        invariant 0 <= i <= CSV_CHUNKS_PER_TICK && Sendable(View()) && queries == old(queries)
        invariant SendTick(old(View()), CSV_CHUNKS_PER_TICK) == SendTick(View(), CSV_CHUNKS_PER_TICK - i)
        decreases CSV_CHUNKS_PER_TICK - i
      {
        var o := out.value;
        var end := if o.offset + QUERY_CHUNK < |o.records| then o.offset + QUERY_CHUNK else |o.records|;
        var last := end == |o.records|;
        replies := replies + [Chunk(o.requestId, o.records[o.offset..end], last, o.truncated)];
        out := if last then None else Some(o.(offset := end));
        i := i + 1;
      }
    }

    method ServiceCsv(records: seq<Record>, truncated: bool)
      requires Sendable(View())
      modifies this
      ensures Sendable(View()) && View() == Service(old(View()), records, truncated)
    {
      while queries != []
        invariant Sendable(View()) && replies == old(replies)
        invariant TakeQueries(View(), records, truncated) == TakeQueries(old(View()), records, truncated)
        decreases |queries|
      {
        if out.None? {
          out := Some(CsvSend(queries[0], records, 0, truncated));
        }
        queries := queries[1..];
      }
      SendCsvTick();
    }
  }

  class CsvServer {
    var nextRequestId: nat
    var job: Option<Job>

    constructor ()
      ensures nextRequestId == 0 && job == None
    {
      nextRequestId, job := 0, None;
    }

    /** `start_csv`; `Err` when an export is still busy. */
    method StartCsv(boards: set<BoardId>, expired: bool) returns (r: Result<nat, ()>)
      modifies this
      ensures r.Err? <==> old(job).Some? && !old(job).value.done && !expired
      ensures r.Err? ==> job == old(job) && nextRequestId == old(nextRequestId)
      ensures r.Ok? ==> r.value == old(nextRequestId) && nextRequestId == old(nextRequestId) + 1 &&
                        job == Some(Job(r.value, boards, [], false, false, boards == {}))
    {
      if job.Some? && !job.value.done && !expired {
        return Err(());
      }
      var id := nextRequestId;
      nextRequestId := nextRequestId + 1;
      job := Some(Job(id, boards, [], false, false, boards == {}));
      r := Ok(id);
    }

    /** The loop of `ingest_csv_replies` over the replies that have arrived, then its verdict. */
    method IngestReplies(arrived: seq<(BoardId, Chunk)>, expired: bool)
      modifies this`job
      ensures old(job).None? || old(job).value.done ==> job == old(job)
      ensures old(job).Some? && !old(job).value.done ==>
                job == Some(Conclude(IngestAll(old(job).value, arrived), expired))
    {
      if job.None? || job.value.done {
        return;
      }
      var j := job.value;
      var i := 0;
      while i < |arrived|
        invariant 0 <= i <= |arrived|
        invariant IngestAll(job.value, arrived) == IngestAll(j, arrived[i..])
      {
        var from, reply := arrived[i].0, arrived[i].1;
        assert arrived[i..][1..] == arrived[i + 1..];
        if reply.requestId == j.requestId {
          j := j.(pending := j.pending + reply.records, truncated := j.truncated || reply.truncated);
          if reply.last {
            j := j.(expected := j.expected - {from});
          }
        }
        i := i + 1;
      }
      if j.expected == {} {
        j := j.(done := true);
      } else if expired {
        j := j.(failed := true, done := true);
      }
      job := Some(j);
    }

    /** `poll_csv_job`; `Err` for an unknown request. */
    method PollCsvJob(requestId: nat) returns (r: Result<CsvPoll, ()>)
      modifies this`job
      ensures r.Ok? <==> old(job).Some? && old(job).value.requestId == requestId
      ensures r.Err? ==> job == old(job)
      ensures r.Ok? ==> var j := old(job).value;
                        r.value == CsvPoll(j.pending, j.done, j.failed, j.truncated) &&
                        job == Some(j.(pending := []))
    {
      if job.None? || job.value.requestId != requestId {
        return Err(());
      }
      var j := job.value;
      job := Some(j.(pending := []));
      r := Ok(CsvPoll(j.pending, j.done, j.failed, j.truncated));
    }
  }

  function IngestAll(job: Job, arrived: seq<(BoardId, Chunk)>): Job
    decreases |arrived|
  {
    if arrived == [] then job else IngestAll(Ingest(job, arrived[0].0, arrived[0].1), arrived[1..])
  }
}
