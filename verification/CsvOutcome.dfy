/** How an export job ends: when it may fail, whether it was cut short, and when it can still
    succeed, over every run of the boards, the server and its client. */
module CsvOutcome {
  import opened Prelude
  import opened CsvExport
  import SpillFile

  // ---- what has happened since the job began ----

  /** The boards the last start asked. */
  function AskedIn(actions: seq<Action>): set<BoardId>
    decreases |actions|
  {
    if actions == [] then {}
    else
      var n := |actions| - 1;
      if actions[n].Start? then actions[n].boards else AskedIn(actions[..n])
  }

  /** The replies to the current request that the server has taken, and from whom. */
  function Taken(boards: set<BoardId>, actions: seq<Action>): seq<(BoardId, Chunk)>
    requires Possible(boards, actions)
    decreases |actions|
  {
    if actions == [] then []
    else
      var n := |actions| - 1;
      var e := Run(boards, actions[..n]);
      match actions[n]
      case Start(_, _) => []
      case Receive(b) =>
        var reply := e.nodes[b].replies[0];
        Taken(boards, actions[..n]) + if reply.requestId == e.job.value.requestId then [(b, reply)] else []
      case _ => Taken(boards, actions[..n])
  }

  predicate HasFinalOf(taken: seq<(BoardId, Chunk)>, b: BoardId) {
    exists i | 0 <= i < |taken| :: taken[i].0 == b && taken[i].1.last
  }

  /** The boards asked whose last chunk has not been taken. */
  function Missing(boards: set<BoardId>, actions: seq<Action>): set<BoardId>
    requires Possible(boards, actions)
  {
    Unfinished(AskedIn(actions), Taken(boards, actions))
  }

  function Unfinished(asked: set<BoardId>, taken: seq<(BoardId, Chunk)>): set<BoardId> {
    set b | b in asked && !HasFinalOf(taken, b)
  }

  /** Since the last start the transport has broken, or a check came too late for some board. */
  predicate Broken(boards: set<BoardId>, actions: seq<Action>)
    requires Possible(boards, actions)
    decreases |actions|
  {
    if actions == [] then false
    else
      var n := |actions| - 1;
      match actions[n]
      case Start(_, _) => false
      case TransportError => true
      case Check(expired) => (expired && Missing(boards, actions[..n]) != {}) || Broken(boards, actions[..n])
      case _ => Broken(boards, actions[..n])
  }

  /** Since the last start there was nothing to wait for, or a check found nothing missing. */
  predicate Satisfied(boards: set<BoardId>, actions: seq<Action>)
    requires Possible(boards, actions)
    decreases |actions|
  {
    if actions == [] then false
    else
      var n := |actions| - 1;
      match actions[n]
      case Start(asked, _) => asked == {}
      case Check(_) => Missing(boards, actions[..n]) == {} || Satisfied(boards, actions[..n])
      case _ => Satisfied(boards, actions[..n])
  }

  predicate CutShort(taken: seq<(BoardId, Chunk)>) {
    exists i | 0 <= i < |taken| :: taken[i].1.truncated
  }

  predicate Began(actions: seq<Action>) {
    exists i | 0 <= i < |actions| :: actions[i].Start?
  }

  /** What a job says, against what has happened since it began. */
  predicate JobSays(job: Job, asked: set<BoardId>, taken: seq<(BoardId, Chunk)>, broken: bool, satisfied: bool) {
    job.failed == broken && job.done == (broken || satisfied) && job.truncated == CutShort(taken) &&
    job.expected == Unfinished(asked, taken)
  }

  lemma TakeOne(taken: seq<(BoardId, Chunk)>, from: BoardId, reply: Chunk, asked: set<BoardId>)
    ensures var more := taken + [(from, reply)];
            CutShort(more) == (CutShort(taken) || reply.truncated) &&
            Unfinished(asked, more) ==
            if reply.last then Unfinished(asked, taken) - {from} else Unfinished(asked, taken)
  {
    var more := taken + [(from, reply)];
    assert more[|taken|] == (from, reply);
    assert forall i | 0 <= i < |taken| :: more[i] == taken[i];
    assert forall b | HasFinalOf(taken, b) :: HasFinalOf(more, b);
    if reply.last {
      assert HasFinalOf(more, from);
    }
  }

  lemma BeganStep(actions: seq<Action>, a: Action)
    ensures Began(actions + [a]) <==> Began(actions) || a.Start?
  {
    var more := actions + [a];
    assert more[|actions|] == a;
    assert forall i | 0 <= i < |actions| :: more[i] == actions[i];
  }

  lemma ReceiveSays(e: Export, b: BoardId, asked: set<BoardId>, taken: seq<(BoardId, Chunk)>, satisfied: bool)
    requires Enabled(e, Receive(b)) && JobSays(e.job.value, asked, taken, false, satisfied)
    ensures var reply := e.nodes[b].replies[0];
            JobSays(Apply(e, Receive(b)).job.value, asked,
                    taken + if reply.requestId == e.job.value.requestId then [(b, reply)] else [], false, satisfied)
  {
    var reply := e.nodes[b].replies[0];
    TakeOne(taken, b, reply, asked);
    assert taken + [] == taken;
  }

  lemma OtherSays(e: Export, a: Action, asked: set<BoardId>, taken: seq<(BoardId, Chunk)>, broken: bool,
                  satisfied: bool)
    requires Enabled(e, a) && !a.Receive? && !a.Start?
    requires e.job.Some? ==> JobSays(e.job.value, asked, taken, broken, satisfied)
    ensures var next := Apply(e, a);
            next.asked == e.asked && next.job.Some? == e.job.Some? &&
            (e.job.Some? ==>
               var late := a.Check? && a.expired && Unfinished(asked, taken) != {};
               JobSays(next.job.value, asked, taken, broken || late || a.TransportError?,
                       satisfied || (a.Check? && Unfinished(asked, taken) == {})))
  {
  }

  /** Over every run: a job has failed exactly if the transport broke or a check came too late while
      a board's last chunk was missing; it is done exactly then or if a check found nothing missing;
      it is marked truncated exactly if some chunk taken for it was. */
  lemma {:induction false} JobTells(boards: set<BoardId>, actions: seq<Action>)
    requires Possible(boards, actions)
    ensures var e := Run(boards, actions);
            (e.job.Some? <==> Began(actions)) && e.asked == AskedIn(actions) &&
            (e.job.Some? ==>
               JobSays(e.job.value, AskedIn(actions), Taken(boards, actions), Broken(boards, actions),
                       Satisfied(boards, actions)))
    decreases |actions|
  {
    if actions != [] {
      var before := actions[..|actions| - 1];
      var a := actions[|actions| - 1];
      var e := Run(boards, before);
      var asked, taken := AskedIn(before), Taken(boards, before);
      JobTells(boards, before);
      BeganStep(before, a);
      assert actions == before + [a];
      if a.Receive? {
        ReceiveSays(e, a.board, asked, taken, Satisfied(boards, before));
      } else if !a.Start? {
        OtherSays(e, a, asked, taken, Broken(boards, before), Satisfied(boards, before));
      }
    }
  }

  // ---- a run continued ----

  /** The export after `more`, if every action is enabled when its turn comes. */
  function Continued(e: Export, more: seq<Action>): Option<Export>
    decreases |more|
  {
    if more == [] then Some(e)
    else
      var before := Continued(e, more[..|more| - 1]);
      var a := more[|more| - 1];
      if before.Some? && Enabled(before.value, a) then Some(Apply(before.value, a)) else None
  }

  lemma ContinuedMore(e: Export, more: seq<Action>, a: Action)
    ensures var before := Continued(e, more);
            Continued(e, more + [a]) ==
            if before.Some? && Enabled(before.value, a) then Some(Apply(before.value, a)) else None
  {
    assert (more + [a])[..|more|] == more;
  }

  lemma {:induction false} ContinuedOn(e: Export, first: seq<Action>, second: seq<Action>)
    requires Continued(e, first).Some?
    ensures Continued(e, first + second) == Continued(Continued(e, first).value, second)
    decreases |second|
  {
    if second == [] {
      assert first + second == first;
    } else {
      var init, a := second[..|second| - 1], second[|second| - 1];
      ContinuedOn(e, first, init);
      ContinuedMore(e, first + init, a);
      assert first + second == (first + init) + [a];
    }
  }

  /** Continuing from a reached state is a run. */
  lemma {:induction false} ContinuedRun(boards: set<BoardId>, actions: seq<Action>, more: seq<Action>)
    requires Possible(boards, actions)
    ensures Possible(boards, actions + more) <==> Continued(Run(boards, actions), more).Some?
    ensures Possible(boards, actions + more) ==>
              Some(Run(boards, actions + more)) == Continued(Run(boards, actions), more)
    decreases |more|
  {
    if more == [] {
      assert actions + more == actions;
    } else {
      ContinuedRun(boards, actions, more[..|more| - 1]);
      assert (actions + more)[..|actions + more| - 1] == actions + more[..|more| - 1];
    }
  }

  // ---- a job can still succeed ----

  ghost predicate Kept(e: Export) {
    BoardsKept(e) && JobKept(e)
  }

  predicate Unfinal(e: Export) {
    e.job.Some? && !e.job.value.done && !e.job.value.failed
  }

  /** The board will take the current request up: it is idle and the request is its next. */
  predicate Ready(n: Node, id: nat) {
    n.queries != [] && n.queries[0] == id && n.out.None?
  }

  /** The board has taken the current request up, or will. */
  predicate Answering(e: Export, b: BoardId)
    requires e.job.Some? && b in e.nodes
  {
    b in e.answers || Ready(e.nodes[b], e.job.value.requestId)
  }

  predicate Serves(more: seq<Action>) {
    forall i | 0 <= i < |more| :: more[i].ServiceNode? || more[i].Receive?
  }

  /** The export after board `b` has been served to the end: nothing else has changed. */
  predicate ServedTo(e: Export, f: Export, b: BoardId)
    requires e.job.Some?
  {
    f.job.Some? && f.job.value.requestId == e.job.value.requestId && f.job.value.failed == e.job.value.failed &&
    f.job.value.done == e.job.value.done && f.asked == e.asked && f.nodes.Keys == e.nodes.Keys &&
    (forall a | a in e.nodes && a != b :: f.nodes[a] == e.nodes[a] && (a in f.answers <==> a in e.answers)) &&
    f.job.value.expected <= e.job.value.expected && e.job.value.expected - {b} <= f.job.value.expected
  }

  /** How much board `b` still has to send for request `id`. */
  function ToSend(n: Node, id: nat): nat {
    if SendsFor(n, id) && n.out.value.offset <= |n.out.value.records| then
      1 + |n.out.value.records| - n.out.value.offset
    else 0
  }

  lemma {:induction false} TickSends(n: Node, k: nat, id: nat)
    requires Sendable(n)
    ensures ToSend(SendTick(n, k), id) <= ToSend(n, id)
    ensures k > 0 && SendsFor(n, id) ==> ToSend(SendTick(n, k), id) < ToSend(n, id)
    decreases k
  {
    if k != 0 && n.out.Some? {
      TickSends(SendOne(n), k - 1, id);
    }
  }

  /** A step towards the end of board `b`'s answer: take a reply that has arrived, let the board
      begin, or let it send. */
  function NextFor(e: Export, b: BoardId): Action
    requires b in e.nodes
  {
    if e.nodes[b].replies != [] then Receive(b) else ServiceNode(b, [], false)
  }

  lemma ReceiveServes(e: Export, b: BoardId)
    requires Kept(e) && Unfinal(e) && b in e.nodes && Answering(e, b) && e.nodes[b].replies != []
    ensures Enabled(e, Receive(b))
    ensures var f := Apply(e, Receive(b));
            Unfinal(f) && ServedTo(e, f, b) && Answering(f, b) && f.answers == e.answers &&
            ToSend(f.nodes[b], e.job.value.requestId) == ToSend(e.nodes[b], e.job.value.requestId) &&
            |f.nodes[b].replies| < |e.nodes[b].replies|
  {
  }

  lemma ServiceServes(e: Export, b: BoardId)
    requires Kept(e) && Unfinal(e) && b in e.asked && b in e.nodes && Answering(e, b) && b in e.job.value.expected
    requires e.nodes[b].replies == []
    ensures Enabled(e, ServiceNode(b, [], false))
    ensures var f := Apply(e, ServiceNode(b, [], false));
            Unfinal(f) && ServedTo(e, f, b) && b in f.answers &&
            (b in e.answers ==>
               ToSend(f.nodes[b], e.job.value.requestId) < ToSend(e.nodes[b], e.job.value.requestId))
  {
    var n, id := e.nodes[b], e.job.value.requestId;
    assert BoardKept(e, b);
    if b in e.answers {
      assert Begun(n, id, true, FromBoard(e.tagged, b), e.answers[b]);
      assert ChunksOf(n.replies, id) == [];
      TickSends(TakeQueries(n, [], false), CSV_CHUNKS_PER_TICK, id);
    }
  }

  lemma NextServes(e: Export, id: nat, b: BoardId, f: Export)
    requires Kept(e) && Unfinal(e) && e.job.value.requestId == id && b in e.asked && b in e.nodes && Answering(e, b)
    requires b in e.job.value.expected
    requires Enabled(e, NextFor(e, b)) ==> f == Apply(e, NextFor(e, b))
    ensures Enabled(e, NextFor(e, b)) && Kept(f) && Unfinal(f) && ServedTo(e, f, b) && Answering(f, b)
    ensures b in e.answers ==> b in f.answers
    ensures (b !in e.answers && b in f.answers) || ToSend(f.nodes[b], id) < ToSend(e.nodes[b], id) ||
            (ToSend(f.nodes[b], id) == ToSend(e.nodes[b], id) && |f.nodes[b].replies| < |e.nodes[b].replies|)
  {
    if e.nodes[b].replies != [] {
      ReceiveServes(e, b);
    } else {
      ServiceServes(e, b);
    }
    StepKept(e, NextFor(e, b));
  }

  predicate ServedOut(e: Export, f: Export, b: BoardId) {
    e.job.Some? && ServedTo(e, f, b) && f.job.Some? && b !in f.job.value.expected
  }

  lemma StepThenServed(e: Export, a: Action, next: Export, rest: seq<Action>, f: Export, b: BoardId)
    requires Enabled(e, a) && (a.ServiceNode? || a.Receive?) && next == Apply(e, a)
    requires e.job.Some? && ServedTo(e, next, b) && ServedOut(next, f, b)
    requires Serves(rest) && Continued(next, rest) == Some(f)
    ensures Serves([a] + rest) && Continued(e, [a] + rest) == Some(f) && ServedOut(e, f, b)
  {
    ContinuedMore(e, [], a);
    assert [] + [a] == [a];
    ContinuedOn(e, [a], rest);
  }

  /** A board that answers can be served until its last chunk has been taken, without touching any
      other board. */
  lemma {:induction false} ServeBoard(e: Export, id: nat, b: BoardId) returns (more: seq<Action>, f: Export)
    requires Kept(e) && Unfinal(e) && e.job.value.requestId == id && b in e.asked && b in e.nodes && Answering(e, b)
    ensures Serves(more) && Continued(e, more) == Some(f)
    ensures Kept(f) && Unfinal(f) && ServedOut(e, f, b)
    decreases b !in e.answers, ToSend(e.nodes[b], id), |e.nodes[b].replies|
  {
    if b !in e.job.value.expected {
      more, f := [], e;
    } else {
      var a := NextFor(e, b);
      var next := if Enabled(e, a) then Apply(e, a) else e;
      NextServes(e, id, b, next);
      more, f := ServeBoard(next, id, b);
      StepThenServed(e, a, next, more, f, b);
      more := [a] + more;
    }
  }

  ghost predicate AllAnswer(e: Export) {
    e.job.Some? && e.asked <= e.nodes.Keys && forall b | b in e.asked :: b in e.nodes && Answering(e, b)
  }

  lemma OthersStillAnswer(e: Export, f: Export, b: BoardId)
    requires AllAnswer(e) && Kept(f) && ServedOut(e, f, b) && b in e.nodes
    ensures AllAnswer(f)
  {
    forall a | a in f.asked
      ensures a in f.nodes && Answering(f, a)
    {
      assert Answering(e, a);
      if a == b {
        assert BoardKept(f, b);
      }
    }
  }

  lemma {:induction false} ServeAll(e: Export) returns (more: seq<Action>, f: Export)
    requires Kept(e) && Unfinal(e) && AllAnswer(e)
    ensures Serves(more) && Continued(e, more) == Some(f)
    ensures Unfinal(f) && f.job.value.expected == {}
    decreases if e.job.Some? then e.job.value.expected else {}
  {
    if e.job.value.expected == {} {
      more, f := [], e;
    } else {
      var b :| b in e.job.value.expected;
      var first, next := ServeBoard(e, e.job.value.requestId, b);
      OthersStillAnswer(e, next, b);
      more, f := ServeAll(next);
      ContinuedOn(e, first, more);
      more := first + more;
    }
  }

  predicate Succeeded(e: Export) {
    e.job.Some? && e.job.value.done && !e.job.value.failed
  }

  predicate NoStart(more: seq<Action>) {
    forall i | 0 <= i < |more| :: !more[i].Start?
  }

  /** `more` leads the current job to a success. */
  predicate SucceedsBy(boards: set<BoardId>, actions: seq<Action>, more: seq<Action>) {
    NoStart(more) && Possible(boards, actions + more) && Succeeded(Run(boards, actions + more))
  }

  /** A board that has lost its chance does not get it back. */
  lemma NotAnsweringStays(e: Export, a: Action, b: BoardId)
    requires Kept(e) && Enabled(e, a) && !a.Start? && e.job.Some? && b in e.nodes && !Answering(e, b)
    ensures var f := Apply(e, a);
            f.job.Some? && f.asked == e.asked && b in f.nodes && !Answering(f, b)
  {
    match a
    case ServiceNode(x, records, truncated) =>
      if x == b {
        TickQueries(TakeQueries(e.nodes[b], records, truncated), CSV_CHUNKS_PER_TICK);
      }
    case StartAborted(reached) =>
      LateRequest(e.nodes[b], e.job.value.requestId, e.nextRequestId);
    case _ =>
  }

  lemma {:induction false} TickQueries(n: Node, k: nat)
    requires Sendable(n)
    ensures SendTick(n, k).queries == n.queries
    decreases k
  {
    if k != 0 && n.out.Some? {
      TickQueries(SendOne(n), k - 1);
    }
  }

  lemma LateRequest(n: Node, id: nat, next: nat)
    requires !Ready(n, id) && id != next
    ensures !Ready(n.(queries := n.queries + [next]), id)
  {
  }

  lemma {:induction false} NotAnsweringFails(e: Export, more: seq<Action>, b: BoardId, f: Export)
    requires Kept(e) && NoStart(more) && Continued(e, more) == Some(f)
    requires e.job.Some? && b in e.asked && b in e.nodes && !Answering(e, b)
    ensures Kept(f) && f.job.Some? && f.asked == e.asked && b in f.nodes && !Answering(f, b) && !Succeeded(f)
    decreases |more|
  {
    if more != [] {
      var init, a := more[..|more| - 1], more[|more| - 1];
      var before := Continued(e, init).value;
      NotAnsweringFails(e, init, b, before);
      StepKept(before, a);
      NotAnsweringStays(before, a, b);
    }
    assert BoardKept(f, b);
  }

  /** Over every run, while the job is not done: it can still succeed exactly if every board asked has
      taken the request up or will; and then serving the boards, taking their replies and one check
      lead there. */
  lemma SucceedsIffAllAnswer(boards: set<BoardId>, actions: seq<Action>)
    requires Possible(boards, actions)
    requires var e := Run(boards, actions); e.job.Some? && !e.job.value.done
    ensures var e := Run(boards, actions);
            (AllAnswer(e) ==>
               exists more :: Serves(more) && SucceedsBy(boards, actions, more + [Check(false)])) &&
            (AllAnswer(e) <==> exists more :: SucceedsBy(boards, actions, more))
  {
    var e := Run(boards, actions);
    RunKept(boards, actions);
    JobTells(boards, actions);
    if AllAnswer(e) {
      var more, f := ServeAll(e);
      ContinuedMore(e, more, Check(false));
      ContinuedRun(boards, actions, more + [Check(false)]);
      assert SucceedsBy(boards, actions, more + [Check(false)]);
    } else {
      var b :| b in e.asked && !Answering(e, b);
      forall more
        ensures !SucceedsBy(boards, actions, more)
      {
        if SucceedsBy(boards, actions, more) {
          ContinuedRun(boards, actions, more);
          NotAnsweringFails(e, more, b, Run(boards, actions + more));
        }
      }
    }
  }

  // ---- an export that was cut short says so ----

  /** What each board that took the current request up found: whether its log was cut short. */
  function FoundTruncated(boards: set<BoardId>, actions: seq<Action>): map<BoardId, bool>
    requires Possible(boards, actions)
    decreases |actions|
  {
    if actions == [] then map[]
    else
      var n := |actions| - 1;
      var e := Run(boards, actions[..n]);
      var found := FoundTruncated(boards, actions[..n]);
      match actions[n]
      case Start(_, _) => map[]
      case ServiceNode(b, _, truncated) =>
        if e.job.Some? && Ready(e.nodes[b], e.job.value.requestId) then found[b := truncated] else found
      case _ => found
  }

  predicate AllMarked(chunks: seq<Chunk>, flag: bool) {
    forall i | 0 <= i < |chunks| :: chunks[i].truncated == flag
  }

  /** Everything of the current request at a board carries `flag`. */
  predicate MarkedAt(n: Node, id: nat, flag: bool) {
    AllMarked(ChunksOf(n.replies, id), flag) && (SendsFor(n, id) ==> n.out.value.truncated == flag)
  }

  lemma SendOneMarks(n: Node, id: nat, flag: bool)
    requires Sendable(n) && n.out.Some? && MarkedAt(n, id, flag)
    ensures MarkedAt(SendOne(n), id, flag)
  {
    ChunkPushed(n, id);
    assert forall i | 0 <= i < |ChunksOf(n.replies, id)| ::
        ChunksOf(SendOne(n).replies, id)[i] == ChunksOf(n.replies, id)[i];
  }

  lemma {:induction false} TickMarks(n: Node, k: nat, id: nat, flag: bool)
    requires Sendable(n) && MarkedAt(n, id, flag)
    ensures MarkedAt(SendTick(n, k), id, flag)
    decreases k
  {
    if k != 0 && n.out.Some? {
      SendOneMarks(n, id, flag);
      TickMarks(SendOne(n), k - 1, id, flag);
    }
  }

  /** Every chunk of the current request that has been taken from `b` carries `flag`. */
  predicate MarkedTaken(taken: seq<(BoardId, Chunk)>, b: BoardId, flag: bool) {
    forall i | 0 <= i < |taken| && taken[i].0 == b :: taken[i].1.truncated == flag
  }

  /** A board's chunks, taken or on their way, carry what it found; one that has found nothing yet
      has sent nothing. */
  ghost predicate BoardMarked(e: Export, taken: seq<(BoardId, Chunk)>, found: map<BoardId, bool>, b: BoardId)
    requires e.job.Some? && b in e.nodes
  {
    if b in found then
      MarkedAt(e.nodes[b], e.job.value.requestId, found[b]) && MarkedTaken(taken, b, found[b])
    else forall i | 0 <= i < |taken| :: taken[i].0 != b
  }

  ghost predicate Marked(e: Export, taken: seq<(BoardId, Chunk)>, found: map<BoardId, bool>) {
    e.job.Some? ==>
      found.Keys == e.answers.Keys && forall b | b in e.nodes :: BoardMarked(e, taken, found, b)
  }

  lemma NodeServiceMarks(n: Node, id: nat, records: seq<SpillFile.Record>, truncated: bool, found: bool)
    requires Sendable(n)
    requires if Ready(n, id) then truncated == found && ChunksOf(n.replies, id) == [] else MarkedAt(n, id, found)
    requires !Ready(n, id) && n.queries != [] ==> n.queries[0] != id || n.out.Some?
    ensures MarkedAt(Service(n, records, truncated), id, found)
  {
    TickMarks(TakeQueries(n, records, truncated), CSV_CHUNKS_PER_TICK, id, found);
  }

  lemma ServiceMarks(e: Export, b: BoardId, records: seq<SpillFile.Record>, truncated: bool,
                     taken: seq<(BoardId, Chunk)>, found: map<BoardId, bool>, next: map<BoardId, bool>)
    requires Kept(e) && Marked(e, taken, found) && Enabled(e, ServiceNode(b, records, truncated)) && e.job.Some?
    requires next == if Ready(e.nodes[b], e.job.value.requestId) then found[b := truncated] else found
    ensures Marked(Apply(e, ServiceNode(b, records, truncated)), taken, next)
  {
    var f := Apply(e, ServiceNode(b, records, truncated));
    forall x | x in f.nodes
      ensures BoardMarked(f, taken, next, x)
    {
      assert BoardMarked(e, taken, found, x);
      if x == b && b in next {
        assert BoardKept(e, b);
        NodeServiceMarks(e.nodes[b], e.job.value.requestId, records, truncated, next[b]);
      }
    }
  }

  lemma ReceiveMarks(e: Export, b: BoardId, taken: seq<(BoardId, Chunk)>, found: map<BoardId, bool>,
                     more: seq<(BoardId, Chunk)>)
    requires Kept(e) && Marked(e, taken, found) && Enabled(e, Receive(b))
    requires var reply := e.nodes[b].replies[0];
             more == taken + if reply.requestId == e.job.value.requestId then [(b, reply)] else []
    ensures Marked(Apply(e, Receive(b)), more, found)
  {
    var f := Apply(e, Receive(b));
    forall x | x in f.nodes
      ensures BoardMarked(f, more, found, x)
    {
      assert BoardMarked(e, taken, found, x);
      if x == b {
        ReceiveMarksSelf(e, b, taken, found, more);
      }
    }
  }

  lemma ChunkLeaves(n: Node, id: nat, flag: bool)
    requires n.replies != [] && MarkedAt(n, id, flag)
    ensures MarkedAt(n.(replies := n.replies[1..]), id, flag)
    ensures n.replies[0].requestId == id ==> n.replies[0].truncated == flag
  {
    var head := if n.replies[0].requestId == id then [n.replies[0]] else [];
    var left := ChunksOf(n.replies[1..], id);
    assert ChunksOf(n.replies, id) == head + left;
    assert forall i | 0 <= i < |left| :: (head + left)[|head| + i] == left[i];
    assert head != [] ==> (head + left)[0] == n.replies[0];
  }

  lemma ReceiveMarksSelf(e: Export, b: BoardId, taken: seq<(BoardId, Chunk)>, found: map<BoardId, bool>,
                         more: seq<(BoardId, Chunk)>)
    requires Kept(e) && Marked(e, taken, found) && Enabled(e, Receive(b))
    requires var reply := e.nodes[b].replies[0];
             more == taken + if reply.requestId == e.job.value.requestId then [(b, reply)] else []
    ensures BoardMarked(Apply(e, Receive(b)), more, found, b)
  {
    var n, id := e.nodes[b], e.job.value.requestId;
    assert BoardMarked(e, taken, found, b);
    if n.replies[0].requestId == id {
      assert BoardKept(e, b);
      FirstIsMine(n, id, b in e.asked, b in e.job.value.expected, FromBoard(e.tagged, b), AnswerOf(e, b));
    }
    if b in found {
      ChunkLeaves(n, id, found[b]);
    }
  }

  lemma {:induction false} RunMarked(boards: set<BoardId>, actions: seq<Action>)
    requires Possible(boards, actions)
    ensures Marked(Run(boards, actions), Taken(boards, actions), FoundTruncated(boards, actions))
    decreases |actions|
  {
    if actions != [] {
      var before, a := actions[..|actions| - 1], actions[|actions| - 1];
      var e := Run(boards, before);
      var taken, found := Taken(boards, before), FoundTruncated(boards, before);
      RunMarked(boards, before);
      RunKept(boards, before);
      if a.ServiceNode? && e.job.Some? {
        ServiceMarks(e, a.board, a.records, a.truncated, taken, found, FoundTruncated(boards, actions));
      } else if a.Receive? {
        ReceiveMarks(e, a.board, taken, found, Taken(boards, actions));
      } else if a.Start? {
        StartMarks(e, a);
      } else {
        OtherMarks(e, a, taken, found);
      }
    }
  }

  lemma StartMarks(e: Export, a: Action)
    requires Kept(e) && a.Start? && Enabled(e, a)
    ensures Marked(Apply(e, a), [], map[])
  {
  }

  lemma OtherMarks(e: Export, a: Action, taken: seq<(BoardId, Chunk)>, found: map<BoardId, bool>)
    requires Marked(e, taken, found) && Enabled(e, a) && !a.Start? && !a.Receive?
    requires a.ServiceNode? ==> e.job.None?
    ensures Marked(Apply(e, a), taken, found)
  {
    var f := Apply(e, a);
    if e.job.Some? {
      forall x | x in f.nodes
        ensures BoardMarked(f, taken, found, x)
      {
        assert BoardMarked(e, taken, found, x);
      }
    }
  }

  /** Over every run: when a job has finished without failure, it is marked truncated exactly if the
      log of some board asked was cut short when the board took the request up. */
  lemma TruncationIsReported(boards: set<BoardId>, actions: seq<Action>)
    requires Possible(boards, actions) && Succeeded(Run(boards, actions))
    ensures var e := Run(boards, actions);
            var found := FoundTruncated(boards, actions);
            found.Keys == e.asked && (e.job.value.truncated <==> exists b | b in e.asked :: found[b])
  {
    var e := Run(boards, actions);
    var taken, found := Taken(boards, actions), FoundTruncated(boards, actions);
    RunKept(boards, actions);
    RunMarked(boards, actions);
    JobTells(boards, actions);
    FinishedExportIsComplete(boards, actions);
    forall b | b in e.asked
      ensures found[b] <==> exists i | 0 <= i < |taken| :: taken[i].0 == b && taken[i].1.truncated
    {
      assert BoardMarked(e, taken, found, b);
      assert b !in Unfinished(e.asked, taken);
    }
    forall i | 0 <= i < |taken|
      ensures taken[i].0 in e.asked
    {
      TakenIsAsked(boards, actions, i);
    }
  }

  lemma {:induction false} TakenIsAsked(boards: set<BoardId>, actions: seq<Action>, i: nat)
    requires Possible(boards, actions) && i < |Taken(boards, actions)|
    ensures Taken(boards, actions)[i].0 in Run(boards, actions).asked
    decreases |actions|
  {
    var before, a := actions[..|actions| - 1], actions[|actions| - 1];
    var e := Run(boards, before);
    if i < |Taken(boards, before)| && !a.Start? {
      TakenIsAsked(boards, before, i);
    } else if a.Receive? {
      RunKept(boards, before);
      assert BoardKept(e, a.board);
      FirstIsMine(e.nodes[a.board], e.job.value.requestId, a.board in e.asked, a.board in e.job.value.expected,
                  FromBoard(e.tagged, a.board), AnswerOf(e, a.board));
    }
  }

  // ---- the size of what is sent ----

  predicate AllFit(replies: seq<Chunk>) {
    forall i | 0 <= i < |replies| :: |replies[i].records| <= QUERY_CHUNK
  }

  lemma {:induction false} TickFits(n: Node, k: nat)
    requires Sendable(n) && AllFit(n.replies)
    ensures AllFit(SendTick(n, k).replies) && n.replies <= SendTick(n, k).replies
    ensures |SendTick(n, k).replies| <= |n.replies| + k
    decreases k
  {
    if k != 0 && n.out.Some? {
      TickFits(SendOne(n), k - 1);
    }
  }

  ghost predicate NodesFit(e: Export) {
    forall b | b in e.nodes :: Sendable(e.nodes[b]) && AllFit(e.nodes[b].replies)
  }

  lemma StepFits(e: Export, a: Action)
    requires NodesFit(e) && Enabled(e, a)
    ensures NodesFit(Apply(e, a))
    ensures a.ServiceNode? ==>
              |Apply(e, a).nodes[a.board].replies| <= |e.nodes[a.board].replies| + CSV_CHUNKS_PER_TICK
  {
    if a.ServiceNode? {
      TickFits(TakeQueries(e.nodes[a.board], a.records, a.truncated), CSV_CHUNKS_PER_TICK);
    }
  }

  /** In every run no chunk carries more records than a message holds, and no board sends more chunks
      at a time than it may. */
  lemma {:induction false} ChunksFit(boards: set<BoardId>, actions: seq<Action>)
    requires Possible(boards, actions)
    ensures NodesFit(Run(boards, actions))
    ensures actions != [] && actions[|actions| - 1].ServiceNode? ==>
              var b := actions[|actions| - 1].board;
              var before, after := Run(boards, actions[..|actions| - 1]), Run(boards, actions);
              b in before.nodes && b in after.nodes &&
              |after.nodes[b].replies| <= |before.nodes[b].replies| + CSV_CHUNKS_PER_TICK
    decreases |actions|
  {
    if actions != [] {
      var before := actions[..|actions| - 1];
      ChunksFit(boards, before);
      StepFits(Run(boards, before), actions[|actions| - 1]);
    }
  }
}
