/** The test client's UART stream (python/systemtest/systemtest/simulation.py, uart.py): an
    incremental fetch from the probe log, and reads that consume each word once. */
module UartFetch {
  import opened Prelude

  type byte = x: int | 0 <= x < 256

  /** One logged UART word. */
  datatype Sample = Sample(time: u64, value: nat)

  datatype Word = Word(time: u64, byte: byte, consumed: bool)

  const NEWLINE: byte := 0x0A
  const RETURN: byte := 0x0D

  // ---- fetching ----

  ghost predicate InTimeOrder(log: seq<Sample>) {
    forall i, j | 0 <= i < j < |log| :: log[i].time <= log[j].time
  }

  /** The samples of a log between two times, in log order. */
  function Range(log: seq<Sample>, from: u64, to: u64): seq<Sample> {
    if log == [] then []
    else
      Range(log[..|log| - 1], from, to) +
      (var s := log[|log| - 1]; if from <= s.time <= to then [s] else [])
  }

  function AsWord(s: Sample): Word {
    Word(s.time, s.value % 256, false)
  }

  /** What a word shows, whether read or not. */
  function Shown(words: seq<Word>): (r: seq<Word>)
    ensures |r| == |words| && forall i | 0 <= i < |r| :: r[i] == words[i].(consumed := false)
  {
    seq(|words|, i requires 0 <= i < |words| => words[i].(consumed := false))
  }

  function AsWords(samples: seq<Sample>): (r: seq<Word>)
    ensures |r| == |samples| && forall i | 0 <= i < |r| :: r[i] == AsWord(samples[i])
  {
    seq(|samples|, i requires 0 <= i < |samples| => AsWord(samples[i]))
  }

  function CountAt(words: seq<Word>, time: u64): nat {
    if words == [] then 0
    else CountAt(words[..|words| - 1], time) + if words[|words| - 1].time == time then 1 else 0
  }

  /** The samples of a reply that are new: those after `lastTime`, and those at `lastTime` beyond
      the first `known`. `seen` counts the ones at `lastTime` so far. */
  function NewSamples(payload: seq<Sample>, lastTime: u64, known: nat, seen: nat): seq<Sample>
    decreases |payload|
  {
    if payload == [] then []
    else
      var s := payload[0];
      if s.time < lastTime then NewSamples(payload[1..], lastTime, known, seen)
      else if s.time == lastTime then
        (if seen + 1 <= known then [] else [s]) + NewSamples(payload[1..], lastTime, known, seen + 1)
      else [s] + NewSamples(payload[1..], lastTime, known, seen)
  }

  function Sync(words: seq<Word>, log: seq<Sample>, now: u64): seq<Word> {
    if words == [] then AsWords(Range(log, 0, now))
    else
      var last := words[|words| - 1].time;
      words + AsWords(NewSamples(Range(log, last, now), last, CountAt(words, last), 0))
  }

  // ---- reading ----

  predicate IsVisible(w: Word, from: Option<u64>) {
    !w.consumed && (from.None? || from.value <= w.time)
  }

  /** Positions of the unread words in the window. */
  function Visible(words: seq<Word>, from: Option<u64>): (r: seq<nat>)
    ensures forall k | 0 <= k < |r| :: r[k] < |words| && IsVisible(words[r[k]], from)
    ensures forall i | 0 <= i < |words| && IsVisible(words[i], from) :: i in r
    ensures forall j, k | 0 <= j < k < |r| :: r[j] < r[k]
  {
    if words == [] then []
    else
      var n := |words| - 1;
      Visible(words[..n], from) + if IsVisible(words[n], from) then [n] else []
  }

  function Consume(words: seq<Word>, taken: seq<nat>): (r: seq<Word>)
    ensures |r| == |words|
    ensures forall i | 0 <= i < |r| :: r[i] == words[i].(consumed := words[i].consumed || i in taken)
  {
    seq(|words|, i requires 0 <= i < |words| => words[i].(consumed := words[i].consumed || i in taken))
  }

  function BytesAt(words: seq<Word>, taken: seq<nat>): (r: seq<byte>)
    requires forall k | 0 <= k < |taken| :: taken[k] < |words|
    ensures |r| == |taken| && forall k | 0 <= k < |r| :: r[k] == words[taken[k]].byte
  {
    seq(|taken|, k requires 0 <= k < |taken| => words[taken[k]].byte)
  }

  /** The words `read` takes; none if there are not enough. */
  function ReadTakes(words: seq<Word>, count: int, from: Option<u64>): seq<nat> {
    var visible := Visible(words, from);
    if count <= 0 || |visible| < count then [] else visible[..count]
  }

  /** Number of words up to and including the first line feed, `0` if there is none. */
  function LineLength(words: seq<Word>, positions: seq<nat>): (n: nat)
    requires forall k | 0 <= k < |positions| :: positions[k] < |words|
    ensures n <= |positions|
    ensures n == 0 <==> forall k | 0 <= k < |positions| :: words[positions[k]].byte != NEWLINE
    ensures n > 0 ==> words[positions[n - 1]].byte == NEWLINE &&
                      forall k | 0 <= k < n - 1 :: words[positions[k]].byte != NEWLINE
    decreases |positions|
  {
    if positions == [] then 0
    else
      var front := positions[..|positions| - 1];
      var n := LineLength(words, front);
      if n > 0 then n
      else if words[positions[|positions| - 1]].byte == NEWLINE then |positions|
      else 0
  }

  function LineTakes(words: seq<Word>, from: Option<u64>): (taken: seq<nat>) {
    Visible(words, from)[..LineLength(words, Visible(words, from))]
  }

  /** A line without its line feed and a carriage return before it. */
  function StripLine(bytes: seq<byte>): seq<byte>
    requires bytes != []
  {
    var raw := bytes[..|bytes| - 1];
    if raw != [] && raw[|raw| - 1] == RETURN then raw[..|raw| - 1] else raw
  }

  // ---- the incremental fetch is the full fetch ----

  lemma {:induction false} RangeAll(log: seq<Sample>, from: u64, to: u64)
    requires forall i | 0 <= i < |log| :: from <= log[i].time <= to
    ensures Range(log, from, to) == log
  {
    if log != [] {
      RangeAll(log[..|log| - 1], from, to);
      assert log == log[..|log| - 1] + [log[|log| - 1]];
    }
  }

  lemma {:induction false} RangeNone(log: seq<Sample>, from: u64, to: u64)
    requires forall i | 0 <= i < |log| :: !(from <= log[i].time <= to)
    ensures Range(log, from, to) == []
  {
    if log != [] {
      RangeNone(log[..|log| - 1], from, to);
    }
  }

  lemma {:induction false} RangeConcat(a: seq<Sample>, b: seq<Sample>, from: u64, to: u64)
    ensures Range(a + b, from, to) == Range(a, from, to) + Range(b, from, to)
    decreases |b|
  {
    if b == [] {
      assert a + b == a;
    } else {
      RangeConcat(a, b[..|b| - 1], from, to);
      assert (a + b)[..|a + b| - 1] == a + b[..|b| - 1];
    }
  }

  /** In time order, what a query from the start returns is a prefix of the log. */
  lemma {:induction false} RangeIsPrefix(log: seq<Sample>, now: u64) returns (n: nat)
    requires InTimeOrder(log)
    ensures n <= |log| && Range(log, 0, now) == log[..n]
    ensures (forall i | 0 <= i < n :: log[i].time <= now) && forall i | n <= i < |log| :: now < log[i].time
  {
    if log == [] {
      n := 0;
    } else {
      n := RangeIsPrefix(log[..|log| - 1], now);
      if log[|log| - 1].time <= now {
        n := |log|;
        RangeAll(log, 0, now);
      }
    }
  }

  lemma {:induction false} NewSamplesConcat(a: seq<Sample>, b: seq<Sample>, last: u64, known: nat, seen: nat)
    requires forall i | 0 <= i < |a| :: a[i].time == last
    ensures NewSamples(a + b, last, known, seen) ==
            NewSamples(a, last, known, seen) + NewSamples(b, last, known, seen + |a|)
    decreases |a|
  {
    if a == [] {
      assert a + b == b;
    } else {
      NewSamplesConcat(a[1..], b, last, known, seen + 1);
      assert (a + b)[1..] == a[1..] + b;
    }
  }

  lemma {:induction false} KnownAreSkipped(a: seq<Sample>, last: u64, known: nat, seen: nat)
    requires (forall i | 0 <= i < |a| :: a[i].time == last) && seen + |a| <= known
    ensures NewSamples(a, last, known, seen) == []
    decreases |a|
  {
    if a != [] {
      KnownAreSkipped(a[1..], last, known, seen + 1);
    }
  }

  lemma {:induction false} LaterAreNew(b: seq<Sample>, last: u64, known: nat, seen: nat)
    requires (forall i | 0 <= i < |b| :: last <= b[i].time) && known <= seen
    ensures NewSamples(b, last, known, seen) == b
    decreases |b|
  {
    if b != [] {
      LaterAreNew(b[1..], last, known, if b[0].time == last then seen + 1 else seen);
      assert b == [b[0]] + b[1..];
    }
  }

  lemma {:induction false} CountIsTail(words: seq<Word>, time: u64) returns (k: nat)
    requires forall i, j | 0 <= i < j < |words| :: words[i].time <= words[j].time
    requires words != [] ==> words[|words| - 1].time <= time
    ensures k == CountAt(words, time) <= |words|
    ensures (forall i | 0 <= i < |words| - k :: words[i].time < time) &&
            forall i | |words| - k <= i < |words| :: words[i].time == time
  {
    if words == [] {
      k := 0;
    } else if words[|words| - 1].time == time {
      k := CountIsTail(words[..|words| - 1], time);
      k := k + 1;
    } else {
      k := CountIsTail(words[..|words| - 1], time);
    }
  }

  /** The stream holds the log up to `now`. */
  ghost predicate Holds(words: seq<Word>, log: seq<Sample>, now: u64) {
    Shown(words) == AsWords(Range(log, 0, now))
  }

  /** A log of samples before `last`, at `last`, and from `last` on. */
  lemma PayloadSplits(early: seq<Sample>, known: seq<Sample>, rest: seq<Sample>, last: u64, now: u64)
    requires (forall i | 0 <= i < |early| :: early[i].time < last) &&
             forall i | 0 <= i < |known| :: known[i].time == last
    requires last <= now
    ensures Range(early + known + rest, last, now) == known + Range(rest, last, now)
  {
    RangeConcat(early + known, rest, last, now);
    RangeConcat(early, known, last, now);
    RangeNone(early, last, now);
    RangeAll(known, last, now);
    assert [] + known == known;
  }

  lemma FullSplits(front: seq<Sample>, rest: seq<Sample>, last: u64, now: u64)
    requires (forall i | 0 <= i < |front| :: front[i].time <= last) &&
             forall i | 0 <= i < |rest| :: last <= rest[i].time
    requires last <= now
    ensures Range(front + rest, 0, now) == front + Range(rest, last, now)
  {
    RangeConcat(front, rest, 0, now);
    RangeAll(front, 0, now);
    SameRange(rest, last, now);
  }

  lemma {:induction false} SameRange(s: seq<Sample>, last: u64, now: u64)
    requires forall i | 0 <= i < |s| :: last <= s[i].time
    ensures Range(s, 0, now) == Range(s, last, now)
  {
    if s != [] {
      SameRange(s[..|s| - 1], last, now);
    }
  }

  lemma PayloadIsNew(early: seq<Sample>, known: seq<Sample>, rest: seq<Sample>, last: u64, now: u64)
    requires (forall i | 0 <= i < |early| :: early[i].time < last) &&
             forall i | 0 <= i < |known| :: known[i].time == last
    requires last <= now && forall i | 0 <= i < |rest| :: last <= rest[i].time
    ensures NewSamples(Range(early + known + rest, last, now), last, |known|, 0) == Range(rest, last, now)
  {
    PayloadSplits(early, known, rest, last, now);
    NewSamplesConcat(known, Range(rest, last, now), last, |known|, 0);
    KnownAreSkipped(known, last, |known|, 0);
    RangeFrom(rest, last, now);
    LaterAreNew(Range(rest, last, now), last, |known|, |known|);
  }

  lemma WordsHold(words: seq<Word>, front: seq<Sample>, added: seq<Sample>)
    requires Shown(words) == AsWords(front)
    ensures Shown(words + AsWords(added)) == AsWords(front + added)
  {
    var all := words + AsWords(added);
    forall i | 0 <= i < |all| ensures Shown(all)[i] == AsWord((front + added)[i]) {
      if i < |words| {
        assert Shown(words)[i] == AsWords(front)[i];
      }
    }
  }

  /** A non-empty stream: its last instant splits the samples it holds. */
  lemma LastInstant(words: seq<Word>, front: seq<Sample>) returns (k: nat)
    requires words != [] && Shown(words) == AsWords(front)
    requires forall i, j | 0 <= i < j < |front| :: front[i].time <= front[j].time
    ensures var last := words[|words| - 1].time;
            k == CountAt(words, last) <= |front| && last == front[|front| - 1].time &&
            (forall i | 0 <= i < |front| - k :: front[i].time < last) &&
            forall i | |front| - k <= i < |front| :: front[i].time == last
  {
    forall i | 0 <= i < |front| ensures words[i].time == front[i].time {
      assert Shown(words)[i] == AsWords(front)[i];
    }
    k := CountIsTail(words, words[|words| - 1].time);
  }

  lemma SplitOrder(front: seq<Sample>, rest: seq<Sample>)
    requires InTimeOrder(front + rest) && front != []
    ensures forall i, j | 0 <= i < j < |front| :: front[i].time <= front[j].time
    ensures forall i | 0 <= i < |rest| :: front[|front| - 1].time <= rest[i].time
  {
    var all := front + rest;
    forall i, j | 0 <= i < j < |front| ensures front[i].time <= front[j].time {
      assert all[i] == front[i] && all[j] == front[j];
    }
    forall i | 0 <= i < |rest| ensures front[|front| - 1].time <= rest[i].time {
      assert all[|front| - 1] == front[|front| - 1] && all[|front| + i] == rest[i];
    }
  }

  /** The reply holds the known samples of the last instant, then what is new. */
  lemma ReplyIsNew(front: seq<Sample>, rest: seq<Sample>, k: nat, last: u64, now: u64)
    requires k <= |front| && last <= now
    requires (forall i | 0 <= i < |front| - k :: front[i].time < last) &&
             forall i | |front| - k <= i < |front| :: front[i].time == last
    requires forall i | 0 <= i < |rest| :: last <= rest[i].time
    ensures NewSamples(Range(front + rest, last, now), last, k, 0) == Range(rest, last, now)
  {
    var early, known := front[..|front| - k], front[|front| - k..];
    assert early + known == front;
    PayloadIsNew(early, known, rest, last, now);
  }

  lemma SyncTail(words: seq<Word>, front: seq<Sample>, rest: seq<Sample>, now: u64)
    requires words != [] && Shown(words) == AsWords(front) && InTimeOrder(front + rest)
    requires front[|front| - 1].time <= now
    ensures Holds(Sync(words, front + rest, now), front + rest, now)
  {
    SplitOrder(front, rest);
    var last := words[|words| - 1].time;
    var k := LastInstant(words, front);
    ReplyIsNew(front, rest, k, last, now);
    FullSplits(front, rest, last, now);
    WordsHold(words, front, Range(rest, last, now));
  }

  /** The stream shows the beginning of the log. */
  ghost predicate IsPrefix(words: seq<Word>, log: seq<Sample>) {
    |words| <= |log| && Shown(words) == AsWords(log[..|words|])
  }

  /** The last word is not after `now`. */
  predicate EndsBy(words: seq<Word>, now: u64) {
    words == [] || words[|words| - 1].time <= now
  }

  lemma HoldsIsPrefix(words: seq<Word>, log: seq<Sample>, now: u64)
    requires Holds(words, log, now) && InTimeOrder(log)
    ensures IsPrefix(words, log) && EndsBy(words, now)
  {
    var n := RangeIsPrefix(log, now);
    assert |words| == |Shown(words)| == n;
    if n > 0 {
      assert Shown(words)[n - 1] == AsWords(log[..n])[n - 1];
    }
  }

  /** A query that ends before the last word known brings nothing new, and nothing is missing. */
  lemma SyncBefore(words: seq<Word>, log: seq<Sample>, now: u64)
    requires IsPrefix(words, log) && InTimeOrder(log) && !EndsBy(words, now)
    ensures Sync(words, log, now) == words && |Range(log, 0, now)| <= |words|
  {
    var last := words[|words| - 1].time;
    RangeNone(log, last, now);
    assert AsWords([]) == [];
    assert Shown(words)[|words| - 1] == AsWords(log[..|words|])[|words| - 1];
    var n := RangeIsPrefix(log, now);
  }

  /** One incremental fetch, of a log that has only grown in time order and whatever the end of
      the query: the stream stays a prefix of the log and has everything up to the end of the
      query; unless it was ahead of that before, it has exactly that. */
  lemma {:induction false} SyncIsFullFetch(words: seq<Word>, log: seq<Sample>, grown: seq<Sample>, now: u64)
    requires IsPrefix(words, log) && InTimeOrder(log + grown)
    ensures IsPrefix(Sync(words, log + grown, now), log + grown)
    ensures |Range(log + grown, 0, now)| <= |Sync(words, log + grown, now)|
    ensures EndsBy(words, now) ==> Holds(Sync(words, log + grown, now), log + grown, now)
    ensures !EndsBy(words, now) ==> Sync(words, log + grown, now) == words
  {
    var all := log + grown;
    assert log[..|words|] == all[..|words|];
    if !EndsBy(words, now) {
      SyncBefore(words, all, now);
    } else {
      if words == [] {
        var full := AsWords(Range(all, 0, now));
        assert Shown(full) == full;
      } else {
        var front := all[..|words|];
        assert all == front + all[|words|..];
        assert Shown(words)[|words| - 1] == AsWords(front)[|words| - 1];
        SyncTail(words, front, all[|words|..], now);
      }
      HoldsIsPrefix(Sync(words, all, now), all, now);
    }
  }

  lemma {:induction false} RangeFrom(s: seq<Sample>, from: u64, to: u64)
    ensures forall i | 0 <= i < |Range(s, from, to)| :: from <= Range(s, from, to)[i].time <= to
  {
    if s != [] {
      RangeFrom(s[..|s| - 1], from, to);
    }
  }

  // ---- whole runs ----

  datatype Call = DoSync(grown: seq<Sample>, now: u64) | DoRead(count: int,
      from: Option<u64>) | DoReadline(from: Option<u64>)

  /** A stream with the log behind it: positions delivered so far, in order. */
  datatype Client = Client(words: seq<Word>, log: seq<Sample>, now: u64, delivered: seq<nat>)

  const FreshClient := Client([], [], 0, [])

  function Take(c: Client, taken: seq<nat>): Client {
    c.(words := Consume(c.words, taken), delivered := c.delivered + taken)
  }

  function Invoke(c: Client, call: Call): Client {
    match call
    case DoSync(grown, now) => Client(Sync(c.words, c.log + grown, now), c.log + grown, now, c.delivered)
    case DoRead(count, from) => Take(c, ReadTakes(c.words, count, from))
    case DoReadline(from) => Take(c, LineTakes(c.words, from))
  }

  function Run(calls: seq<Call>): Client {
    if calls == [] then FreshClient else Invoke(Run(calls[..|calls| - 1]), calls[|calls| - 1])
  }

  /** The log grows in time order. */
  ghost predicate Orderly(calls: seq<Call>) {
    calls == [] ||
    (Orderly(calls[..|calls| - 1]) &&
     (calls[|calls| - 1].DoSync? ==> InTimeOrder(Run(calls[..|calls| - 1]).log + calls[|calls| - 1].grown)))
  }

  /** The query end never goes back. */
  predicate Advancing(calls: seq<Call>) {
    calls == [] ||
    (Advancing(calls[..|calls| - 1]) &&
     (calls[|calls| - 1].DoSync? ==> Run(calls[..|calls| - 1]).now <= calls[|calls| - 1].now))
  }

  ghost predicate DeliveredOnce(c: Client) {
    (forall i, j | 0 <= i < j < |c.delivered| :: c.delivered[i] != c.delivered[j]) &&
    forall i :: i in c.delivered <==> 0 <= i < |c.words| && c.words[i].consumed
  }

  lemma TakeKeeps(c: Client, taken: seq<nat>)
    requires DeliveredOnce(c)
    requires forall k | 0 <= k < |taken| :: taken[k] < |c.words| && !c.words[taken[k]].consumed
    requires forall j, k | 0 <= j < k < |taken| :: taken[j] < taken[k]
    ensures DeliveredOnce(Take(c, taken)) && Shown(Take(c, taken).words) == Shown(c.words)
  {
    var all := c.delivered + taken;
    forall i, j | 0 <= i < j < |all| ensures all[i] != all[j] {
      if i < |c.delivered| <= j {
        assert all[i] in c.delivered;
        assert all[j] == taken[j - |c.delivered|];
      }
    }
    forall i ensures i in all <==> 0 <= i < |c.words| && Take(c, taken).words[i].consumed {
      assert i in all <==> i in c.delivered || i in taken;
    }
  }

  lemma {:induction false} SyncKeepsFlags(words: seq<Word>, log: seq<Sample>, now: u64)
    ensures words <= Sync(words, log, now)
    ensures forall i | |words| <= i < |Sync(words, log, now)| :: !Sync(words, log, now)[i].consumed
  {
  }

  /** The stream is a prefix of the log with everything up to the last query end, and exactly that
      if its last word is not after it; every word is delivered once. */
  ghost predicate Faithful(c: Client) {
    InTimeOrder(c.log) && IsPrefix(c.words, c.log) && |Range(c.log, 0, c.now)| <= |c.words| &&
    (EndsBy(c.words, c.now) ==> Holds(c.words, c.log, c.now)) && DeliveredOnce(c)
  }

  lemma SyncIsFaithful(c: Client, grown: seq<Sample>, now: u64)
    requires Faithful(c) && InTimeOrder(c.log + grown)
    ensures Faithful(Invoke(c, DoSync(grown, now)))
  {
    SyncIsFullFetch(c.words, c.log, grown, now);
    SyncKeepsFlags(c.words, c.log + grown, now);
  }

  lemma TakeIsFaithful(c: Client, taken: seq<nat>)
    requires Faithful(c)
    requires forall k | 0 <= k < |taken| :: taken[k] < |c.words| && !c.words[taken[k]].consumed
    requires forall j, k | 0 <= j < k < |taken| :: taken[j] < taken[k]
    ensures Faithful(Take(c, taken))
  {
    TakeKeeps(c, taken);
  }

  /** Over any run of fetches and reads of a log that grows in time order, wherever the queries
      end, the stream is a prefix of the log that has everything up to the last query end, and
      exactly that if its last word is not after it. Every word delivered was delivered once: the
      delivered positions are distinct, and they are the consumed words. */
  lemma {:induction false} StreamIsPrefix(calls: seq<Call>)
    requires Orderly(calls)
    ensures Faithful(Run(calls))
  {
    if calls == [] {
      assert Range([], 0, 0) == [];
    } else {
      var c := Run(calls[..|calls| - 1]);
      StreamIsPrefix(calls[..|calls| - 1]);
      match calls[|calls| - 1]
      case DoSync(grown, now) => SyncIsFaithful(c, grown, now);
      case DoRead(count, from) => TakeIsFaithful(c, ReadTakes(c.words, count, from));
      case DoReadline(from) => TakeIsFaithful(c, LineTakes(c.words, from));
    }
  }

  lemma {:induction false} EndsByQuery(calls: seq<Call>)
    requires Orderly(calls) && Advancing(calls)
    ensures EndsBy(Run(calls).words, Run(calls).now)
  {
    if calls != [] {
      var c, call := Run(calls[..|calls| - 1]), calls[|calls| - 1];
      EndsByQuery(calls[..|calls| - 1]);
      StreamIsPrefix(calls[..|calls| - 1]);
      if call.DoSync? {
        SyncIsFullFetch(c.words, c.log, call.grown, call.now);
        HoldsIsPrefix(Run(calls).words, Run(calls).log, call.now);
      }
    }
  }

  /** If the query end never goes back, the stream is exactly the log up to it. */
  lemma RunIsFaithful(calls: seq<Call>)
    requires Orderly(calls) && Advancing(calls)
    ensures Holds(Run(calls).words, Run(calls).log, Run(calls).now) && DeliveredOnce(Run(calls))
  {
    StreamIsPrefix(calls);
    EndsByQuery(calls);
  }

  /** Reads without a window. */
  predicate Unwindowed(calls: seq<Call>) {
    forall i | 0 <= i < |calls| :: match calls[i]
                                   case DoRead(_, from) => from.None?
                                   case DoReadline(from) => from.None?
                                   case _ => true
  }

  /** Exactly the first `n` words are consumed. */
  ghost predicate Frontier(words: seq<Word>, n: nat) {
    n <= |words| && forall i | 0 <= i < |words| :: words[i].consumed <==> i < n
  }

  lemma {:induction false} VisibleIsTail(words: seq<Word>, n: nat)
    requires Frontier(words, n)
    ensures |Visible(words, None)| == |words| - n
    ensures forall k | 0 <= k < |words| - n :: Visible(words, None)[k] == n + k
  {
    if words != [] {
      var m := |words| - 1;
      if n <= m {
        VisibleIsTail(words[..m], n);
      } else {
        VisibleIsTail(words[..m], m);
      }
    }
  }

  ghost predicate InOrder(c: Client) {
    Frontier(c.words, |c.delivered|) && forall i | 0 <= i < |c.delivered| :: c.delivered[i] == i
  }

  lemma SyncInOrder(c: Client, grown: seq<Sample>, now: u64)
    requires InOrder(c)
    ensures InOrder(Invoke(c, DoSync(grown, now)))
  {
    SyncKeepsFlags(c.words, c.log + grown, now);
  }

  lemma ReadInOrder(c: Client, m: nat)
    requires InOrder(c) && m <= |Visible(c.words, None)|
    ensures InOrder(Take(c, Visible(c.words, None)[..m]))
  {
    VisibleIsTail(c.words, |c.delivered|);
    TakeInOrder(c, m, Visible(c.words, None)[..m]);
  }

  /** Without windows, the words come out in log order and without gaps. */
  lemma {:induction false} UnwindowedReadsInOrder(calls: seq<Call>)
    requires Unwindowed(calls)
    ensures InOrder(Run(calls))
  {
    if calls != [] {
      var front, call := calls[..|calls| - 1], calls[|calls| - 1];
      var c := Run(front);
      assert forall i | 0 <= i < |front| :: front[i] == calls[i];
      UnwindowedReadsInOrder(front);
      match call
      case DoSync(grown, now) => SyncInOrder(c, grown, now);
      case DoRead(count, from) =>
        ReadInOrder(c, |ReadTakes(c.words, count, None)|);
        assert ReadTakes(c.words, count, None) == Visible(c.words, None)[..|ReadTakes(c.words, count, None)|];
      case DoReadline(from) => ReadInOrder(c, LineLength(c.words, Visible(c.words, None)));
    }
  }

  lemma TakeInOrder(c: Client, m: nat, taken: seq<nat>)
    requires Frontier(c.words, |c.delivered|) && forall i | 0 <= i < |c.delivered| :: c.delivered[i] == i
    requires |taken| == m && |c.delivered| + m <= |c.words| && forall k | 0 <= k < m :: taken[k] == |c.delivered| + k
    ensures Frontier(Take(c, taken).words, |c.delivered| + m)
    ensures forall i | 0 <= i < |c.delivered| + m :: Take(c, taken).delivered[i] == i
  {
    forall i | 0 <= i < |c.words| ensures i in taken <==> |c.delivered| <= i < |c.delivered| + m {
      if |c.delivered| <= i < |c.delivered| + m {
        assert taken[i - |c.delivered|] == i;
      }
    }
  }

  // ---- the client as it runs ----

  lemma NewSamplesStep(payload: seq<Sample>, last: u64, known: nat, i: nat, seen: nat)
    requires i < |payload|
    ensures var s := payload[i];
            NewSamples(payload[i..], last, known, seen) ==
            (if s.time < last || (s.time == last && seen + 1 <= known) then [] else [s]) +
            NewSamples(payload[i + 1..], last, known, if s.time == last then seen + 1 else seen)
  {
    assert payload[i..][1..] == payload[i + 1..];
  }

  lemma AsWordsAppend(samples: seq<Sample>, s: Sample)
    ensures AsWords(samples + [s]) == AsWords(samples) + [AsWord(s)]
  {
  }

  class UartStream {
    var words: seq<Word>

    constructor ()
      ensures words == []
    {
      words := [];
    }

    method Push(time: u64, value: nat)
      modifies this
      ensures words == old(words) + [AsWord(Sample(time, value))]
    {
      words := words + [Word(time, value % 256, false)];
    }

    method VisibleWords(from: Option<u64>) returns (positions: seq<nat>)
      ensures positions == Visible(words, from)
    {
      positions := [];
      var i := 0;
      while i < |words|
        invariant 0 <= i <= |words| && positions == Visible(words[..i], from)
      {
        assert words[..i + 1][..i] == words[..i] && words[..i + 1][i] == words[i];
        if IsVisible(words[i], from) {
          positions := positions + [i];
        }
        i := i + 1;
      }
      assert words[..i] == words;
    }

    /** `None` leaves every word unread. */
    method Read(count: int, from: Option<u64>) returns (bytes: Option<seq<byte>>)
      modifies this
      ensures words == Consume(old(words), ReadTakes(old(words), count, from))
      ensures bytes.None? <==> count > 0 && |Visible(old(words), from)| < count
      ensures bytes.Some? ==> bytes.value == BytesAt(old(words), ReadTakes(old(words), count, from))
    {
      if count <= 0 {
        assert Consume(words, []) == words;
        return Some([]);
      }
      var visible := VisibleWords(from);
      if |visible| < count {
        assert Consume(words, []) == words;
        return None;
      }
      bytes := Some(BytesAt(words, visible[..count]));
      words := Consume(words, visible[..count]);
    }

    /** The loop of `readline`: visible words up to and including the first line feed. */
    method FindLine(visible: seq<nat>) returns (n: nat)
      requires forall k | 0 <= k < |visible| :: visible[k] < |words|
      ensures n == LineLength(words, visible)
    {
      var i := 0;
      while i < |visible|
        invariant 0 <= i <= |visible| && LineLength(words, visible[..i]) == 0
      {
        assert visible[..i + 1][..i] == visible[..i];
        i := i + 1;
        if words[visible[i - 1]].byte == NEWLINE {
          LineLengthStays(words, visible, i);
          return i;
        }
      }
      assert visible[..i] == visible;
      n := 0;
    }

    /** The first complete line; without one, every word stays unread. */
    method Readline(from: Option<u64>) returns (line: Option<seq<byte>>)
      modifies this
      ensures words == Consume(old(words), LineTakes(old(words), from))
      ensures line.None? <==> LineTakes(old(words), from) == []
      ensures line.Some? ==> line.value == StripLine(BytesAt(old(words), LineTakes(old(words), from)))
    {
      var visible := VisibleWords(from);
      var n := FindLine(visible);
      var taken := visible[..n];
      if n == 0 {
        assert Consume(words, taken) == words;
        return None;
      }
      line := Some(StripLine(BytesAt(words, taken)));
      words := Consume(words, taken);
    }

    /** `Simulation._uart`: ask for the log from the last known word on and push what is new.
        Fails on a truncated log. */
    method Fetch(log: seq<Sample>, now: u64, truncated: bool) returns (ok: bool)
      modifies this
      ensures ok <==> !truncated
      ensures words == if truncated then old(words) else Sync(old(words), log, now)
    {
      if truncated {
        return false;
      }
      ok := true;
      if words == [] {
        var all := Range(log, 0, now);
        var i := 0;
        while i < |all|
          invariant 0 <= i <= |all| && words == AsWords(all[..i])
        {
          Push(all[i].time, all[i].value);
          AsWordsAppend(all[..i], all[i]);
          assert all[..i + 1] == all[..i] + [all[i]];
          i := i + 1;
        }
        assert all[..i] == all;
        return;
      }
      var last := words[|words| - 1].time;
      var atLast := CountAt(words, last);
      var payload := Range(log, last, now);
      ghost var added: seq<Sample> := [];
      var seenAtLast := 0;
      var i := 0;
      while i < |payload|
        invariant 0 <= i <= |payload| && words == old(words) + AsWords(added)
        invariant NewSamples(payload, last, atLast, 0) == added + NewSamples(payload[i..], last, atLast, seenAtLast)
      {
        NewSamplesStep(payload, last, atLast, i, seenAtLast);
        var s := payload[i];
        i := i + 1;
        if s.time == last {
          seenAtLast := seenAtLast + 1;
        }
        if s.time < last || (s.time == last && seenAtLast <= atLast) {
          continue;
        }
        Push(s.time, s.value);
        AsWordsAppend(added, s);
        added := added + [s];
      }
    }
  }

  lemma {:induction false} LineLengthStays(words: seq<Word>, positions: seq<nat>, n: nat)
    requires forall k | 0 <= k < |positions| :: positions[k] < |words|
    requires 0 < n <= |positions| && LineLength(words, positions[..n]) == n
    ensures LineLength(words, positions) == n
  {
    if n < |positions| {
      var front := positions[..|positions| - 1];
      assert front[..n] == positions[..n];
      LineLengthStays(words, front, n);
    } else {
      assert positions[..n] == positions;
    }
  }
}
