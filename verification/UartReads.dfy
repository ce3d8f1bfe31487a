/** What the reads of a UART stream return (python/systemtest/systemtest/uart.py): the first unread
    words of the window, the bytes that were logged, and the lines that were printed. */
module UartReads {
  import opened Prelude
  import opened UartFetch

  /** A read takes unread words of the window, in order, and none before them is left behind. */
  predicate TakesFirst(words: seq<Word>, taken: seq<nat>, from: Option<u64>) {
    (forall k | 0 <= k < |taken| :: taken[k] < |words| && IsVisible(words[taken[k]], from)) &&
    (forall j, k | 0 <= j < k < |taken| :: taken[j] < taken[k]) &&
    forall i, k | 0 <= k < |taken| && 0 <= i < taken[k] && IsVisible(words[i], from) :: i in taken[..k]
  }

  /** `all` are the positions of the unread words of the window, in order. */
  predicate AreVisible(words: seq<Word>, all: seq<nat>, from: Option<u64>) {
    (forall k | 0 <= k < |all| :: all[k] < |words| && IsVisible(words[all[k]], from)) &&
    (forall i | 0 <= i < |words| && IsVisible(words[i], from) :: i in all) &&
    forall j, k | 0 <= j < k < |all| :: all[j] < all[k]
  }

  lemma PrefixTakesFirst(words: seq<Word>, all: seq<nat>, from: Option<u64>, n: nat)
    requires AreVisible(words, all, from) && n <= |all|
    ensures TakesFirst(words, all[..n], from)
  {
    forall i, k | 0 <= k < n && 0 <= i < all[..n][k] && IsVisible(words[i], from)
      ensures i in all[..n][..k]
    {
      var j :| 0 <= j < |all| && all[j] == i;
      assert j < k;
      assert all[..n][..k][j] == i;
    }
  }

  /** There are `count` unread words in the window. */
  ghost predicate Enough(words: seq<Word>, from: Option<u64>, count: nat) {
    exists some: seq<nat> ::
      |some| == count && (forall k | 0 <= k < count :: some[k] < |words| && IsVisible(words[some[k]], from)) &&
      forall j, k | 0 <= j < k < count :: some[j] < some[k]
  }

  lemma {:induction false} CountedBy(all: seq<nat>, some: seq<nat>, n: nat)
    requires forall k | 0 <= k < |some| :: some[k] in all && some[k] < n
    requires forall j, k | 0 <= j < k < |all| :: all[j] < all[k]
    requires forall j, k | 0 <= j < k < |some| :: some[j] < some[k]
    ensures |some| <= |all|
    decreases n
  {
    if some != [] {
      var last := some[|some| - 1];
      var k :| 0 <= k < |all| && all[k] == last;
      forall i | 0 <= i < |some| - 1
        ensures some[i] in all[..k]
      {
        var j :| 0 <= j < |all| && all[j] == some[i];
        assert j < k;
        assert all[..k][j] == some[i];
      }
      CountedBy(all[..k], some[..|some| - 1], last);
    }
  }

  lemma EnoughIffCounted(words: seq<Word>, all: seq<nat>, from: Option<u64>, count: nat)
    requires AreVisible(words, all, from)
    ensures Enough(words, from, count) <==> count <= |all|
  {
    if count <= |all| {
      var some := all[..count];
      assert |some| == count;
    }
    if Enough(words, from, count) {
      var some: seq<nat> :|
        |some| == count && (forall k | 0 <= k < count :: some[k] < |words| && IsVisible(words[some[k]], from)) &&
        forall j, k | 0 <= j < k < count :: some[j] < some[k];
      CountedBy(all, some, |words|);
    }
  }

  /** `read` takes exactly as many words as asked for, the first unread ones of the window, and none
      if there are not that many. */
  lemma ReadIsExact(words: seq<Word>, count: int, from: Option<u64>)
    ensures var taken := ReadTakes(words, count, from);
            TakesFirst(words, taken, from) &&
            |taken| == if count > 0 && Enough(words, from, count) then count else 0
  {
    var all := Visible(words, from);
    var taken := ReadTakes(words, count, from);
    assert AreVisible(words, all, from);
    PrefixTakesFirst(words, all, from, |taken|);
    assert taken == all[..|taken|];
    if count > 0 {
      EnoughIffCounted(words, all, from, count);
    }
  }

  /** `readline` takes the first unread words of the window up to the first line feed among them, and
      none if there is none. */
  lemma LineIsExact(words: seq<Word>, from: Option<u64>)
    ensures var taken := LineTakes(words, from);
            TakesFirst(words, taken, from) &&
            (taken == [] ==> forall i | 0 <= i < |words| && IsVisible(words[i], from) :: words[i].byte != NEWLINE) &&
            (taken != [] ==> words[taken[|taken| - 1]].byte == NEWLINE) &&
            forall k | 0 <= k < |taken| - 1 :: words[taken[k]].byte != NEWLINE
  {
    var all := Visible(words, from);
    PrefixTakesFirst(words, all, from, LineLength(words, all));
    if LineTakes(words, from) == [] {
      forall i | 0 <= i < |words| && IsVisible(words[i], from)
        ensures words[i].byte != NEWLINE
      {
        var k :| 0 <= k < |all| && all[k] == i;
      }
    }
  }

  // ---- the bytes are those logged ----

  /** Over any run on a log that grows in time order, every word shows the instant and the low eight
      bits of the sample at its place in the log. */
  lemma WordsAreLogged(calls: seq<Call>, i: nat)
    requires Orderly(calls) && i < |Run(calls).words|
    ensures var c := Run(calls);
            i < |c.log| && c.words[i].time == c.log[i].time && c.words[i].byte == c.log[i].value % 256
  {
    StreamIsPrefix(calls);
    var c := Run(calls);
    assert Shown(c.words)[i] == AsWords(c.log[..|c.words|])[i];
  }

  // ---- the lines are those printed ----

  /** A line as a board prints it. */
  datatype Line = Line(text: seq<byte>, crlf: bool) {
    /** What tells the text from the line end. */
    predicate Plain() {
      NEWLINE !in text && (!crlf && text != [] ==> text[|text| - 1] != RETURN)
    }

    function End(): seq<byte> {
      var end: seq<byte> := [NEWLINE];
      if crlf then [RETURN] + end else end
    }

    function Printed(): seq<byte> {
      text + End()
    }
  }

  /** The bytes of a stream from position `p` on. */
  function BytesFrom(words: seq<Word>, p: nat): (r: seq<byte>)
    requires p <= |words|
    ensures |r| == |words| - p && forall k | 0 <= k < |r| :: r[k] == words[p + k].byte
  {
    seq<byte>(|words| - p, k requires 0 <= k < |words| - p => words[p + k].byte)
  }

  /** `m` positions from `p` on. */
  function Span(p: nat, m: nat): (r: seq<nat>)
    ensures |r| == m && forall k | 0 <= k < m :: r[k] == p + k
  {
    seq<nat>(m, k requires 0 <= k < m => p + k)
  }

  /** The first `m` of the bytes are one line with its end; for `m == 0` there is no whole line. */
  predicate LineEndsAt(bytes: seq<byte>, m: nat) {
    m <= |bytes| && (forall k | 0 <= k < m - 1 :: bytes[k] != NEWLINE) &&
    if m > 0 then bytes[m - 1] == NEWLINE else NEWLINE !in bytes
  }

  lemma LengthOfLine(words: seq<Word>, p: nat, m: nat, positions: seq<nat>)
    requires p <= |words| && LineEndsAt(BytesFrom(words, p), m)
    requires |positions| == |words| - p && forall k | 0 <= k < |positions| :: positions[k] == p + k
    ensures LineLength(words, positions) == m
  {
    var bytes, n := BytesFrom(words, p), LineLength(words, positions);
    assert forall k | 0 <= k < |positions| :: words[positions[k]].byte == bytes[k];
    if m > 0 {
      assert words[positions[m - 1]].byte == NEWLINE;
    }
    if n > 0 {
      assert bytes[n - 1] == NEWLINE;
    }
  }

  lemma FirstLine(words: seq<Word>, p: nat, m: nat)
    requires Frontier(words, p) && LineEndsAt(BytesFrom(words, p), m)
    ensures LineTakes(words, None) == Span(p, m)
  {
    VisibleIsTail(words, p);
    LineIsSpan(words, p, m, Visible(words, None));
  }

  lemma LineIsSpan(words: seq<Word>, p: nat, m: nat, positions: seq<nat>)
    requires p <= |words| && LineEndsAt(BytesFrom(words, p), m)
    requires |positions| == |words| - p && forall k | 0 <= k < |positions| :: positions[k] == p + k
    ensures positions[..LineLength(words, positions)] == Span(p, m)
  {
    LengthOfLine(words, p, m, positions);
  }

  lemma SpanBytes(words: seq<Word>, p: nat, m: nat)
    requires p + m <= |words|
    ensures BytesAt(words, Span(p, m)) == BytesFrom(words, p)[..m]
  {
  }

  lemma PrintedEnds(line: Line)
    requires line.Plain()
    ensures var printed := line.Printed();
            printed[|printed| - 1] == NEWLINE && (forall k | 0 <= k < |printed| - 1 :: printed[k] != NEWLINE) &&
            StripLine(printed) == line.text
  {
    var printed := line.Printed();
    if line.crlf {
      assert printed[..|printed| - 1] == line.text + [RETURN];
    } else {
      assert printed[..|printed| - 1] == line.text;
    }
  }

  lemma PrintedThenRest(line: Line, rest: seq<byte>)
    requires line.Plain()
    ensures var printed := line.Printed();
            LineEndsAt(printed + rest, |printed|) && (printed + rest)[..|printed|] == printed &&
            (printed + rest)[|printed|..] == rest && StripLine(printed) == line.text
  {
    var printed := line.Printed();
    PrintedEnds(line);
    assert forall k | 0 <= k < |printed| :: (printed + rest)[k] == printed[k];
  }

  /** What a call of `readline` takes and returns. */
  predicate ReadsLine(words: seq<Word>, after: seq<Word>, line: Option<seq<byte>>) {
    var taken := LineTakes(words, None);
    after == Consume(words, taken) &&
    line == if taken == [] then None else Some(StripLine(BytesAt(words, taken)))
  }

  lemma ReadsSpan(words: seq<Word>, p: nat, m: nat, after: seq<Word>, line: Option<seq<byte>>)
    requires LineTakes(words, None) == Span(p, m) && p + m <= |words| && ReadsLine(words, after, line)
    ensures after == Consume(words, Span(p, m))
    ensures line == if m == 0 then None else Some(StripLine(BytesAt(words, Span(p, m))))
  {
  }

  lemma LineOfBytes(words: seq<Word>, p: nat, m: nat, after: seq<Word>, line: Option<seq<byte>>)
    requires Frontier(words, p) && LineEndsAt(BytesFrom(words, p), m) && ReadsLine(words, after, line)
    ensures line == if m == 0 then None else Some(StripLine(BytesFrom(words, p)[..m]))
    ensures LineTakes(words, None) == Span(p, m)
  {
    FirstLine(words, p, m);
    ReadsSpan(words, p, m, after, line);
    SpanBytes(words, p, m);
  }

  /** The low bytes of samples. */
  function LowBytes(log: seq<Sample>): (r: seq<byte>)
    ensures |r| == |log| && forall k | 0 <= k < |r| :: r[k] == log[k].value % 256
  {
    seq(|log|, k requires 0 <= k < |log| => log[k].value % 256)
  }

  lemma PrefixBytes(words: seq<Word>, log: seq<Sample>, p: nat)
    requires IsPrefix(words, log) && p <= |words|
    ensures BytesFrom(words, p) == LowBytes(log[p..|words|])
  {
    var low := LowBytes(log[p..|words|]);
    forall k | 0 <= k < |words| - p
      ensures words[p + k].byte == low[k]
    {
      assert Shown(words)[p + k] == AsWords(log[..|words|])[p + k];
    }
  }

  /** Over any run, the unread bytes of the stream are the low bytes of the samples there. */
  lemma BytesAreLogged(calls: seq<Call>, c: Client, p: nat)
    requires Orderly(calls) && c == Run(calls) && p <= |c.words|
    ensures |c.words| <= |c.log| && BytesFrom(c.words, p) == LowBytes(c.log[p..|c.words|])
  {
    StreamIsPrefix(calls);
    PrefixBytes(c.words, c.log, p);
  }

  /** What has been fetched and not read. */
  function UnreadBytes(c: Client): seq<byte>
    requires |c.delivered| <= |c.words| <= |c.log|
  {
    LowBytes(c.log[|c.delivered|..|c.words|])
  }

  lemma ReadlineTakes(c: Client, m: nat, next: Client, taken: seq<nat>)
    requires next == Take(c, taken) && |taken| == m
    requires |c.delivered| + m <= |c.words| <= |c.log|
    ensures |next.delivered| == |c.delivered| + m <= |next.words| == |c.words| && next.log == c.log
    ensures UnreadBytes(next) == UnreadBytes(c)[m..]
  {
  }

  lemma ReadlineStep(calls: seq<Call>, m: nat, line: Option<seq<byte>>, c: Client, next: Client)
    requires Orderly(calls) && Unwindowed(calls) && c == Run(calls) && next == Invoke(c, DoReadline(None))
    requires |c.delivered| <= |c.words| <= |c.log| && LineEndsAt(UnreadBytes(c), m)
    requires ReadsLine(c.words, next.words, line)
    ensures |next.delivered| == |c.delivered| + m <= |next.words| == |c.words| && next.log == c.log
    ensures UnreadBytes(next) == UnreadBytes(c)[m..]
    ensures line == if m == 0 then None else Some(StripLine(UnreadBytes(c)[..m]))
  {
    UnwindowedReadsInOrder(calls);
    BytesAreLogged(calls, c, |c.delivered|);
    LineOfBytes(c.words, |c.delivered|, m, next.words, line);
    ReadlineTakes(c, m, next, LineTakes(c.words, None));
  }

  /** After any run of fetches and unwindowed reads on a log that grows in time order: if what has been
      fetched and not read begins with a printed line, `readline` returns its text without the line
      end and leaves what follows; if it holds no whole line, `readline` returns nothing and leaves it
      all. */
  lemma PrintedLineIsRead(calls: seq<Call>, printed: Option<Line>, rest: seq<byte>, read: Option<seq<byte>>,
                          c: Client, next: Client)
    requires Orderly(calls) && Unwindowed(calls) && c == Run(calls) && next == Run(calls + [DoReadline(None)])
    requires ReadsLine(c.words, next.words, read)
    requires |c.delivered| <= |c.words| <= |c.log|
    requires match printed
             case Some(line) => line.Plain() && UnreadBytes(c) == line.Printed() + rest
             case None => NEWLINE !in rest && UnreadBytes(c) == rest
    ensures |next.delivered| <= |next.words| <= |next.log| && UnreadBytes(next) == rest
    ensures read == if printed.Some? then Some(printed.value.text) else None
  {
    assert (calls + [DoReadline(None)])[..|calls|] == calls;
    match printed
    case Some(line) =>
      PrintedThenRest(line, rest);
      ReadlineStep(calls, |line.Printed()|, read, c, next);
    case None =>
      ReadlineStep(calls, 0, read, c, next);
  }
}
