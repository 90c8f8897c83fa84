/**
 What Classify promises, stated over the functions its contract uses: which counters move for
 empty, blank and ordinary lines, which parser wins, how penalties move, and that the queue
 keeps its parsers.
 */
module ClassifierProperties {
  import opened TrimSpace
  import opened ParserQueue
  import opened Classification

  /** An empty input leaves the result empty and every counter and the queue unchanged. */
  lemma EmptyInputChangesNothing(
    q: seq<QueueItem>, m: map<string, ParserStats>, s: ClassifierStats,
    parse: (string, seq<byte>) -> ParserReturn, classifyMicros: nat, parseMicros: nat)
    ensures ExpectedSummary(q, [], parse) == NoResult
    ensures QueueAfterClassify(q, [], parse) == q
    ensures ParserStatsAfter(m, q, [], parse, parseMicros) == m
    ensures AggregateAfter(s, [], NoResult, classifyMicros) == s
  {
  }

  /**
   A non-empty line of white space only tries no parser and counts one line: no bytes, no
   events, neither a success nor a failure.
   */
  lemma BlankLineCountsOnlyTheLine(
    q: seq<QueueItem>, m: map<string, ParserStats>, s: ClassifierStats, log: seq<byte>,
    parse: (string, seq<byte>) -> ParserReturn, classifyMicros: nat, parseMicros: nat)
    requires |log| > 0 && IsBlank(log)
    ensures ExpectedSummary(q, log, parse) == NoResult
    ensures QueueAfterClassify(q, log, parse) == q
    ensures ParserStatsAfter(m, q, log, parse, parseMicros) == m
    ensures AggregateAfter(s, log, NoResult, classifyMicros)
      == s.(classifyTimeMicroseconds := classifyMicros, logLineCount := s.logLineCount + 1)
  {
    TrimEmptyIffBlank(log);
  }

  /**
   A line with text counts exactly one of a success and a failure, a success exactly when some
   parser took it; bytes go up by the trimmed length and events by the number returned.
   */
  lemma TextLineCountsOneOutcome(
    q: seq<QueueItem>, s: ClassifierStats, log: seq<byte>,
    parse: (string, seq<byte>) -> ParserReturn, classifyMicros: nat)
    requires !IsBlank(log)
    ensures var r := ExpectedSummary(q, log, parse);
      var a := AggregateAfter(s, log, r, classifyMicros);
      && (r.logType.Some? ==>
            a.successfullyClassifiedCount == s.successfullyClassifiedCount + 1
            && a.classificationFailureCount == s.classificationFailureCount)
      && (r.logType.None? ==>
            a.classificationFailureCount == s.classificationFailureCount + 1
            && a.successfullyClassifiedCount == s.successfullyClassifiedCount)
      && (r.logType.Some? <==> FirstAccepting(q, Trim(log), parse) < |q|)
      && a.bytesProcessedCount == s.bytesProcessedCount + |Trim(log)|
      && a.eventCount == s.eventCount + |r.events|
      && a.logLineCount == s.logLineCount + 1
      && a.classifyTimeMicroseconds == classifyMicros
  {
    TrimEmptyIffBlank(log);
  }

  /**
   The winner is the first parser in queue order that takes the line. Its log type is the
   result's; a success hands back its events, a stream hands back the stream and no events;
   its counters gain one line, the trimmed bytes, and the events returned (none for a stream).
   */
  lemma WinnerOutcome(
    q: seq<QueueItem>, m: map<string, ParserStats>, log: seq<byte>,
    parse: (string, seq<byte>) -> ParserReturn, parseMicros: nat)
    requires !IsBlank(log)
    requires FirstAccepting(q, Trim(log), parse) < |q|
    ensures var line := Trim(log);
      var lt := q[FirstAccepting(q, line, parse)].logType;
      var p := SafeLogParse(lt, parse(lt, line));
      var r := ExpectedSummary(q, log, parse);
      var m' := ParserStatsAfter(m, q, log, parse, parseMicros);
      && r.logType == Some(lt)
      && (p.err.None? ==>
            r.events == p.events && r.stream == None
            && m' == Merged(m, ParserStats(parseMicros, |line|, 1, |p.events|, lt)))
      && (p.err.Some? ==>
            p.err.value.StreamResultsError? && r.events == [] && r.stream == Some(p.err.value.stream)
            && m' == Merged(m, ParserStats(parseMicros, |line|, 1, 0, lt)))
  {
    TrimEmptyIffBlank(log);
  }

  /**
   When every parser fails, the result is empty, no per-log-type counter changes, and the
   drained queue is refilled with every parser, each one penalty point higher.
   */
  lemma AllParsersFail(
    q: seq<QueueItem>, m: map<string, ParserStats>, log: seq<byte>,
    parse: (string, seq<byte>) -> ParserReturn, parseMicros: nat)
    requires !IsBlank(log)
    requires forall i | 0 <= i < |q| :: !Accepts(q[i].logType, Trim(log), parse)
    ensures ExpectedSummary(q, log, parse) == NoResult
    ensures ParserStatsAfter(m, q, log, parse, parseMicros) == m
    ensures multiset(QueueAfterClassify(q, log, parse)) == multiset(Bumped(q))
  {
    TrimEmptyIffBlank(log);
    var k := FirstAccepting(q, Trim(log), parse);
    assert k == |q|;
    QueueAfterIsAdjusted(q, k);
    assert q[..k] == q;
    assert Adjusted(q, k) == Bumped(q);
  }

  /**
   Parser by parser, for a line with text: every parser that failed before the winner gains
   exactly one penalty point, the winner's penalty is 0, and every later parser keeps its
   penalty. The queue keeps its length, its parsers, its order and its uniqueness.
   */
  lemma PenaltiesAfterClassify(q: seq<QueueItem>, log: seq<byte>, parse: (string, seq<byte>) -> ParserReturn, i: nat, p: nat)
    requires !IsBlank(log) && Distinct(q) && i < |q|
    ensures var k := FirstAccepting(q, Trim(log), parse);
      QueueItem(q[i].logType, p) in QueueAfterClassify(q, log, parse) <==>
        p == (if i < k then q[i].penalty + 1 else if i == k then 0 else q[i].penalty)
  {
    TrimEmptyIffBlank(log);
    PenaltyAfterClassify(q, FirstAccepting(q, Trim(log), parse), i, p);
  }

  /** Whatever the line, the queue afterwards holds the same parsers, ordered and unique as before. */
  lemma ClassifyKeepsParsers(q: seq<QueueItem>, log: seq<byte>, parse: (string, seq<byte>) -> ParserReturn)
    ensures |QueueAfterClassify(q, log, parse)| == |q|
    ensures LogTypes(QueueAfterClassify(q, log, parse)) == LogTypes(q)
    ensures Ordered(q) ==> Ordered(QueueAfterClassify(q, log, parse))
    ensures Distinct(q) ==> Distinct(QueueAfterClassify(q, log, parse))
  {
    var line := Trim(log);
    if |line| > 0 {
      var k := FirstAccepting(q, line, parse);
      QueueAfterIsAdjusted(q, k);
      QueueAfterSameParsers(q, k);
      QueueAfterValid(q, k);
    }
  }

  /** The parser that took a line is the first one tried on the next line. */
  lemma WinnerIsTriedFirstNext(q: seq<QueueItem>, log: seq<byte>, parse: (string, seq<byte>) -> ParserReturn)
    requires !IsBlank(log)
    requires FirstAccepting(q, Trim(log), parse) < |q|
    ensures QueueAfterClassify(q, log, parse)[0] == QueueItem(q[FirstAccepting(q, Trim(log), parse)].logType, 0)
  {
    TrimEmptyIffBlank(log);
    WinnerMovesToFront(q, FirstAccepting(q, Trim(log), parse));
  }
}
