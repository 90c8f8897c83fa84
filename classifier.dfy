/**
 The log classifier: for each log line it tries candidate parsers from the lowest penalty
 upward, keeps the first one that accepts the line, penalises the ones that failed, and
 keeps aggregate and per-log-type counters.

 Parsers are oracles: `parse(logType, line)` is what the parser registered for `logType`
 returns on `line`. Wall-clock durations are inputs (`classifyMicros`, `parseMicros`).
 */
module Classification {
  import opened TrimSpace
  import opened ParserQueue

  datatype Option<T> = None | Some(value: T)

  /** A parsed event; of its fields only the log type matters to the classifier. */
  datatype ParsedEvent = ParsedEvent(logType: string)

  /** The stream of results a streaming parser hands back instead of a list of events. */
  datatype StreamHandle = StreamHandle(id: nat)

  /** The errors a parser returns: a stream of results to be read later, or a plain failure. */
  datatype ParseError = StreamResultsError(stream: StreamHandle) | ParseFailure(message: string)

  /** What a parser call does: return events and an optional error, or panic. */
  datatype ParserReturn = Returned(events: seq<ParsedEvent>, err: Option<ParseError>) | Panicked(value: string)

  /** The results and error safeLogParse hands to the classifier. */
  datatype SafeParse = SafeParse(events: seq<ParsedEvent>, err: Option<ParseError>)

  /** Aggregate counters of a classifier. */
  datatype ClassifierStats = ClassifierStats(
    classifyTimeMicroseconds: nat,
    bytesProcessedCount: nat,
    logLineCount: nat,
    eventCount: nat,
    successfullyClassifiedCount: nat,
    classificationFailureCount: nat)

  /** Counters of one log type. */
  datatype ParserStats = ParserStats(
    parserTimeMicroseconds: nat,
    bytesProcessedCount: nat,
    logLineCount: nat,
    eventCount: nat,
    logType: string)

  /** The result of classifying one line; `events` is empty where the source leaves it nil. */
  datatype ClassifierResult = ClassifierResult(
    events: seq<ParsedEvent>,
    logType: Option<string>,
    stream: Option<ClassifierStream>)

  /** A classifier result with the stream object replaced by the parser's stream it wraps. */
  datatype ResultSummary = ResultSummary(
    events: seq<ParsedEvent>,
    logType: Option<string>,
    stream: Option<StreamHandle>)

  /** What one pull from a parser's result stream gives. */
  datatype StreamPull = Pulled(event: ParsedEvent) | PullFailed(error: string)

  /** What classifierStream.Next returns. */
  datatype NextResult = NextOk(event: ParsedEvent) | NextErr(error: string)

  const ZeroStats := ClassifierStats(0, 0, 0, 0, 0, 0)
  const NoResult := ResultSummary([], None, None)

  /**
   safeLogParse: a parser's error discards whatever events it returned, and a panic becomes
   a plain failure naming the parser.
   */
  function SafeLogParse(logType: string, ret: ParserReturn): (r: SafeParse)
    ensures r.err.None? <==> ret.Returned? && ret.err.None?
    ensures r.err.None? ==> r.events == ret.events
    ensures r.err.Some? ==> r.events == []
    ensures ret.Returned? && ret.err.Some? ==> r.err == ret.err
    ensures ret.Panicked? ==> r.err.Some? && r.err.value.ParseFailure?
  {
    match ret
    case Panicked(v) => SafeParse([], Some(ParseFailure("parser \"" + logType + "\" panic: " + v)))
    case Returned(events, err) => if err.Some? then SafeParse([], err) else SafeParse(events, None)
  }

  /** The parser for `logType` takes the line: it succeeded, or it handed back a stream. */
  predicate Accepts(logType: string, line: seq<byte>, parse: (string, seq<byte>) -> ParserReturn) {
    var p := SafeLogParse(logType, parse(logType, line));
    p.err.None? || p.err.value.StreamResultsError?
  }

  /** The position in the queue of the first parser that takes the line, or |q| when none does. */
  function FirstAccepting(q: seq<QueueItem>, line: seq<byte>, parse: (string, seq<byte>) -> ParserReturn): (k: nat)
    ensures k <= |q|
    ensures forall j | 0 <= j < k :: !Accepts(q[j].logType, line, parse)
    ensures k < |q| ==> Accepts(q[k].logType, line, parse)
  {
    if q == [] then 0
    else if Accepts(q[0].logType, line, parse) then 0
    else 1 + FirstAccepting(q[1..], line, parse)
  }

  /** updateStats as a function of the per-log-type map and the record to add. */
  function Merged(m: map<string, ParserStats>, s: ParserStats): (r: map<string, ParserStats>)
    ensures s.logType == "" ==> r == m
    ensures s.logType != "" ==> r.Keys == m.Keys + {s.logType}
    ensures s.logType != "" && s.logType !in m ==> r[s.logType] == s
    ensures s.logType != "" && s.logType in m ==>
      && r[s.logType].parserTimeMicroseconds == m[s.logType].parserTimeMicroseconds + s.parserTimeMicroseconds
      && r[s.logType].bytesProcessedCount == m[s.logType].bytesProcessedCount + s.bytesProcessedCount
      && r[s.logType].logLineCount == m[s.logType].logLineCount + s.logLineCount
      && r[s.logType].eventCount == m[s.logType].eventCount + s.eventCount
      && r[s.logType].logType == m[s.logType].logType
    ensures forall lt | lt in m && lt != s.logType :: r[lt] == m[lt]
  {
    var lt := s.logType;
    if lt == "" then m
    else if lt !in m then m[lt := s]
    else
      var e := m[lt];
      m[lt := e.(
        parserTimeMicroseconds := e.parserTimeMicroseconds + s.parserTimeMicroseconds,
        bytesProcessedCount := e.bytesProcessedCount + s.bytesProcessedCount,
        logLineCount := e.logLineCount + s.logLineCount,
        eventCount := e.eventCount + s.eventCount)]
  }

  /** Every per-log-type entry is filed under its own, non-empty log type. */
  ghost predicate StatsKeyed(m: map<string, ParserStats>) {
    forall lt | lt in m :: lt != "" && m[lt].logType == lt
  }

  lemma MergedKeepsKeyed(m: map<string, ParserStats>, s: ParserStats)
    requires StatsKeyed(m)
    ensures StatsKeyed(Merged(m, s))
  {
  }

  function Summary(r: ClassifierResult): ResultSummary {
    ResultSummary(r.events, r.logType, if r.stream.Some? then Some(r.stream.value.stream) else None)
  }

  /** The result of trying the parsers of `q` in order on a trimmed, non-blank line. */
  function LineSummary(q: seq<QueueItem>, line: seq<byte>, parse: (string, seq<byte>) -> ParserReturn): ResultSummary {
    var k := FirstAccepting(q, line, parse);
    if k == |q| then NoResult
    else
      var lt := q[k].logType;
      var p := SafeLogParse(lt, parse(lt, line));
      if p.err.None? then ResultSummary(p.events, Some(lt), None)
      else ResultSummary([], Some(lt), Some(p.err.value.stream))
  }

  /** The result Classify gives for `log` against the queue `q`. */
  function ExpectedSummary(q: seq<QueueItem>, log: seq<byte>, parse: (string, seq<byte>) -> ParserReturn): ResultSummary {
    var line := Trim(log);
    if |line| == 0 then NoResult else LineSummary(q, line, parse)
  }

  /** The record the winning parser adds to the per-log-type counters. */
  function WinnerRecord(lt: string, line: seq<byte>, parse: (string, seq<byte>) -> ParserReturn, parseMicros: nat): ParserStats {
    var p := SafeLogParse(lt, parse(lt, line));
    ParserStats(parseMicros, |line|, 1, if p.err.None? then |p.events| else 0, lt)
  }

  /** The per-log-type counters after trying the parsers of `q` on a trimmed, non-blank line. */
  function LineParserStats(
    m: map<string, ParserStats>, q: seq<QueueItem>, line: seq<byte>,
    parse: (string, seq<byte>) -> ParserReturn, parseMicros: nat): map<string, ParserStats>
  {
    var k := FirstAccepting(q, line, parse);
    if k == |q| then m else Merged(m, WinnerRecord(q[k].logType, line, parse, parseMicros))
  }

  /** The per-log-type counters after Classify. */
  function ParserStatsAfter(
    m: map<string, ParserStats>, q: seq<QueueItem>, log: seq<byte>,
    parse: (string, seq<byte>) -> ParserReturn, parseMicros: nat): map<string, ParserStats>
  {
    var line := Trim(log);
    if |line| == 0 then m else LineParserStats(m, q, line, parse, parseMicros)
  }

  /** The parser queue after Classify. */
  function QueueAfterClassify(q: seq<QueueItem>, log: seq<byte>, parse: (string, seq<byte>) -> ParserReturn): seq<QueueItem> {
    var line := Trim(log);
    if |line| == 0 then q else QueueAfter(q, FirstAccepting(q, line, parse))
  }

  /**
   The aggregate counters after Classify, as the deferred update computes them: it runs for
   every non-empty input and sees the trimmed line.
   */
  function AggregateAfter(s: ClassifierStats, log: seq<byte>, r: ResultSummary, classifyMicros: nat): ClassifierStats {
    if |log| == 0 then s
    else
      var line := Trim(log);
      var counted := |line| > 0;
      s.(
        classifyTimeMicroseconds := classifyMicros,
        bytesProcessedCount := s.bytesProcessedCount + |line|,
        logLineCount := s.logLineCount + 1,
        eventCount := s.eventCount + |r.events|,
        successfullyClassifiedCount := s.successfullyClassifiedCount + if counted && r.logType.Some? then 1 else 0,
        classificationFailureCount := s.classificationFailureCount + if counted && r.logType.None? then 1 else 0)
  }

  class Classifier {
    const parsers: ParserPriorityQueue
    var stats: ClassifierStats
    var parserStats: map<string, ParserStats>

    ghost predicate Valid()
      reads this, parsers
    {
      parsers.Valid() && StatsKeyed(parserStats)
    }

    /** NewClassifier: one queue item per registered log type, no counters yet. */
    constructor (logTypes: set<string>)
      ensures Valid() && fresh(parsers)
      ensures LogTypes(parsers.items) == logTypes && |parsers.items| == |logTypes|
      ensures AtMost(parsers.items, 0)
      ensures stats == ZeroStats && parserStats == map[]
    {
      parsers := new ParserPriorityQueue(logTypes);
      stats := ZeroStats;
      parserStats := map[];
    }

    /** updateStats: add a record to the counters of its log type. */
    method UpdateStats(s: ParserStats)
      modifies this`parserStats
      ensures parserStats == Merged(old(parserStats), s)
      ensures old(Valid()) ==> Valid()
    {
      if Valid() {
        MergedKeepsKeyed(parserStats, s);
      }
      var lt := s.logType;
      if lt == "" {
        return;
      }
      if lt !in parserStats {
        parserStats := parserStats[lt := s];
        return;
      }
      var entry := parserStats[lt];
      parserStats := parserStats[lt := entry.(
        parserTimeMicroseconds := entry.parserTimeMicroseconds + s.parserTimeMicroseconds,
        bytesProcessedCount := entry.bytesProcessedCount + s.bytesProcessedCount,
        logLineCount := entry.logLineCount + s.logLineCount,
        eventCount := entry.eventCount + s.eventCount)];
    }

    /** Classify one log line. */
    method Classify(log: seq<byte>, parse: (string, seq<byte>) -> ParserReturn, classifyMicros: nat, parseMicros: nat)
      returns (result: ClassifierResult)
      requires Valid()
      modifies this, parsers
      ensures Valid()
      ensures Summary(result) == ExpectedSummary(old(parsers.items), log, parse)
      ensures result.stream.Some? ==> fresh(result.stream.value) && result.stream.value.classifier == this
      ensures parsers.items == QueueAfterClassify(old(parsers.items), log, parse)
      ensures parserStats == ParserStatsAfter(old(parserStats), old(parsers.items), log, parse, parseMicros)
      ensures stats == AggregateAfter(old(stats), log, Summary(result), classifyMicros)
    {
      result := ClassifierResult([], None, None);
      if |log| == 0 {
        return;
      }
      var line := Trim(log);
      if |line| > 0 {
        ghost var q0 := parsers.items;
        var popped;
        ghost var k;
        result, popped, k := TryParsers(line, parse, parseMicros);
        SplitApart(q0, k);
        PushBack(popped);
        assert parsers.items == QueueAfter(q0, k);
      }
      RecordLine(log, line, result, classifyMicros);
    }

    /** The deferred update of the aggregate counters, which sees the trimmed line. */
    method RecordLine(ghost log: seq<byte>, line: seq<byte>, result: ClassifierResult, classifyMicros: nat)
      requires |log| > 0 && line == Trim(log)
      modifies this`stats
      ensures stats == AggregateAfter(old(stats), log, Summary(result), classifyMicros)
    {
      stats := stats.(
        classifyTimeMicroseconds := classifyMicros,
        bytesProcessedCount := stats.bytesProcessedCount + |line|,
        logLineCount := stats.logLineCount + 1,
        eventCount := stats.eventCount + |result.events|);
      if |line| > 0 {
        if result.logType.None? {
          stats := stats.(classificationFailureCount := stats.classificationFailureCount + 1);
        } else {
          stats := stats.(successfullyClassifiedCount := stats.successfullyClassifiedCount + 1);
        }
      }
    }

    /**
     The first loop of Classify: try parsers from the head of the queue, popping and penalising
     each one that fails, until one accepts the line or the queue is empty. `k` is how many
     parsers failed.
     */
    method TryParsers(line: seq<byte>, parse: (string, seq<byte>) -> ParserReturn, parseMicros: nat)
      returns (result: ClassifierResult, popped: seq<QueueItem>, ghost k: nat)
      requires Valid()
      modifies this`parserStats, parsers
      ensures Valid()
      ensures k == FirstAccepting(old(parsers.items), line, parse)
      ensures parsers.items == Rest(old(parsers.items), k) && popped == Bumped(old(parsers.items)[..k])
      ensures Summary(result) == LineSummary(old(parsers.items), line, parse)
      ensures result.stream.Some? ==> fresh(result.stream.value) && result.stream.value.classifier == this
      ensures parserStats == LineParserStats(old(parserStats), old(parsers.items), line, parse, parseMicros)
    {
      ghost var q0 := parsers.items;
      result := ClassifierResult([], None, None);
      popped := [];
      k := 0;
      while parsers.Len() > 0
        invariant parsers.Valid()
        invariant k <= |q0| && parsers.items == q0[k..]
        invariant popped == Bumped(q0[..k])
        invariant forall j | 0 <= j < k :: !Accepts(q0[j].logType, line, parse)
        invariant result == ClassifierResult([], None, None)
        invariant parserStats == old(parserStats)
        decreases |parsers.items|
      {
        var current := parsers.Peek();
        var parsed := SafeLogParse(current.logType, parse(current.logType, line));
        if parsed.err.None? {
          result := ClassifierResult(parsed.events, Some(current.logType), None);
          ResetHeadKeepsOrder(parsers.items);
          parsers.items := ResetHead(parsers.items);
          MergedKeepsKeyed(parserStats, WinnerRecord(current.logType, line, parse, parseMicros));
          UpdateStats(ParserStats(parseMicros, |line|, 1, |result.events|, current.logType));
          return;
        }
        if parsed.err.value.StreamResultsError? {
          var stream := new ClassifierStream(parsed.err.value.stream, this);
          result := ClassifierResult([], Some(current.logType), Some(stream));
          ResetHeadKeepsOrder(parsers.items);
          parsers.items := ResetHead(parsers.items);
          MergedKeepsKeyed(parserStats, WinnerRecord(current.logType, line, parse, parseMicros));
          UpdateStats(ParserStats(parseMicros, |line|, 1, 0, current.logType));
          return;
        }
        var item := parsers.Pop();
        popped := popped + [item.(penalty := item.penalty + 1)];
        assert q0[..k + 1] == q0[..k] + [q0[k]];
        k := k + 1;
      }
    }

    /** The second loop of Classify: push every popped item back, in the order popped. */
    method PushBack(popped: seq<QueueItem>)
      requires parsers.Valid() && Distinct(popped) && Apart(parsers.items, popped)
      modifies parsers
      ensures parsers.Valid()
      ensures parsers.items == PushAll(old(parsers.items), popped)
    {
      ghost var back := parsers.items;
      for i := 0 to |popped|
        invariant parsers.items == PushAll(back, popped[..i])
      {
        assert popped[..i + 1] == popped[..i] + [popped[i]];
        parsers.Push(popped[i]);
      }
      assert popped[..|popped|] == popped;
      PushAllDistinct(back, popped);
    }
  }

  /** The stream a streaming parser's result is wrapped in, counting events as they are read. */
  class ClassifierStream {
    const stream: StreamHandle
    const classifier: Classifier

    constructor (stream: StreamHandle, classifier: Classifier)
      ensures this.stream == stream && this.classifier == classifier
    {
      this.stream := stream;
      this.classifier := classifier;
    }

    /** Read the next result; `pulled` is what the wrapped stream gives, `micros` the time it took. */
    method Next(pulled: StreamPull, micros: nat) returns (r: NextResult)
      requires classifier.Valid()
      modifies classifier`parserStats
      ensures classifier.Valid()
      ensures pulled.PullFailed? ==> r == NextErr(pulled.error) && classifier.parserStats == old(classifier.parserStats)
      ensures pulled.Pulled? ==> r == NextOk(pulled.event)
      ensures pulled.Pulled? ==>
        classifier.parserStats == Merged(old(classifier.parserStats), ParserStats(micros, 0, 0, 1, pulled.event.logType))
    {
      if pulled.PullFailed? {
        return NextErr(pulled.error);
      }
      var event := pulled.event;
      classifier.UpdateStats(ParserStats(micros, 0, 0, 1, event.logType));
      r := NextOk(event);
    }
  }
}
