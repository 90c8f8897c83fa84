# Log classifier model

A Dafny model of Panther's log classifier (`internal/log_analysis/log_processor/classification/classifier.go`).
The classifier receives log lines one at a time. For each line it:

- trims the line;
- tries the registered parsers in order of increasing **penalty**, taking them from a priority queue;
- pops every parser that fails on the line and raises its penalty by one;
- stops at the first parser that returns without an error (even with no events), or that hands back a *stream* of results, and resets that parser's penalty to 0;
- pushes the popped parsers back.

It keeps aggregate counters (`ClassifierStats`) and per-log-type counters (`ParserStats`, merged by `updateStats`).
A stream handed back by a parser is wrapped in a `classifierStream`, whose `Next` counts every event it reads under that event's log type.

Files and modules:

- `trim_space.dfy`, module `TrimSpace`: log lines as bytes, and white-space trimming (`strings.TrimSpace` on ASCII white space). It comes with a reference characterisation (`TrimPadded`) and the blank-line equivalence.
- `parser_queue.dfy`, module `ParserQueue`: the parser priority queue.
  - The class `ParserPriorityQueue` holds a sequence of `(logType, penalty)` items kept in non-decreasing penalty order, with no log type twice.
  - `Peek` returns a minimum item. `Pop` removes that same item. `Push` inserts by penalty.
  - The functions `Insert`, `PushAll`, `Bumped`, `ResetHead`, `Rest`, `QueueAfter` and `Adjusted` describe what one classification does to the queue. The lemmas about them say that the parsers are kept, how penalties move, and that the ordering is kept.
- `classifier.dfy`, module `Classification`: the records, `safeLogParse` (`SafeLogParse`) and `updateStats` as a function (`Merged`). It also holds the class `Classifier` (fields `parsers`, `stats`, `parserStats`; methods `UpdateStats` and `Classify`) and the class `ClassifierStream` (method `Next`).
  - `Classify` is split along the source's own structure: the parsing loop (`TryParsers`), the push-back loop (`PushBack`) and the deferred counter update (`RecordLine`).
  - Each of these methods states its new state as a function of the old one: `ExpectedSummary`, `QueueAfterClassify`, `ParserStatsAfter` and `AggregateAfter`.
- `classifier_properties.dfy`, module `ClassifierProperties`: what those functions promise. This covers empty, blank and text lines, which parser wins, penalties parser by parser, the all-fail case, and that the queue keeps its parsers.

Parsers are oracles. `parse(logType, line)` is what the parser registered for `logType` returns: `Returned(events, err)` or `Panicked(value)`. `SafeLogParse` turns a panic into a plain failure. A `StreamResultsError` marks a streaming result. Wall-clock durations are inputs: `classifyMicros` is the time of the whole call, `parseMicros` the time of the winning parse attempt, and `micros` the time of one `Next`.

The deferred update in `Classify` reads the trimmed line. So a blank line adds 0 bytes and counts neither a success nor a failure, though it counts a line. `ClassifyTimeMicroseconds` is assigned the duration of the last call (the source assigns it rather than adding to it), and the model does the same.

## Model

| member | source | states |
|---|---|---|
| `TrimSpace.LeadingSpaces` | internal/log_analysis/log_processor/classification/classifier.go:119 | the number of leading white-space bytes: all of them are white space and the next byte is not |
| `TrimSpace.TrailingSpaces` | internal/log_analysis/log_processor/classification/classifier.go:119 | the number of trailing white-space bytes: all of them are white space and the byte before them is not |
| `TrimSpace.Trim` | internal/log_analysis/log_processor/classification/classifier.go:119 | the trimmed line is no longer than the line and, when non-empty, starts and ends with a non-space byte; `TrimShape` and `TrimPadded` pin it down exactly |
| `TrimSpace.TrimShape` | internal/log_analysis/log_processor/classification/classifier.go:119 | the line is a blank prefix, the trimmed line and a blank suffix; a non-empty trimmed line starts and ends with a non-space byte |
| `TrimSpace.TrimEmptyIffBlank` | internal/log_analysis/log_processor/classification/classifier.go:119-123 | the trimmed line is empty exactly when the line is white space only |
| `TrimSpace.TrimPadded` | internal/log_analysis/log_processor/classification/classifier.go:119 | trimming any blank padding around a text that starts and ends with text gives back exactly that text |
| `TrimSpace.TrimIdempotent` | internal/log_analysis/log_processor/classification/classifier.go:119 | trimming a trimmed line changes nothing |
| `ParserQueue.Insert` | internal/log_analysis/log_processor/classification/classifier.go:182 | a push adds exactly the item (multiset), keeps the queue ordered by penalty, and keeps log types unique when the item's is new |
| `ParserQueue.Bumped` | internal/log_analysis/log_processor/classification/classifier.go:173-176 | each popped parser keeps its place and log type and its penalty goes up by exactly one |
| `ParserQueue.ResetHead` | internal/log_analysis/log_processor/classification/classifier.go:139 | the peeked head keeps its log type and gets penalty 0; every other item is unchanged |
| `ParserQueue.PushAll` | internal/log_analysis/log_processor/classification/classifier.go:180-183 | pushing the popped items adds exactly those items and keeps the queue ordered |
| `ParserQueue.PushAllDistinct` | internal/log_analysis/log_processor/classification/classifier.go:180-183 | pushing back parsers that are not in the queue, each once, keeps every parser unique |
| `ParserQueue.ResetHeadKeepsOrder` | internal/log_analysis/log_processor/classification/classifier.go:126-139 | setting the peeked minimum item's penalty to 0 in place keeps the queue ordered and its parsers unique |
| `ParserQueue.QueueAfterIsAdjusted` | internal/log_analysis/log_processor/classification/classifier.go:125-183 | after a classification the queue has the same length and is a rearrangement of the old queue with failed parsers at penalty + 1, the winner at 0 and the rest unchanged |
| `ParserQueue.QueueAfterSameParsers` | internal/log_analysis/log_processor/classification/classifier.go:173-183 | the queue holds the same log types after a classification as before, also when it was drained |
| `ParserQueue.QueueAfterValid` | internal/log_analysis/log_processor/classification/classifier.go:125-183 | a classification keeps the queue ordered by penalty and free of duplicate parsers |
| `ParserQueue.PenaltyAfterClassify` | internal/log_analysis/log_processor/classification/classifier.go:133-176 | with unique parsers, the item of parser i is present afterwards exactly with its adjusted penalty (+1 before the winner, 0 for the winner, unchanged after) |
| `ParserQueue.WinnerMovesToFront` | internal/log_analysis/log_processor/classification/classifier.go:137-139 | the winner is at the head of the queue afterwards, with penalty 0 |
| `ParserQueue.InitialItems` | internal/log_analysis/log_processor/classification/classifier.go:56 | a new queue holds each registered log type exactly once, with penalty 0 |
| `ParserQueue.ParserPriorityQueue.constructor` | internal/log_analysis/log_processor/classification/classifier.go:56 | a new queue is valid, holds exactly the registered log types, one item each, penalty 0 |
| `ParserQueue.ParserPriorityQueue.Len` | internal/log_analysis/log_processor/classification/classifier.go:125 | the length is 0 exactly when the queue holds no parser, which is when the parsing loop stops |
| `ParserQueue.ParserPriorityQueue.Peek` | internal/log_analysis/log_processor/classification/classifier.go:126 | returns the head item, which is present and has a minimum penalty |
| `ParserQueue.ParserPriorityQueue.Pop` | internal/log_analysis/log_processor/classification/classifier.go:173 | removes and returns the item Peek returns and keeps the queue valid |
| `ParserQueue.ParserPriorityQueue.Push` | internal/log_analysis/log_processor/classification/classifier.go:182 | the new items are the sorted insertion of the pushed item; pushing a parser the valid queue does not hold keeps it valid |
| `Classification.SafeLogParse` | internal/log_analysis/log_processor/classification/classifier.go:79-91 | no error exactly when the parser returned without error, and then its events; any error or panic yields no events; a panic yields a plain failure, never a stream |
| `Classification.FirstAccepting` | internal/log_analysis/log_processor/classification/classifier.go:125-178 | the index of the first parser in queue order that succeeds or streams; every parser before it fails |
| `Classification.Merged` | internal/log_analysis/log_processor/classification/classifier.go:187-201 | an empty log type changes nothing; a new log type is inserted as given; an existing one gets time, bytes, lines and events added field by field; every other entry is unchanged |
| `Classification.MergedKeepsKeyed` | internal/log_analysis/log_processor/classification/classifier.go:187-201 | merging keeps every entry filed under its own non-empty log type |
| `Classification.Classifier.constructor` | internal/log_analysis/log_processor/classification/classifier.go:54-59 | a new classifier has a fresh queue of the registered log types at penalty 0, zero aggregate counters and no per-log-type counters |
| `Classification.Classifier.UpdateStats` | internal/log_analysis/log_processor/classification/classifier.go:187-201 | the per-log-type map becomes the merge of the old map and the record, and the classifier stays valid |
| `Classification.Classifier.Classify` | internal/log_analysis/log_processor/classification/classifier.go:94-185 | keeps the classifier valid; result, queue, per-log-type counters and aggregate counters are the expected functions of the old state and the line; a stream result is a fresh wrapper around the winner's stream bound to this classifier |
| `Classification.Classifier.TryParsers` | internal/log_analysis/log_processor/classification/classifier.go:125-178 | the parsing loop stops at the first accepting parser; the failed ones are popped with penalty + 1, the winner stays at the head with penalty 0, and only the winner's counters change |
| `Classification.Classifier.PushBack` | internal/log_analysis/log_processor/classification/classifier.go:180-183 | every popped item is pushed back, in the order popped; the popped parsers, unique and absent from the valid queue, leave it valid |
| `Classification.Classifier.RecordLine` | internal/log_analysis/log_processor/classification/classifier.go:105-117 | the aggregate counters after the deferred update, computed on the trimmed line |
| `Classification.ClassifierStream.constructor` | internal/log_analysis/log_processor/classification/classifier.go:153-156 | the wrapper holds the parser's stream and the classifier |
| `Classification.ClassifierStream.Next` | internal/log_analysis/log_processor/classification/classifier.go:227-239 | an error from the wrapped stream is returned and no counter changes; a result is returned and its log type's entry gains one event and the pull's time, or is created with them when the log type is new; no other entry changes |
| `ClassifierProperties.EmptyInputChangesNothing` | internal/log_analysis/log_processor/classification/classifier.go:98-102 | an empty input gives an empty result and leaves the aggregate counters, per-log-type counters and queue unchanged |
| `ClassifierProperties.BlankLineCountsOnlyTheLine` | internal/log_analysis/log_processor/classification/classifier.go:105-123 | a blank line tries no parser: only the line count (+1) and the call time change; no bytes, events, success or failure are counted |
| `ClassifierProperties.TextLineCountsOneOutcome` | internal/log_analysis/log_processor/classification/classifier.go:105-119 | a line with text counts exactly one of success and failure, success exactly when a log type was found, which is exactly when some parser accepted; bytes go up by the trimmed length and events by the number returned |
| `ClassifierProperties.WinnerOutcome` | internal/log_analysis/log_processor/classification/classifier.go:133-166 | the result's log type is the winner's; a success gives its events and records one line with that many events; a stream gives the stream, no events, and records one line with no events |
| `ClassifierProperties.AllParsersFail` | internal/log_analysis/log_processor/classification/classifier.go:125-183 | when every parser fails: empty result, per-log-type counters unchanged, and the drained queue is refilled with every parser at penalty + 1 |
| `ClassifierProperties.PenaltiesAfterClassify` | internal/log_analysis/log_processor/classification/classifier.go:133-176 | parser by parser: the failed ones gain exactly one point, the winner is at 0, the ones after it are unchanged |
| `ClassifierProperties.ClassifyKeepsParsers` | internal/log_analysis/log_processor/classification/classifier.go:125-183 | whatever the line, the queue keeps its length and its log types, and stays ordered and unique |
| `ClassifierProperties.WinnerIsTriedFirstNext` | internal/log_analysis/log_processor/classification/classifier.go:137-139 | the parser that took a line is the first one tried on the next line |

## Left out

- Wall-clock time (`time.Now`, `time.Since`): durations are inputs of `Classify` and `Next`, not measured.
- zap debug logging on parser failure: no effect on state.
- The `recover()` mechanics of `safeLogParse`: a panic is the oracle result `Panicked`. The panic message follows the source's format, but `%q` escaping of the log type and `%v` formatting of the panic value are not modelled.
- `strings.TrimSpace` on non-ASCII white space (U+0085, U+00A0 and other Unicode spaces): only the six ASCII white-space bytes are trimmed.
- The priority-queue implementation (`NewParserPriorityQueue`, `container/heap`) is not part of this model. Its contract is assumed:
  - `Peek` returns a minimum-penalty item and `heap.Pop` removes that same item.
  - `NewParserPriorityQueue` starts every parser at penalty 0.
  - Among equal penalties, the model serves items in insertion order behind existing ones. A binary heap may order ties differently. Which of several equal-penalty parsers is tried first follows the model's order, and so do the winner and which parsers gain a point. The proved properties hold whatever order ties are served in: the parsers are kept, penalties move by +1, 0 or not at all relative to the order tried, the queue stays ordered, and the winner is at the head.
- uint64 wrap-around of the counters: counters are unbounded `nat`.
- Parser state: `parse` is an argument of each `Classify` call, so a parser's behaviour may differ from one call to the next, but within one call it is a fixed function of its log type and the line. A parser whose internal state changes during a call is not modelled.
- The accessors `Stats()` and `ParserStats()`, and the aliasing of the `*ParserStats` pointers they hand out: the model's fields are read directly and map values are records.
- `nil` versus empty `Events`: both are the empty sequence.
- The other files of the repository: `internal/log_analysis/log_processor/parsers/suricata/dns.go` (struct declarations and JSON decoding through libraries), `internal/core/alert_delivery/outputs/sns.go` (an AWS SNS client), `api/gateway/analysis/client/operations/bulk_upload_parameters.go` (generated HTTP parameter setters) and `web/src/pages/ListRules/EmptyDataFallback/EmptyDataFallback.tsx` (a static page) are not part of this model.
