# RSpec deprecation formatter, modelled in Dafny

RSpec's core has a `DeprecationFormatter`. During a test run it receives
deprecation notices. It renders each one as text on a deprecation destination
and counts them all. At the end of the run, `deprecation_summary` writes one
line, `"<N> deprecation(s) logged to <path>"`, to a separate summary stream.
It does so only when at least one notice was recorded and the destination is
a file path rather than a stream the caller already opened.

The model has three modules:

- `Options` (options.dfy): the optional value used for the event's fields.
- `Text` (text.dfy): decimal rendering of the count and its inverse
  (`NatToString`, `ParseDecimal`), joining phrases with single spaces
  (`Join`), and substring containment and order (`Contains`, `OccursBefore`).
  These replace the regular-expression matches of the RSpec examples.
- `Formatters` (deprecation_formatter.dfy):
  - `Target = Path(p) | Stream` and `DeprecationEvent`.
  - The pure rendering `Render` and the summary rule `SummaryWrites`.
  - `FormatterState` with `Record`, `Summarize` and `RecordAll`. These give
    the effect of the two operations as values.
  - The class `DeprecationFormatter`. It has a `count` field and one buffer of
    writes per destination. Its methods are proved against `Record` and
    `Summarize`. A ghost history of events keeps the invariant that `count`
    is the number of `Deprecation` calls.
  - Four client methods that drive the object the way the RSpec examples do
    and return what the summary stream then reads.

A stream's buffer is the sequence of writes made to it. `StreamText` joins
them end to end, which is what reading the stream after a rewind returns.

lib/rspec/core/formatters/deprecation_formatter.rb is not part of this model.
The model refines the behaviour that its examples in
spec/rspec/core/formatters/deprecation_formatter_spec.rb pin down. Where the
examples leave the text open, the model fixes it, as listed under
"## Left out".

A formatter that writes whole lines would end every write with a line
terminator. The example at
spec/rspec/core/formatters/deprecation_formatter_spec.rb:33 instead requires
the stream to equal the bare message. The model follows the example: a
message is written verbatim, with no terminator. An event without a message
renders as its phrases joined by single spaces, followed by `"\n"`. The summary line is also followed by
`"\n"`. The examples only match substrings there, so neither terminator is
pinned by them.

A call to `deprecation_summary` does not stop later `deprecation` calls, and
nothing prevents a second call from writing the summary again. The model keeps
both, with no guard.

## Model

| member | source | states |
|---|---|---|
| `Formatters.Render` | spec/rspec/core/formatters/deprecation_formatter_spec.rb:12-34 | the text one `deprecation` call writes: exactly the message when there is one, otherwise a line ending in a terminator; its content is specified by MessageOverrides, IncludesMethod, IncludesReplacement, IncludesCallSite and PhraseOrder |
| `Formatters.SummaryLine` | spec/rspec/core/formatters/deprecation_formatter_spec.rb:38-57 | the summary text starts with the decimal count and ends with the path; its wording is specified by SummarySingular, SummaryPlural and SummaryReportsCount |
| `Text.NatToString` | spec/rspec/core/formatters/deprecation_formatter_spec.rb:45-56 | the decimal text of the count: at least one digit, all digits, no leading zero; ParseNatToString gives its inverse |
| `Formatters.Record` | spec/rspec/core/formatters/deprecation_formatter_spec.rb:13 | the effect of one `deprecation` call as a value: count plus one, the earlier writes kept and the event's rendering appended, target and summary stream unchanged |
| `Formatters.Summarize` | spec/rspec/core/formatters/deprecation_formatter_spec.rb:43 | the effect of `deprecation_summary` as a value: count, target and deprecation writes unchanged; earlier summary writes kept; exactly one write added when the count is positive and the target a path, none otherwise |
| `Formatters.RecordAll` | spec/rspec/core/formatters/deprecation_formatter_spec.rb:52-53 | repeated `deprecation` calls, one per event in order; it has no contract of its own and RecordAllEffect states its effect |
| `Formatters.StreamText` | spec/rspec/core/formatters/deprecation_formatter_spec.rb:14-15 | what a rewound stream reads: empty for no writes, and the last write ends the text; MessageIsWholeStream, OneDeprecationSummary, TwoDeprecationsSummary and the four client methods read the streams through it |
| `Formatters.MessageOverrides` | spec/rspec/core/formatters/deprecation_formatter_spec.rb:30-34 | an event with a message renders to exactly that message, whatever the other three fields hold |
| `Formatters.MessageIsWholeStream` | spec/rspec/core/formatters/deprecation_formatter_spec.rb:30-34 | after one call with a message, a fresh deprecation stream reads exactly the message, with no terminator |
| `Formatters.IncludesMethod` | spec/rspec/core/formatters/deprecation_formatter_spec.rb:12-16 | without a message, a present method name X makes the text contain "X is deprecated.", whatever other fields are present |
| `Formatters.IncludesReplacement` | spec/rspec/core/formatters/deprecation_formatter_spec.rb:18-22 | without a message, a present replacement Y makes the text contain "Use Y instead.", whatever other fields are present |
| `Formatters.IncludesCallSite` | spec/rspec/core/formatters/deprecation_formatter_spec.rb:24-28 | without a message, a present call site Z makes the text contain "Called from Z.", whatever other fields are present |
| `Formatters.SingleFieldLines` | spec/rspec/core/formatters/deprecation_formatter_spec.rb:12-28 | an event with one field alone renders to exactly that field's phrase on one line |
| `Formatters.EmptyEventLine` | spec/rspec/core/formatters/deprecation_formatter_spec.rb:7-35 | an event with no field at all is accepted and renders to an empty line |
| `Formatters.Parts` | spec/rspec/core/formatters/deprecation_formatter_spec.rb:12-28 | one phrase per present field and none for an absent one: the method phrase first when the method is present, the replacement phrase next when present, the call-site phrase last when present |
| `Formatters.PhraseOrder` | spec/rspec/core/formatters/deprecation_formatter_spec.rb:12-28 | the phrases appear in the order method, replacement, call site, for every pair of present fields |
| `Formatters.SummaryWrites` | spec/rspec/core/formatters/deprecation_formatter_spec.rb:37-76 | the summary is at most one line; it is written if and only if the count is positive and the target is a path; it is the summary line for that count and path |
| `Formatters.SummarySingular` | spec/rspec/core/formatters/deprecation_formatter_spec.rb:38-46 | for one deprecation the line is exactly "1 deprecation logged to " followed by the path |
| `Formatters.SummaryPlural` | spec/rspec/core/formatters/deprecation_formatter_spec.rb:48-57 | for two or more deprecations the line says "deprecations" |
| `Formatters.SummaryReportsCount` | spec/rspec/core/formatters/deprecation_formatter_spec.rb:38-57 | the line starts with decimal digits that read back as the count, then a space, and ends with the path |
| `Text.ParseNatToString` | spec/rspec/core/formatters/deprecation_formatter_spec.rb:45-56 | reading the decimal text of a count gives back that count |
| `Text.NatToStringInjective` | spec/rspec/core/formatters/deprecation_formatter_spec.rb:45-56 | different counts give different decimal text |
| `Formatters.RecordAllEffect` | spec/rspec/core/formatters/deprecation_formatter_spec.rb:48-57 | after any sequence of calls, the count has grown by the number of calls whatever the events held; each call appended its rendering in order; the summary stream and the target are unchanged |
| `Formatters.SummaryAfterPathRun` | spec/rspec/core/formatters/deprecation_formatter_spec.rb:38-66 | with a path target, the summary after N calls is nothing for N = 0 and otherwise the single line for N and the path |
| `Formatters.SummaryAfterStreamRun` | spec/rspec/core/formatters/deprecation_formatter_spec.rb:68-75 | with an open-stream target, the summary writes nothing, however many calls were made |
| `Formatters.OneDeprecationSummary` | spec/rspec/core/formatters/deprecation_formatter_spec.rb:38-46 | one call to a path, then the summary: the summary stream reads "1 deprecation logged to <path>" followed by a line terminator |
| `Formatters.TwoDeprecationsSummary` | spec/rspec/core/formatters/deprecation_formatter_spec.rb:48-57 | two calls to a path, then the summary: the summary stream contains "2 deprecations" |
| `Formatters.PrintedWhenDeprecationsGoToFile` | spec/rspec/core/formatters/deprecation_formatter_spec.rb:38-46 | an object built on a path, given one deprecation and then asked for the summary, leaves the summary stream reading "1 deprecation logged to <path>" and a line terminator |
| `Formatters.PluralizesForMoreThanOne` | spec/rspec/core/formatters/deprecation_formatter_spec.rb:48-57 | an object built on a path, given two deprecations and then asked for the summary, leaves the summary stream containing "2 deprecations" |
| `Formatters.NotPrintedWithoutDeprecations` | spec/rspec/core/formatters/deprecation_formatter_spec.rb:59-66 | an object built on a path and asked for the summary with no deprecation recorded leaves the summary stream empty |
| `Formatters.NotPrintedForOpenStream` | spec/rspec/core/formatters/deprecation_formatter_spec.rb:68-75 | an object built on an open stream, given one deprecation and then asked for the summary, leaves the summary stream empty |
| `Formatters.DeprecationFormatter.constructor` | spec/rspec/core/formatters/deprecation_formatter_spec.rb:41 | stores the target as given; count zero, nothing written, empty history |
| `Formatters.DeprecationFormatter.Deprecation` | spec/rspec/core/formatters/deprecation_formatter_spec.rb:13 | appends the event's rendering to the deprecation destination; count plus one; summary stream unchanged; the count keeps equal to the number of calls |
| `Formatters.DeprecationFormatter.DeprecationSummary` | spec/rspec/core/formatters/deprecation_formatter_spec.rb:43 | appends the summary writes for the current count and target to the summary stream; changes nothing else; a second call writes again |

## Left out

- File I/O for a path target is not modelled: creating, opening and appending to the file, and write failures. The file's content is the abstract sequence of writes.
- The constructor leaves out the `summary_stream` argument of `DeprecationFormatter.new`: the summary stream is modelled only by the `summaryOut` buffer of writes. That buffer and the buffer of an open deprecation stream start empty in the model. They hold only what the formatter writes, as the fresh `StringIO` objects of the examples do.
- `StringIO` rewinding and reading are modelled by `StreamText`, the writes joined end to end.
- Regular-expression matching is replaced by exact strings and substring containment.
- Ruby's check at run time of whether the target is an IO object or a String is replaced by the `Target` tag.
- The full stop that ends each phrase ("X is deprecated.", "Use Y instead.", "Called from Z.") is the model's choice. The examples at spec/rspec/core/formatters/deprecation_formatter_spec.rb:15, :21 and :27 only require the phrases without it.
- How phrases are joined when several non-message fields are present: the examples never check it. The model joins them with one space and ends the line with `"\n"`. The lemmas rely only on the phrases and their order.
