/** The deprecation formatter of RSpec's core: it renders each deprecation
    notice raised during a run into text on the deprecation destination,
    counts the notices, and at the end of the run writes a one-line summary
    to the summary stream when the notices went to a file path. */
module Formatters {
  import opened Options
  import opened Text

  /** Where deprecation text goes: a file path (opened for append by the
      formatter) or a stream the caller has already opened. */
  datatype Target = Path(p: string) | Stream

  /** One deprecation notice; every field may be absent. */
  datatype DeprecationEvent = DeprecationEvent(
    message: Option<string>,
    methodName: Option<string>,
    alternateMethod: Option<string>,
    calledFrom: Option<string>)

  // ---------------------------------------------------------------------
  // Rendering one event

  function MethodPhrase(m: string): string { m + " is deprecated." }

  function AlternatePhrase(a: string): string { "Use " + a + " instead." }

  function CallSitePhrase(c: string): string { "Called from " + c + "." }

  /** The phrase of one optional field, or nothing when the field is absent. */
  function Phrase(field: Option<string>, render: string -> string): seq<string> {
    match field
    case Some(v) => [render(v)]
    case None => []
  }

  /** The phrases of an event without a message, in the fixed order method,
      replacement, call site; absent fields contribute nothing. */
  function Parts(e: DeprecationEvent): (parts: seq<string>)
    ensures |parts| == (if e.methodName.Some? then 1 else 0)
                       + (if e.alternateMethod.Some? then 1 else 0)
                       + (if e.calledFrom.Some? then 1 else 0)
    ensures e.methodName.Some? ==> parts[0] == MethodPhrase(e.methodName.value)
    ensures e.alternateMethod.Some? ==>
      parts[if e.methodName.Some? then 1 else 0] == AlternatePhrase(e.alternateMethod.value)
    ensures e.calledFrom.Some? ==> parts[|parts| - 1] == CallSitePhrase(e.calledFrom.value)
  {
    Phrase(e.methodName, MethodPhrase)
    + Phrase(e.alternateMethod, AlternatePhrase)
    + Phrase(e.calledFrom, CallSitePhrase)
  }

  /** The text one `deprecation` call writes: the message verbatim when there
      is one, otherwise the phrases joined by single spaces as one line. */
  function Render(e: DeprecationEvent): (text: string)
    ensures e.message.Some? ==> text == e.message.value
    ensures e.message.None? ==> |text| > 0 && text[|text| - 1] == '\n'
  {
    match e.message
    case Some(m) => m
    case None => Join(Parts(e)) + "\n"
  }

  /** A message, when given, is written exactly, whatever else the event
      holds. */
  lemma MessageOverrides(m: string, x: Option<string>, y: Option<string>, z: Option<string>)
    ensures Render(DeprecationEvent(Some(m), x, y, z)) == m
  {
  }

  /** Without a message, a deprecated method is named in the text. */
  lemma IncludesMethod(e: DeprecationEvent)
    requires e.message.None? && e.methodName.Some?
    ensures Contains(Render(e), e.methodName.value + " is deprecated.")
  {
    var parts := Parts(e);
    JoinContains(parts, 0);
    ContainsPrefix(Join(parts), parts[0], "\n");
  }

  /** Without a message, a replacement method is suggested in the text. */
  lemma IncludesReplacement(e: DeprecationEvent)
    requires e.message.None? && e.alternateMethod.Some?
    ensures Contains(Render(e), "Use " + e.alternateMethod.value + " instead.")
  {
    var parts := Parts(e);
    var k := if e.methodName.Some? then 1 else 0;
    JoinContains(parts, k);
    ContainsPrefix(Join(parts), parts[k], "\n");
  }

  /** Without a message, the call site is named in the text. */
  lemma IncludesCallSite(e: DeprecationEvent)
    requires e.message.None? && e.calledFrom.Some?
    ensures Contains(Render(e), "Called from " + e.calledFrom.value + ".")
  {
    var parts := Parts(e);
    var k := |parts| - 1;
    JoinContains(parts, k);
    ContainsPrefix(Join(parts), parts[k], "\n");
  }

  /** An event holding one field alone renders to exactly that field's
      phrase on one line. */
  lemma SingleFieldLines(x: string)
    ensures Render(DeprecationEvent(None, Some(x), None, None)) == x + " is deprecated.\n"
    ensures Render(DeprecationEvent(None, None, Some(x), None)) == "Use " + x + " instead.\n"
    ensures Render(DeprecationEvent(None, None, None, Some(x))) == "Called from " + x + ".\n"
  {
  }

  /** An event with no field at all is tolerated and renders to an empty
      line. */
  lemma EmptyEventLine()
    ensures Render(DeprecationEvent(None, None, None, None)) == "\n"
  {
  }

  /** The phrases appear in the order method, replacement, call site. */
  lemma PhraseOrder(e: DeprecationEvent)
    requires e.message.None?
    ensures e.methodName.Some? && e.alternateMethod.Some? ==>
      OccursBefore(Render(e), MethodPhrase(e.methodName.value), AlternatePhrase(e.alternateMethod.value))
    ensures e.methodName.Some? && e.calledFrom.Some? ==>
      OccursBefore(Render(e), MethodPhrase(e.methodName.value), CallSitePhrase(e.calledFrom.value))
    ensures e.alternateMethod.Some? && e.calledFrom.Some? ==>
      OccursBefore(Render(e), AlternatePhrase(e.alternateMethod.value), CallSitePhrase(e.calledFrom.value))
  {
    var parts := Parts(e);
    var a := if e.methodName.Some? then 1 else 0;
    var c := |parts| - 1;
    if e.methodName.Some? && e.alternateMethod.Some? {
      JoinOrder(parts, 0, a);
      OccursBeforeExtend(Join(parts), parts[0], parts[a], "\n");
    }
    if e.methodName.Some? && e.calledFrom.Some? {
      JoinOrder(parts, 0, c);
      OccursBeforeExtend(Join(parts), parts[0], parts[c], "\n");
    }
    if e.alternateMethod.Some? && e.calledFrom.Some? {
      JoinOrder(parts, a, c);
      OccursBeforeExtend(Join(parts), parts[a], parts[c], "\n");
    }
  }

  // ---------------------------------------------------------------------
  // The summary

  /** "<count> deprecation(s) logged to <path>", singular for one. */
  function SummaryLine(count: nat, path: string): (line: string)
    ensures |NatToString(count)| < |line| && line[..|NatToString(count)|] == NatToString(count)
    ensures |path| <= |line| && line[|line| - |path|..] == path
  {
    NatToString(count) + " deprecation" + (if count == 1 then "" else "s") + " logged to " + path
  }

  /** What `deprecation_summary` writes to the summary stream: one line when
      at least one deprecation was recorded and the target is a path,
      nothing otherwise. */
  function SummaryWrites(count: nat, target: Target): (w: seq<string>)
    ensures |w| <= 1
    ensures w != [] <==> count > 0 && target.Path?
    ensures w != [] ==> w[0] == SummaryLine(count, target.p) + "\n"
  {
    if count > 0 && target.Path? then [SummaryLine(count, target.p) + "\n"] else []
  }

  /** One deprecation is reported in the singular, with the path. */
  lemma SummarySingular(path: string)
    ensures SummaryLine(1, path) == "1 deprecation logged to " + path
  {
  }

  /** More than one deprecation is reported in the plural. */
  lemma SummaryPlural(count: nat, path: string)
    requires count >= 2
    ensures SummaryLine(count, path) == NatToString(count) + " deprecations logged to " + path
  {
  }

  /** The summary line starts with the digits of the count, which read back
      as that count, and ends with the path. */
  lemma SummaryReportsCount(count: nat, path: string)
    ensures var w := SummaryLine(count, path);
      exists k :: 0 < k < |w| && IsDigits(w[..k]) && ParseDecimal(w[..k]) == count && w[k] == ' '
    ensures var w := SummaryLine(count, path);
      |path| <= |w| && w[|w| - |path|..] == path
  {
    var w := SummaryLine(count, path);
    var d := NatToString(count);
    var rest := " deprecation" + (if count == 1 then "" else "s") + " logged to ";
    assert w == d + (rest + path);
    assert w[..|d|] == d;
    assert w[|d|] == ' ';
    ParseNatToString(count);
    assert w[|w| - |path|..] == path;
  }

  // ---------------------------------------------------------------------
  // The formatter's state and its two operations, as values

  /** The destinations, the count, and the writes made so far to the
      deprecation destination and to the summary stream. */
  datatype FormatterState = FormatterState(
    target: Target,
    count: nat,
    deprecationOut: seq<string>,
    summaryOut: seq<string>)

  /** A freshly built formatter: nothing written, nothing counted. */
  function Initial(target: Target): FormatterState {
    FormatterState(target, 0, [], [])
  }

  /** The effect of `deprecation(e)`. */
  function Record(s: FormatterState, e: DeprecationEvent): (r: FormatterState)
    ensures r.count == s.count + 1 && r.target == s.target && r.summaryOut == s.summaryOut
    ensures |r.deprecationOut| == |s.deprecationOut| + 1
    ensures r.deprecationOut[..|s.deprecationOut|] == s.deprecationOut
    ensures r.deprecationOut[|s.deprecationOut|] == Render(e)
  {
    s.(count := s.count + 1, deprecationOut := s.deprecationOut + [Render(e)])
  }

  /** The effect of `deprecation_summary`. */
  function Summarize(s: FormatterState): (r: FormatterState)
    ensures r.count == s.count && r.target == s.target && r.deprecationOut == s.deprecationOut
    ensures |r.summaryOut| == |s.summaryOut| + (if s.count > 0 && s.target.Path? then 1 else 0)
    ensures r.summaryOut[..|s.summaryOut|] == s.summaryOut
  {
    s.(summaryOut := s.summaryOut + SummaryWrites(s.count, s.target))
  }

  /** The effect of `deprecation` called once per event, in order. */
  function RecordAll(s: FormatterState, events: seq<DeprecationEvent>): FormatterState
    decreases |events|
  {
    if |events| == 0 then s else RecordAll(Record(s, events[0]), events[1..])
  }

  function RenderAll(events: seq<DeprecationEvent>): seq<string> {
    seq(|events|, i requires 0 <= i < |events| => Render(events[i]))
  }

  /** What a reader of a stream sees after rewinding it: the writes in
      order. */
  function StreamText(writes: seq<string>): (text: string)
    ensures |writes| == 0 ==> text == ""
    ensures |writes| > 0 ==> var last := writes[|writes| - 1];
      |last| <= |text| && text[|text| - |last|..] == last
    decreases |writes|
  {
    if |writes| == 0 then "" else StreamText(writes[..|writes| - 1]) + writes[|writes| - 1]
  }

  /** The count equals the number of `deprecation` calls whatever the events
      held, each call appends its rendered text, and none writes to the
      summary stream or changes the target. */
  lemma {:induction false} RecordAllEffect(s: FormatterState, events: seq<DeprecationEvent>)
    ensures RecordAll(s, events).count == s.count + |events|
    ensures RecordAll(s, events).target == s.target
    ensures RecordAll(s, events).summaryOut == s.summaryOut
    ensures RecordAll(s, events).deprecationOut == s.deprecationOut + RenderAll(events)
    decreases |events|
  {
    if |events| > 0 {
      RecordAllEffect(Record(s, events[0]), events[1..]);
      assert RenderAll(events) == [Render(events[0])] + RenderAll(events[1..]);
    }
  }

  /** A summary after a run to a path reports the number of calls made, and
      nothing is written when there were none. */
  lemma SummaryAfterPathRun(path: string, events: seq<DeprecationEvent>)
    ensures Summarize(RecordAll(Initial(Path(path)), events)).summaryOut
      == if |events| == 0 then [] else [SummaryLine(|events|, path) + "\n"]
  {
    RecordAllEffect(Initial(Path(path)), events);
  }

  /** A summary after a run to an open stream writes nothing, however many
      deprecations were recorded. */
  lemma SummaryAfterStreamRun(events: seq<DeprecationEvent>)
    ensures Summarize(RecordAll(Initial(Stream), events)).summaryOut == []
  {
    RecordAllEffect(Initial(Stream), events);
  }

  /** A single event with a message leaves exactly the message on a fresh
      deprecation stream. */
  lemma MessageIsWholeStream(target: Target, m: string, x: Option<string>, y: Option<string>, z: Option<string>)
    ensures StreamText(Record(Initial(target), DeprecationEvent(Some(m), x, y, z)).deprecationOut) == m
  {
  }

  /** One deprecation to a path: the summary stream reads
      "1 deprecation logged to <path>". */
  lemma OneDeprecationSummary(path: string, e: DeprecationEvent)
    ensures StreamText(Summarize(Record(Initial(Path(path)), e)).summaryOut)
      == "1 deprecation logged to " + path + "\n"
  {
    SummarySingular(path);
    StreamTextSingle("1 deprecation logged to " + path + "\n");
  }

  /** Two deprecations to a path: the summary stream mentions
      "2 deprecations". */
  lemma TwoDeprecationsSummary(path: string, e1: DeprecationEvent, e2: DeprecationEvent)
    ensures Contains(StreamText(Summarize(Record(Record(Initial(Path(path)), e1), e2)).summaryOut),
                     "2 deprecations")
  {
    var s := Record(Record(Initial(Path(path)), e1), e2);
    assert s.count == 2 && s.summaryOut == [];
    var tail := " logged to " + path + "\n";
    assert NatToString(2) == "2";
    assert SummaryLine(2, path) + "\n" == "" + "2 deprecations" + tail;
    StreamTextSingle(SummaryLine(2, path) + "\n");
    ContainsInfix("", "2 deprecations", tail);
  }

  lemma StreamTextSingle(x: string)
    ensures StreamText([x]) == x
  {
  }

  // ---------------------------------------------------------------------
  // The formatter object

  class DeprecationFormatter {
    /** The deprecation destination, stored as given. */
    const target: Target
    var count: nat
    /** The writes made to the deprecation destination (the stream, or the
        file at the path). */
    var deprecationOut: seq<string>
    /** The writes made to the summary stream. */
    var summaryOut: seq<string>
    /** Every event passed to `Deprecation` so far. */
    ghost var events: seq<DeprecationEvent>

    /** The count is the number of `Deprecation` calls and the deprecation
        destination holds one rendering per call, in order. */
    ghost predicate Valid()
      reads this
    {
      count == |events| && deprecationOut == RenderAll(events)
    }

    function State(): FormatterState
      reads this
    {
      FormatterState(target, count, deprecationOut, summaryOut)
    }

    /** Stores the destination; no output is written yet. */
    constructor (deprecationTarget: Target)
      ensures Valid() && events == []
      ensures State() == Initial(deprecationTarget)
    {
      target := deprecationTarget;
      count := 0;
      deprecationOut := [];
      summaryOut := [];
      events := [];
    }

    /** Writes the event's text to the deprecation destination and counts
        it. */
    method Deprecation(e: DeprecationEvent)
      requires Valid()
      modifies this
      ensures Valid() && events == old(events) + [e]
      ensures State() == Record(old(State()), e)
      ensures count == old(count) + 1
      ensures deprecationOut == old(deprecationOut) + [Render(e)]
      ensures summaryOut == old(summaryOut)
    {
      deprecationOut := deprecationOut + [Render(e)];
      count := count + 1;
      events := events + [e];
      assert RenderAll(events) == RenderAll(old(events)) + [Render(e)];
    }

    /** Writes the summary line when deprecations were recorded to a path;
        calling it again writes it again. */
    method DeprecationSummary()
      requires Valid()
      modifies this
      ensures Valid() && events == old(events)
      ensures State() == Summarize(old(State()))
      ensures count == old(count) && deprecationOut == old(deprecationOut)
      ensures summaryOut == old(summaryOut) + SummaryWrites(count, target)
    {
      summaryOut := summaryOut + SummaryWrites(count, target);
    }
  }

  // ---------------------------------------------------------------------
  // The formatter driven as the examples in the RSpec suite drive it

  /** One deprecation to a path, then the summary; returns what the
      summary stream reads. */
  method PrintedWhenDeprecationsGoToFile(path: string) returns (summary: string)
    ensures summary == "1 deprecation logged to " + path + "\n"
  {
    var formatter := new DeprecationFormatter(Path(path));
    formatter.Deprecation(DeprecationEvent(None, Some("whatevs"), None, None));
    formatter.DeprecationSummary();
    OneDeprecationSummary(path, DeprecationEvent(None, Some("whatevs"), None, None));
    summary := StreamText(formatter.summaryOut);
  }

  /** Two deprecations to a path, then the summary; returns what the summary
      stream reads. */
  method PluralizesForMoreThanOne(path: string) returns (summary: string)
    ensures Contains(summary, "2 deprecations")
  {
    var formatter := new DeprecationFormatter(Path(path));
    var e1 := DeprecationEvent(None, Some("whatevs"), None, None);
    var e2 := DeprecationEvent(None, Some("whatevs_else"), None, None);
    formatter.Deprecation(e1);
    formatter.Deprecation(e2);
    formatter.DeprecationSummary();
    TwoDeprecationsSummary(path, e1, e2);
    summary := StreamText(formatter.summaryOut);
  }

  /** The summary with no deprecation recorded; returns what the summary
      stream reads. */
  method NotPrintedWithoutDeprecations(path: string) returns (summary: string)
    ensures summary == ""
  {
    var formatter := new DeprecationFormatter(Path(path));
    formatter.DeprecationSummary();
    summary := StreamText(formatter.summaryOut);
  }

  /** One deprecation to an open stream, then the summary; returns what the
      summary stream reads. */
  method NotPrintedForOpenStream() returns (summary: string)
    ensures summary == ""
  {
    var formatter := new DeprecationFormatter(Stream);
    formatter.Deprecation(DeprecationEvent(None, Some("whatevs"), None, None));
    formatter.DeprecationSummary();
    summary := StreamText(formatter.summaryOut);
  }
}
