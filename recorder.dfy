/** The trace recorder: the binding class whose hook and step handlers each
    write one line to the trace sink. The sink is the `trace` field, which
    every handler extends by exactly the line it writes; the ghost `calls`
    field remembers which handler calls produced the trace. */
module Recorder {
  import opened Text
  import opened Decimal
  import opened Tables
  import opened Tags
  import opened Steps
  import opened Hooks

  /** One call of a handler. */
  datatype Call = HookCall(hook: Hook) | StepCall(step: Step)

  function CallLine(c: Call): string {
    match c
    case HookCall(h) => HookLine(h)
    case StepCall(s) => StepLine(s)
  }

  /** The trace a sequence of handler calls writes: one line per call, in
      call order. */
  function Transcript(calls: seq<Call>): (r: seq<string>)
    ensures |r| == |calls|
    ensures forall i :: 0 <= i < |calls| ==> r[i] == CallLine(calls[i])
  {
    if |calls| == 0 then [] else Transcript(calls[..|calls| - 1]) + [CallLine(calls[|calls| - 1])]
  }

  lemma TranscriptAppend(calls: seq<Call>, c: Call)
    ensures Transcript(calls + [c]) == Transcript(calls) + [CallLine(c)]
  {
    assert (calls + [c])[..|calls|] == calls;
  }

  class LoggingStepDefinitions {
    /** The lines written to the trace sink so far. */
    var trace: seq<string>
    /** The handler calls that wrote them. */
    ghost var calls: seq<Call>

    ghost predicate Valid()
      reads this
    {
      trace == Transcript(calls)
    }

    constructor ()
      ensures Valid()
      ensures trace == [] && calls == []
    {
      trace := [];
      calls := [];
    }

    /** `Trace.WriteLine`: appends one line to the sink. */
    method WriteLine(line: string)
      modifies this
      ensures trace == old(trace) + [line]
      ensures calls == old(calls)
    {
      trace := trace + [line];
    }

    /** Writes the line of a handler call and records the call. */
    method Handle(c: Call)
      requires Valid()
      modifies this
      ensures Valid()
      ensures calls == old(calls) + [c]
      ensures trace == old(trace) + [CallLine(c)]
    {
      WriteLine(CallLine(c));
      TranscriptAppend(calls, c);
      calls := calls + [c];
    }

    // Hooks

    method SetupTestRun()
      requires Valid()
      modifies this
      ensures Valid() && calls == old(calls) + [HookCall(BeforeTestRun)]
      ensures trace == old(trace) + [HookLine(BeforeTestRun)]
    {
      Handle(HookCall(BeforeTestRun));
    }

    method TeardownTestRun()
      requires Valid()
      modifies this
      ensures Valid() && calls == old(calls) + [HookCall(AfterTestRun)]
      ensures trace == old(trace) + [HookLine(AfterTestRun)]
    {
      Handle(HookCall(AfterTestRun));
    }

    /** Reads the current feature's title and tags and, for a tagged feature,
        the current scenario's tags. `threw` reports the exception raised
        when a tagged feature starts with no current scenario; the trace is
        then left as it was. */
    method SetupFeature(feature: FeatureInfo, current: Option<ScenarioInfo>) returns (threw: bool)
      requires Valid()
      modifies this
      ensures Valid()
      ensures threw <==> |feature.tags| > 0 && current.None?
      ensures threw ==> calls == old(calls) && trace == old(trace)
      ensures !threw ==> calls == old(calls) + [HookCall(FeatureHook(feature, current).value)]
      ensures !threw ==> trace == old(trace) + [HookLine(FeatureHook(feature, current).value)]
    {
      match FeatureHook(feature, current)
      case None =>
        threw := true;
      case Some(h) =>
        Handle(HookCall(h));
        threw := false;
    }

    method TeardownFeature()
      requires Valid()
      modifies this
      ensures Valid() && calls == old(calls) + [HookCall(AfterFeature)]
      ensures trace == old(trace) + [HookLine(AfterFeature)]
    {
      Handle(HookCall(AfterFeature));
    }

    method SetupScenario(scenario: ScenarioInfo)
      requires Valid()
      modifies this
      ensures Valid() && calls == old(calls) + [HookCall(BeforeScenario(scenario))]
      ensures trace == old(trace) + [HookLine(BeforeScenario(scenario))]
    {
      Handle(HookCall(BeforeScenario(scenario)));
    }

    method TeardownScenario()
      requires Valid()
      modifies this
      ensures Valid() && calls == old(calls) + [HookCall(AfterScenario)]
      ensures trace == old(trace) + [HookLine(AfterScenario)]
    {
      Handle(HookCall(AfterScenario));
    }

    method SetupScenarioBlock(block: ScenarioBlock)
      requires Valid()
      modifies this
      ensures Valid() && calls == old(calls) + [HookCall(BeforeScenarioBlock(block))]
      ensures trace == old(trace) + [HookLine(BeforeScenarioBlock(block))]
    {
      Handle(HookCall(BeforeScenarioBlock(block)));
    }

    method TeardownScenarioBlock()
      requires Valid()
      modifies this
      ensures Valid() && calls == old(calls) + [HookCall(AfterScenarioBlock)]
      ensures trace == old(trace) + [HookLine(AfterScenarioBlock)]
    {
      Handle(HookCall(AfterScenarioBlock));
    }

    method SetupStep(stepType: StepKind)
      requires Valid()
      modifies this
      ensures Valid() && calls == old(calls) + [HookCall(BeforeStep(stepType))]
      ensures trace == old(trace) + [HookLine(BeforeStep(stepType))]
    {
      Handle(HookCall(BeforeStep(stepType)));
    }

    method StepTeardown()
      requires Valid()
      modifies this
      ensures Valid() && calls == old(calls) + [HookCall(AfterStep)]
      ensures trace == old(trace) + [HookLine(AfterStep)]
    {
      Handle(HookCall(AfterStep));
    }

    // Steps

    method HaveTheseFriends(table: Table)
      requires Valid()
      modifies this
      ensures Valid() && calls == old(calls) + [StepCall(Steps.HaveTheseFriends(table))]
      ensures trace == old(trace) + [StepLine(Steps.HaveTheseFriends(table))]
    {
      Handle(StepCall(Steps.HaveTheseFriends(table)));
    }

    method CallMeLikeThis(name: string)
      requires Valid()
      modifies this
      ensures Valid() && calls == old(calls) + [StepCall(Steps.CallMeLikeThis(name))]
      ensures trace == old(trace) + [StepLine(Steps.CallMeLikeThis(name))]
    {
      Handle(StepCall(Steps.CallMeLikeThis(name)));
    }

    method SomePlusSomeGivesSome(first: Int32, second: Int32, sum: Int32)
      requires Valid()
      modifies this
      ensures Valid() && calls == old(calls) + [StepCall(Steps.SomePlusSomeGivesSome(first, second, sum))]
      ensures trace == old(trace) + [StepLine(Steps.SomePlusSomeGivesSome(first, second, sum))]
    {
      Handle(StepCall(Steps.SomePlusSomeGivesSome(first, second, sum)));
    }

    method BorrowDollarsFrom(amount: Int32, table: Table)
      requires Valid()
      modifies this
      ensures Valid() && calls == old(calls) + [StepCall(Steps.BorrowDollarsFrom(amount, table))]
      ensures trace == old(trace) + [StepLine(Steps.BorrowDollarsFrom(amount, table))]
    {
      Handle(StepCall(Steps.BorrowDollarsFrom(amount, table)));
    }

    method ShouldHaveOnlyFriend(friendName: string)
      requires Valid()
      modifies this
      ensures Valid() && calls == old(calls) + [StepCall(Steps.ShouldHaveOnlyFriend(friendName))]
      ensures trace == old(trace) + [StepLine(Steps.ShouldHaveOnlyFriend(friendName))]
    {
      Handle(StepCall(Steps.ShouldHaveOnlyFriend(friendName)));
    }

    method ThenEverythingShouldBeAlright()
      requires Valid()
      modifies this
      ensures Valid() && calls == old(calls) + [StepCall(Steps.ThenEverythingShouldBeAlright)]
      ensures trace == old(trace) + [StepLine(Steps.ThenEverythingShouldBeAlright)]
    {
      Handle(StepCall(Steps.ThenEverythingShouldBeAlright));
    }
  }

  // ---------------------------------------------------------------------
  // Properties of a whole trace

  /** Every line but the one written after the test run ends with the `,`
      that separates it from the next; that one ends with `)`. So when the
      run-end hook comes last and only there, the lines joined together are
      the body of a comma-separated sequence literal. */
  lemma CallLineEnds(c: Call)
    ensures EndsWith(CallLine(c), "),") <==> c != HookCall(AfterTestRun)
    ensures EndsWith(CallLine(c), if c == HookCall(AfterTestRun) then ")" else "),")
  {
    match c
    case HookCall(h) => HookLineEnds(h);
    case StepCall(s) => StepLineShape(s);
  }

  lemma {:induction false} TraceSeparated(calls: seq<Call>)
    requires |calls| > 0 && calls[|calls| - 1] == HookCall(AfterTestRun)
    requires forall i :: 0 <= i < |calls| - 1 ==> calls[i] != HookCall(AfterTestRun)
    ensures forall i :: 0 <= i < |calls| - 1 ==> EndsWith(Transcript(calls)[i], "),")
    ensures EndsWith(Transcript(calls)[|calls| - 1], ")")
    ensures !EndsWith(Transcript(calls)[|calls| - 1], "),")
  {
    forall i | 0 <= i < |calls| - 1
      ensures EndsWith(Transcript(calls)[i], "),")
    {
      CallLineEnds(calls[i]);
    }
    CallLineEnds(calls[|calls| - 1]);
  }

  // ---------------------------------------------------------------------
  // Reading a trace back

  /** Recognises whether a hook or a step wrote a line, and reads it back. */
  function ParseCallLine(line: string): Option<Call> {
    if StartsWith(line, "(Hook ") then
      match ParseHookLine(line)
      case None => None
      case Some(h) => Some(HookCall(h))
    else
      match ParseStepLine(line)
      case None => None
      case Some(s) => Some(StepCall(s))
  }

  /** The calls whose lines read back as themselves: no quote in a title,
      tags without `,` or `@`, tables the table reader can read back, and
      feature hooks only for an untagged feature (a tagged feature's line
      shows the current scenario's tags, not the feature's own). */
  predicate Recoverable(c: Call) {
    match c
    case HookCall(h) => Readable(h) && (h.BeforeFeature? ==> |h.feature.tags| == 0 && |h.scenarioTags| == 0)
    case StepCall(s) => TablesUnambiguous(s)
  }

  lemma ParseCallLineRoundTrip(c: Call)
    requires Recoverable(c)
    ensures ParseCallLine(CallLine(c)) == Some(c)
  {
    match c
    case HookCall(h) =>
      HookLineEnds(h);
      HookOpenIsHook(HookName(h));
      StartsWithTransitive(HookLine(h), "(Hook '" + HookName(h) + "'", "(Hook ");
      ParseHookLineRoundTrip(h);
    case StepCall(s) =>
      StepLineShape(s);
      StepOpenIsNotHook(StepLine(s), Verb(Kind(s)));
      ParseStepLineRoundTrip(s);
  }

  lemma HookOpenIsHook(name: string)
    ensures StartsWith("(Hook '" + name + "'", "(Hook ")
  {
    assert "(Hook '" + name + "'" == "(Hook " + ("'" + name + "'");
    StartsWithConcat("(Hook ", "'" + name + "'");
  }

  lemma StartsWithTransitive(s: string, p: string, q: string)
    requires StartsWith(s, p) && StartsWith(p, q)
    ensures StartsWith(s, q)
  {
    assert s[..|q|] == p[..|q|];
  }

  lemma StepOpenIsNotHook(line: string, verb: string)
    requires StartsWith(line, "(Step -" + verb + " '")
    ensures !StartsWith(line, "(Hook ")
  {
    assert line[1] == ("(Step -" + verb + " '")[1] == 'S';
    assert "(Hook "[1] == 'H';
  }

  /** Reading back the trace of recoverable calls gives the calls, one per
      line, in the order they were made. */
  lemma TraceReadsBack(calls: seq<Call>)
    requires forall i :: 0 <= i < |calls| ==> Recoverable(calls[i])
    ensures forall i :: 0 <= i < |calls| ==> ParseCallLine(Transcript(calls)[i]) == Some(calls[i])
  {
    forall i | 0 <= i < |calls|
      ensures ParseCallLine(Transcript(calls)[i]) == Some(calls[i])
    {
      ParseCallLineRoundTrip(calls[i]);
    }
  }
}
