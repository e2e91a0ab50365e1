/** Runs of the recorder driven the way the test runner drives feature
    `f13`: the bare lifecycle, and the whole feature with its three
    examples. */
module F13Run {
  import opened Text
  import opened Decimal
  import opened Tables
  import opened Steps
  import opened Hooks
  import opened Recorder
  import opened F13Tables

  // ---------------------------------------------------------------------
  // The lifecycle: one run with the bare sequence of events, and the run of
  // feature f13 with its three examples

  const F13: FeatureInfo := FeatureInfo("f13", [])
  const S13Info: ScenarioInfo := ScenarioInfo("s13", [])

  /** Run start, feature start, scenario start, step start, step end,
      scenario end, feature end, run end. */
  const Lifecycle: seq<Call> := [
    HookCall(BeforeTestRun), HookCall(BeforeFeature(F13, [])), HookCall(BeforeScenario(S13Info)),
    HookCall(BeforeStep(Given)), HookCall(AfterStep), HookCall(AfterScenario), HookCall(AfterFeature),
    HookCall(AfterTestRun)]

  /** What the eight events write, line by line. */
  const LifecycleLog: seq<string> := [
    "(Hook 'BeforeTestRun'),",
    "(Hook 'BeforeFeature' -withContext @{ Name = 'f13'; Description = $Null; Tags = @() }),",
    "(Hook 'BeforeScenario' -withContext @{ Name = 's13'; Description = $Null; Tags = @() }),",
    "(Hook 'BeforeStep' -withContext @{ StepType = $StepTypeEnum.Given }),",
    "(Hook 'AfterStep'),",
    "(Hook 'AfterScenario'),",
    "(Hook 'AfterFeature'),",
    "(Hook 'AfterTestRun')"]

  /** The eight lifecycle events write eight lines, one per event, in the
      order of the events; only the last goes without its comma. */
  method RunLifecycle() returns (trace: seq<string>)
    ensures trace == LifecycleLog
  {
    var rec := new LoggingStepDefinitions();
    rec.SetupTestRun();
    F13StartsWithoutScenario();
    var threw := rec.SetupFeature(F13, None);
    rec.SetupScenario(S13Info);
    rec.SetupStep(Given);
    rec.StepTeardown();
    rec.TeardownScenario();
    rec.TeardownFeature();
    rec.TeardownTestRun();
    AppendEight(HookCall(BeforeTestRun), HookCall(BeforeFeature(F13, [])), HookCall(BeforeScenario(S13Info)),
      HookCall(BeforeStep(Given)), HookCall(AfterStep), HookCall(AfterScenario), HookCall(AfterFeature),
      HookCall(AfterTestRun));
    assert rec.calls == Lifecycle;
    trace := rec.trace;
    LifecycleTranscript();
  }

  lemma LifecycleTranscript()
    ensures Transcript(Lifecycle) == LifecycleLog
  {
    var t := Transcript(Lifecycle);
    LifecycleCallLines();
    assert forall i :: 0 <= i < 8 ==> t[i] == LifecycleLog[i];
  }

  /** Each lifecycle event writes its line of the log. */
  lemma LifecycleCallLines()
    ensures forall i :: 0 <= i < 8 ==> CallLine(Lifecycle[i]) == LifecycleLog[i]
  {
    FeatureStartLine();
    ScenarioStartLine();
    StepStartLine();
    LifecycleBareLines();
    forall i | 0 <= i < 8
      ensures CallLine(Lifecycle[i]) == LifecycleLog[i]
    {
      if i == 0 {
      } else if i == 1 {
      } else if i == 2 {
      } else if i == 3 {
      } else if i == 4 {
      } else if i == 5 {
      } else if i == 6 {
      } else {
        assert i == 7;
      }
    }
  }

  lemma LifecycleBareLines()
    ensures CallLine(Lifecycle[0]) == LifecycleLog[0]
    ensures CallLine(Lifecycle[4]) == LifecycleLog[4]
    ensures CallLine(Lifecycle[5]) == LifecycleLog[5]
    ensures CallLine(Lifecycle[6]) == LifecycleLog[6]
    ensures CallLine(Lifecycle[7]) == LifecycleLog[7]
  {
  }

  lemma FeatureStartLine()
    ensures CallLine(Lifecycle[1]) == LifecycleLog[1]
  {
    ContextPieces();
    FeatureLinePiecesHead();
    FeatureLinePiecesMiddle();
    FeatureLinePiecesTail();
    RegroupContextLine("(Hook 'BeforeFeature' -withContext @{ Name = '", "f13", "'; Description = $Null; Tags = ", "'; Description", " = $Null", "; Tags = ", "@()", " }),");
    assert HookLine(BeforeFeature(F13, [])) == "(Hook 'BeforeFeature' -withContext @{ Name = 'f13'; Description = $Null; Tags = @() }),";
  }

  lemma ScenarioStartLine()
    ensures CallLine(Lifecycle[2]) == LifecycleLog[2]
  {
    ContextPieces();
    ScenarioLinePiecesHead();
    ScenarioLinePiecesMiddle();
    ScenarioLinePiecesTail();
    RegroupContextLine("(Hook 'BeforeScenario' -withContext @{ Name = '", "s13", "'; Description = $Null; Tags = ", "'; Description", " = $Null", "; Tags = ", "@()", " }),");
    assert HookLine(BeforeScenario(S13Info)) == "(Hook 'BeforeScenario' -withContext @{ Name = 's13'; Description = $Null; Tags = @() }),";
  }

  lemma StepStartLine()
    ensures CallLine(Lifecycle[3]) == LifecycleLog[3]
  {
    StepLinePieces();
    assert HookLine(BeforeStep(Given)) == "(Hook 'BeforeStep' -withContext @{ StepType = $StepTypeEnum.Given }),";
  }

  lemma RegroupContextLine(a: string, title: string, m: string, m1: string, m2: string, m3: string, tags: string, z: string)
    requires m == m1 + m2 + m3
    ensures a + title + m + tags + z == a + title + m1 + m2 + m3 + tags + z
  {
  }

  /** The fixed text between a context's title and its tags. */
  lemma ContextPieces()
    ensures "'; Description = $Null" == "'; Description" + " = $Null"
    ensures "'; Description = $Null; Tags = " == "'; Description = $Null" + "; Tags = "
  {
  }

  /** The line of the f13 feature hook. */
  lemma FeatureLinePiecesHead()
    ensures "(Hook 'BeforeFeature' -withContext @{ Name = 'f13" == "(Hook 'BeforeFeature' -withContext @{ Name = '" + "f13"
    ensures "(Hook 'BeforeFeature' -withContext @{ Name = 'f13'; Description" == "(Hook 'BeforeFeature' -withContext @{ Name = 'f13" + "'; Description"
  {
  }

  lemma FeatureLinePiecesMiddle()
    ensures "(Hook 'BeforeFeature' -withContext @{ Name = 'f13'; Description = $Null" == "(Hook 'BeforeFeature' -withContext @{ Name = 'f13'; Description" + " = $Null"
    ensures "(Hook 'BeforeFeature' -withContext @{ Name = 'f13'; Description = $Null; Tags = " == "(Hook 'BeforeFeature' -withContext @{ Name = 'f13'; Description = $Null" + "; Tags = "
  {
  }

  lemma FeatureLinePiecesTail()
    ensures "(Hook 'BeforeFeature' -withContext @{ Name = 'f13'; Description = $Null; Tags = @()" == "(Hook 'BeforeFeature' -withContext @{ Name = 'f13'; Description = $Null; Tags = " + "@()"
    ensures "(Hook 'BeforeFeature' -withContext @{ Name = 'f13'; Description = $Null; Tags = @() })," == "(Hook 'BeforeFeature' -withContext @{ Name = 'f13'; Description = $Null; Tags = @()" + " }),"
  {
  }

  /** The line of the s13 scenario hook. */
  lemma ScenarioLinePiecesHead()
    ensures "(Hook 'BeforeScenario' -withContext @{ Name = 's13" == "(Hook 'BeforeScenario' -withContext @{ Name = '" + "s13"
    ensures "(Hook 'BeforeScenario' -withContext @{ Name = 's13'; Description" == "(Hook 'BeforeScenario' -withContext @{ Name = 's13" + "'; Description"
  {
  }

  lemma ScenarioLinePiecesMiddle()
    ensures "(Hook 'BeforeScenario' -withContext @{ Name = 's13'; Description = $Null" == "(Hook 'BeforeScenario' -withContext @{ Name = 's13'; Description" + " = $Null"
    ensures "(Hook 'BeforeScenario' -withContext @{ Name = 's13'; Description = $Null; Tags = " == "(Hook 'BeforeScenario' -withContext @{ Name = 's13'; Description = $Null" + "; Tags = "
  {
  }

  lemma ScenarioLinePiecesTail()
    ensures "(Hook 'BeforeScenario' -withContext @{ Name = 's13'; Description = $Null; Tags = @()" == "(Hook 'BeforeScenario' -withContext @{ Name = 's13'; Description = $Null; Tags = " + "@()"
    ensures "(Hook 'BeforeScenario' -withContext @{ Name = 's13'; Description = $Null; Tags = @() })," == "(Hook 'BeforeScenario' -withContext @{ Name = 's13'; Description = $Null; Tags = @()" + " }),"
  {
  }

  /** The line of a Given step hook. */
  lemma StepLinePieces()
    ensures "(Hook 'BeforeStep' -withContext @{ StepType = $StepTypeEnum.Given" == "(Hook 'BeforeStep' -withContext @{ StepType = $StepTypeEnum." + "Given"
    ensures "(Hook 'BeforeStep' -withContext @{ StepType = $StepTypeEnum.Given })," == "(Hook 'BeforeStep' -withContext @{ StepType = $StepTypeEnum.Given" + " }),"
  {
  }

  /** The calls of one block of scenario s13: block start, step start, the
      step, step end, block end. */
  function BlockCalls(kind: StepKind, step: Step): seq<Call> {
    [HookCall(BeforeScenarioBlock(InBlock(kind))), HookCall(BeforeStep(kind)), StepCall(step),
     HookCall(AfterStep), HookCall(AfterScenarioBlock)]
  }

  /** The calls of scenario s13 for one example amount. */
  function S13Calls(amount: Int32): seq<Call> {
    [HookCall(BeforeScenario(S13Info))]
      + BlockCalls(Given, Steps.HaveTheseFriends(FriendsTable))
      + BlockCalls(When, Steps.BorrowDollarsFrom(amount, BorrowTable))
      + BlockCalls(Then, Steps.ShouldHaveOnlyFriend("Sam"))
      + [HookCall(AfterScenario)]
  }

  /** The calls of a whole run of feature f13: its three examples in order. */
  function F13Calls(): seq<Call> {
    [HookCall(BeforeTestRun), HookCall(BeforeFeature(F13, []))]
      + S13Calls(42) + S13Calls(1923) + S13Calls(1000000)
      + [HookCall(AfterFeature), HookCall(AfterTestRun)]
  }

  /** Drives the Given block of scenario s13. */
  method GivenBlock(rec: LoggingStepDefinitions, friends: Table)
    requires rec.Valid()
    modifies rec
    ensures rec.Valid() && rec.calls == old(rec.calls) + BlockCalls(Given, Steps.HaveTheseFriends(friends))
  {
    ghost var before := rec.calls;
    rec.SetupScenarioBlock(InBlock(Given));
    rec.SetupStep(Given);
    rec.HaveTheseFriends(friends);
    rec.StepTeardown();
    rec.TeardownScenarioBlock();
    AppendFive(before, HookCall(BeforeScenarioBlock(InBlock(Given))), HookCall(BeforeStep(Given)),
      StepCall(Steps.HaveTheseFriends(friends)), HookCall(AfterStep), HookCall(AfterScenarioBlock));
  }

  /** Drives the When block of scenario s13. */
  method WhenBlock(rec: LoggingStepDefinitions, amount: Int32, borrowed: Table)
    requires rec.Valid()
    modifies rec
    ensures rec.Valid() && rec.calls == old(rec.calls) + BlockCalls(When, Steps.BorrowDollarsFrom(amount, borrowed))
  {
    ghost var before := rec.calls;
    rec.SetupScenarioBlock(InBlock(When));
    rec.SetupStep(When);
    rec.BorrowDollarsFrom(amount, borrowed);
    rec.StepTeardown();
    rec.TeardownScenarioBlock();
    AppendFive(before, HookCall(BeforeScenarioBlock(InBlock(When))), HookCall(BeforeStep(When)),
      StepCall(Steps.BorrowDollarsFrom(amount, borrowed)), HookCall(AfterStep), HookCall(AfterScenarioBlock));
  }

  /** Drives the Then block of scenario s13. */
  method ThenBlock(rec: LoggingStepDefinitions, friendName: string)
    requires rec.Valid()
    modifies rec
    ensures rec.Valid() && rec.calls == old(rec.calls) + BlockCalls(Then, Steps.ShouldHaveOnlyFriend(friendName))
  {
    ghost var before := rec.calls;
    rec.SetupScenarioBlock(InBlock(Then));
    rec.SetupStep(Then);
    rec.ShouldHaveOnlyFriend(friendName);
    rec.StepTeardown();
    rec.TeardownScenarioBlock();
    AppendFive(before, HookCall(BeforeScenarioBlock(InBlock(Then))), HookCall(BeforeStep(Then)),
      StepCall(Steps.ShouldHaveOnlyFriend(friendName)), HookCall(AfterStep), HookCall(AfterScenarioBlock));
  }

  /** Drives one example of scenario s13 through the recorder. */
  method RunS13(rec: LoggingStepDefinitions, amount: Int32)
    requires rec.Valid()
    modifies rec
    ensures rec.Valid() && rec.calls == old(rec.calls) + S13Calls(amount)
  {
    ghost var before := rec.calls;
    rec.SetupScenario(S13Info);
    GivenBlock(rec, FriendsTable);
    WhenBlock(rec, amount, BorrowTable);
    ThenBlock(rec, "Sam");
    rec.TeardownScenario();
    AppendAround(before, HookCall(BeforeScenario(S13Info)),
      BlockCalls(Given, Steps.HaveTheseFriends(FriendsTable)),
      BlockCalls(When, Steps.BorrowDollarsFrom(amount, BorrowTable)),
      BlockCalls(Then, Steps.ShouldHaveOnlyFriend("Sam")),
      HookCall(AfterScenario));
  }

  /** Runs feature f13 with the amounts 42, 1923 and 1000000. */
  method RunF13() returns (trace: seq<string>)
    ensures trace == Transcript(F13Calls())
  {
    var rec := new LoggingStepDefinitions();
    rec.SetupTestRun();
    F13StartsWithoutScenario();
    var threw := rec.SetupFeature(F13, None);
    RunS13(rec, 42);
    RunS13(rec, 1923);
    RunS13(rec, 1000000);
    rec.TeardownFeature();
    rec.TeardownTestRun();
    RunRegroup(HookCall(BeforeTestRun), HookCall(BeforeFeature(F13, [])), S13Calls(42), S13Calls(1923), S13Calls(1000000),
      HookCall(AfterFeature), HookCall(AfterTestRun));
    trace := rec.trace;
  }

  /** Feature f13 has no tags, so its start writes its line although no
      scenario is current yet. */
  lemma F13StartsWithoutScenario()
    ensures FeatureHook(F13, None) == Some(BeforeFeature(F13, []))
  {
  }

  /** Every call of scenario s13 writes a line that reads back as itself,
      and none of them is the run end. */
  lemma S13Recoverable(amount: Int32)
    ensures forall c :: c in S13Calls(amount) ==> Recoverable(c) && c != HookCall(AfterTestRun)
  {
    FriendsTableUnambiguous();
    BorrowTableUnambiguous();
  }

  /** The run of f13 writes 55 lines: every line but the last ends with the
      separating `),`, and the last is the run-end line. */
  lemma F13TraceSeparated()
    ensures |Transcript(F13Calls())| == 55
    ensures forall i :: 0 <= i < 54 ==> EndsWith(Transcript(F13Calls())[i], "),")
    ensures Transcript(F13Calls())[54] == "(Hook 'AfterTestRun')"
  {
    var calls := F13Calls();
    var middle := S13Calls(42) + S13Calls(1923) + S13Calls(1000000);
    assert calls == [HookCall(BeforeTestRun), HookCall(BeforeFeature(F13, []))] + middle
      + [HookCall(AfterFeature), HookCall(AfterTestRun)];
    S13Recoverable(42);
    S13Recoverable(1923);
    S13Recoverable(1000000);
    forall i | 0 <= i < |calls| - 1
      ensures calls[i] != HookCall(AfterTestRun)
    {
      if 2 <= i < 2 + |middle| {
        assert calls[i] == middle[i - 2];
        assert calls[i] in middle;
      }
    }
    TraceSeparated(calls);
  }

  /** Every line of the f13 trace, the untagged feature line included, reads back as the
      call that wrote it. */
  lemma F13TraceReadsBack()
    ensures forall i :: 0 <= i < |F13Calls()| ==>
      ParseCallLine(Transcript(F13Calls())[i]) == Some(F13Calls()[i])
  {
    var calls := F13Calls();
    var middle := S13Calls(42) + S13Calls(1923) + S13Calls(1000000);
    assert calls == [HookCall(BeforeTestRun), HookCall(BeforeFeature(F13, []))] + middle
      + [HookCall(AfterFeature), HookCall(AfterTestRun)];
    S13Recoverable(42);
    S13Recoverable(1923);
    S13Recoverable(1000000);
    forall i | 0 <= i < |calls|
      ensures ParseCallLine(Transcript(calls)[i]) == Some(calls[i])
    {
      if 2 <= i < 2 + |middle| {
        assert calls[i] == middle[i - 2];
        assert calls[i] in middle;
      }
      ParseCallLineRoundTrip(calls[i]);
    }
  }
  lemma AppendEight<T>(a: T, b: T, c: T, d: T, e: T, f: T, g: T, h: T)
    ensures [] + [a] + [b] + [c] + [d] + [e] + [f] + [g] + [h] == [a, b, c, d, e, f, g, h]
  {
  }

  lemma AppendFive<T>(s: seq<T>, a: T, b: T, c: T, d: T, e: T)
    ensures s + [a] + [b] + [c] + [d] + [e] == s + [a, b, c, d, e]
  {
  }

  lemma AppendAround<T>(s: seq<T>, a: T, x: seq<T>, y: seq<T>, z: seq<T>, b: T)
    ensures s + [a] + x + y + z + [b] == s + ([a] + x + y + z + [b])
  {
  }

  lemma RunRegroup<T>(a: T, b: T, x: seq<T>, y: seq<T>, z: seq<T>, c: T, d: T)
    ensures [] + [a] + [b] + x + y + z + [c] + [d] == [a, b] + x + y + z + [c, d]
  {
  }
}
