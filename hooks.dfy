/** The ten lifecycle hook handlers of the trace recorder. Each renders one
    line

      (Hook '<hook name>' [-withContext <context literal>]),

    where the feature and scenario hooks carry a `@{ Name = ...; Description
    = $Null; Tags = ... }` record, the block and step hooks carry the kind of
    the block or step, and the closing `,` is missing from the very last
    line, the one written after the test run. */
module Hooks {
  import opened Text
  import opened Tags
  import opened Steps

  /** The read-only feature and scenario contexts a hook can see: a title
      and the tags. */
  datatype FeatureInfo = FeatureInfo(title: string, tags: seq<string>)
  datatype ScenarioInfo = ScenarioInfo(title: string, tags: seq<string>)

  /** The block of the current scenario: none yet, or a Given, When or Then
      block. */
  datatype ScenarioBlock = NoBlock | InBlock(kind: StepKind)

  /** An enumeration member as string interpolation spells it. */
  function KindName(kind: StepKind): string {
    match kind
    case Given => "Given"
    case When => "When"
    case Then => "Then"
  }

  function BlockName(block: ScenarioBlock): string {
    match block
    case NoBlock => "None"
    case InBlock(kind) => KindName(kind)
  }

  /** A call of one hook handler, with the ambient context values it reads.
      `BeforeFeature` reads the feature's title and tags, and also the
      current scenario's tags (see Tags.DescribeTags). */
  datatype Hook =
    | BeforeTestRun
    | AfterTestRun
    | BeforeFeature(feature: FeatureInfo, scenarioTags: seq<string>)
    | AfterFeature
    | BeforeScenario(scenario: ScenarioInfo)
    | AfterScenario
    | BeforeScenarioBlock(block: ScenarioBlock)
    | AfterScenarioBlock
    | BeforeStep(stepType: StepKind)
    | AfterStep

  /** The feature hook a feature start produces, given the scenario that is
      current then, if any. A tagged feature makes the handler read the
      current scenario's tags; with no current scenario that read throws and
      the handler writes nothing, which is `None` here. An untagged feature
      never reads the scenario context. */
  function FeatureHook(feature: FeatureInfo, current: Option<ScenarioInfo>): (r: Option<Hook>)
    ensures r.None? <==> |feature.tags| > 0 && current.None?
    ensures r.Some? ==> r.value.BeforeFeature? && r.value.feature == feature
    ensures r.Some? ==>
      DescribeTags(feature.tags, r.value.scenarioTags)
        == (if |feature.tags| == 0 then "@()" else Join(",", current.value.tags))
  {
    if |feature.tags| == 0 then Some(BeforeFeature(feature, []))
    else
      match current
      case None => None
      case Some(scenario) => Some(BeforeFeature(feature, scenario.tags))
  }

  /** The line each handler writes. */
  function HookLine(h: Hook): string {
    match h
    case BeforeTestRun => "(Hook 'BeforeTestRun'),"
    case AfterTestRun => "(Hook 'AfterTestRun')"
    case BeforeFeature(feature, scenarioTags) =>
      "(Hook 'BeforeFeature' -withContext @{ Name = '" + feature.title + "'; Description = $Null; Tags = "
        + DescribeTags(feature.tags, scenarioTags) + " }),"
    case AfterFeature => "(Hook 'AfterFeature'),"
    case BeforeScenario(scenario) =>
      "(Hook 'BeforeScenario' -withContext @{ Name = '" + scenario.title + "'; Description = $Null; Tags = "
        + DescribeTags(scenario.tags, scenario.tags) + " }),"
    case AfterScenario => "(Hook 'AfterScenario'),"
    case BeforeScenarioBlock(block) =>
      "(Hook 'BeforeScenarioBlock' -withContext @{ BlockType = $StepTypeEnum." + BlockName(block) + " }),"
    case AfterScenarioBlock => "(Hook 'AfterScenarioBlock'),"
    case BeforeStep(stepType) =>
      "(Hook 'BeforeStep' -withContext @{ StepType = $StepTypeEnum." + KindName(stepType) + " }),"
    case AfterStep => "(Hook 'AfterStep'),"
  }

  // ---------------------------------------------------------------------
  // The general layout of a hook line

  function HookName(h: Hook): string {
    match h
    case BeforeTestRun => "BeforeTestRun"
    case AfterTestRun => "AfterTestRun"
    case BeforeFeature(_, _) => "BeforeFeature"
    case AfterFeature => "AfterFeature"
    case BeforeScenario(_) => "BeforeScenario"
    case AfterScenario => "AfterScenario"
    case BeforeScenarioBlock(_) => "BeforeScenarioBlock"
    case AfterScenarioBlock => "AfterScenarioBlock"
    case BeforeStep(_) => "BeforeStep"
    case AfterStep => "AfterStep"
  }

  /** The record a feature or scenario hook attaches. */
  function ContextLiteral(title: string, tags: string): string {
    "@{ Name = '" + title + "'; Description = $Null; Tags = " + tags + " }"
  }

  /** The record a block or step hook attaches. */
  function KindLiteral(field: string, name: string): string {
    "@{ " + field + " = $StepTypeEnum." + name + " }"
  }

  function HookContext(h: Hook): Option<string> {
    match h
    case BeforeFeature(feature, scenarioTags) =>
      Some(ContextLiteral(feature.title, DescribeTags(feature.tags, scenarioTags)))
    case BeforeScenario(scenario) =>
      Some(ContextLiteral(scenario.title, DescribeTags(scenario.tags, scenario.tags)))
    case BeforeScenarioBlock(block) => Some(KindLiteral("BlockType", BlockName(block)))
    case BeforeStep(stepType) => Some(KindLiteral("StepType", KindName(stepType)))
    case _ => None
  }

  /** `(Hook '<name>' [-withContext <context>])`, followed by the `,` that
      separates it from the next line when `separated`. */
  function RenderHook(name: string, context: Option<string>, separated: bool): string {
    "(Hook " + Quoted(name)
      + (match context case None => "" case Some(c) => " -withContext " + c)
      + ")" + (if separated then "," else "")
  }

  // ---------------------------------------------------------------------
  // Properties

  /** Every hook line follows the general layout; only the line written
      after the test run goes without its separating comma. */
  lemma HookLineFollowsLayout(h: Hook)
    ensures HookLine(h) == RenderHook(HookName(h), HookContext(h), !h.AfterTestRun?)
  {
    if h.BeforeFeature? || h.BeforeScenario? || h.BeforeScenarioBlock? || h.BeforeStep? {
      ContextHookLayout(h);
    } else {
      BareLayouts();
    }
  }

  lemma ContextHookLayout(h: Hook)
    requires h.BeforeFeature? || h.BeforeScenario? || h.BeforeScenarioBlock? || h.BeforeStep?
    ensures HookLine(h) == RenderHook(HookName(h), HookContext(h), true)
  {
    match h
    case BeforeFeature(feature, scenarioTags) =>
      FeatureLayout(feature.title, DescribeTags(feature.tags, scenarioTags));
    case BeforeScenario(scenario) =>
      ScenarioLayout(scenario.title, DescribeTags(scenario.tags, scenario.tags));
    case BeforeScenarioBlock(block) => BlockLayout(BlockName(block));
    case BeforeStep(stepType) => StepTypeLayout(KindName(stepType));
  }

  lemma BareLayouts()
    ensures "(Hook 'BeforeTestRun')," == RenderHook("BeforeTestRun", None, true)
    ensures "(Hook 'AfterTestRun')" == RenderHook("AfterTestRun", None, false)
    ensures "(Hook 'AfterFeature')," == RenderHook("AfterFeature", None, true)
    ensures "(Hook 'AfterScenario')," == RenderHook("AfterScenario", None, true)
    ensures "(Hook 'AfterScenarioBlock')," == RenderHook("AfterScenarioBlock", None, true)
    ensures "(Hook 'AfterStep')," == RenderHook("AfterStep", None, true)
  {
    BeforeTestRunLayout();
    AfterTestRunLayout();
    AfterFeatureLayout();
    AfterScenarioLayout();
    AfterScenarioBlockLayout();
    AfterStepLayout();
  }

  lemma BeforeTestRunLayout()
    ensures "(Hook 'BeforeTestRun')," == "(Hook " + ("'" + "BeforeTestRun" + "'") + "" + ")" + ","
  {
  }

  lemma AfterTestRunLayout()
    ensures "(Hook 'AfterTestRun')" == "(Hook " + ("'" + "AfterTestRun" + "'") + "" + ")" + ""
  {
  }

  lemma AfterFeatureLayout()
    ensures "(Hook 'AfterFeature')," == "(Hook " + ("'" + "AfterFeature" + "'") + "" + ")" + ","
  {
  }

  lemma AfterScenarioLayout()
    ensures "(Hook 'AfterScenario')," == "(Hook " + ("'" + "AfterScenario" + "'") + "" + ")" + ","
  {
  }

  lemma AfterScenarioBlockLayout()
    ensures "(Hook 'AfterScenarioBlock')," == "(Hook " + ("'" + "AfterScenarioBlock" + "'") + "" + ")" + ","
  {
  }

  lemma AfterStepLayout()
    ensures "(Hook 'AfterStep')," == "(Hook " + ("'" + "AfterStep" + "'") + "" + ")" + ","
  {
  }

  lemma FeatureLayout(title: string, tags: string)
    ensures "(Hook 'BeforeFeature' -withContext @{ Name = '" + title + "'; Description = $Null; Tags = "
        + tags + " }),"
      == RenderHook("BeforeFeature", Some(ContextLiteral(title, tags)), true)
  {
    FeatureHead();
    ContextTail();
    RegroupContext("(Hook ", "'" + "BeforeFeature" + "'", " -withContext ", "@{ Name = '",
      title, "'; Description = $Null; Tags = ", tags, " }", ")", ",");
  }

  lemma ScenarioLayout(title: string, tags: string)
    ensures "(Hook 'BeforeScenario' -withContext @{ Name = '" + title + "'; Description = $Null; Tags = "
        + tags + " }),"
      == RenderHook("BeforeScenario", Some(ContextLiteral(title, tags)), true)
  {
    ScenarioHead();
    ContextTail();
    RegroupContext("(Hook ", "'" + "BeforeScenario" + "'", " -withContext ", "@{ Name = '",
      title, "'; Description = $Null; Tags = ", tags, " }", ")", ",");
  }

  lemma BlockLayout(name: string)
    ensures "(Hook 'BeforeScenarioBlock' -withContext @{ BlockType = $StepTypeEnum." + name + " }),"
      == RenderHook("BeforeScenarioBlock", Some(KindLiteral("BlockType", name)), true)
  {
    BlockHead();
    ContextTail();
    RegroupKind("(Hook ", "'" + "BeforeScenarioBlock" + "'", " -withContext ", "@{ ", "BlockType",
      " = $StepTypeEnum.", name, " }", ")", ",");
  }

  lemma StepTypeLayout(name: string)
    ensures "(Hook 'BeforeStep' -withContext @{ StepType = $StepTypeEnum." + name + " }),"
      == RenderHook("BeforeStep", Some(KindLiteral("StepType", name)), true)
  {
    StepTypeHead();
    ContextTail();
    RegroupKind("(Hook ", "'" + "BeforeStep" + "'", " -withContext ", "@{ ", "StepType",
      " = $StepTypeEnum.", name, " }", ")", ",");
  }

  // The fixed texts of the hooks, cut at the seams of the general layout.

  lemma ContextTail()
    ensures " })," == " }" + ")" + ","
  {
  }

  lemma WithContext()
    ensures "' -withContext @{ " == "'" + " -withContext " + "@{ "
  {
  }

  lemma NameField()
    ensures "' -withContext @{ Name = '" == "' -withContext @{ " + "Name = '"
  {
  }

  lemma NameOpen()
    ensures "@{ Name = '" == "@{ " + "Name = '"
  {
  }

  lemma FeatureSplit()
    ensures "(Hook 'BeforeFeature' -withContext @{ Name = '"
      == "(Hook 'BeforeFeature" + "' -withContext @{ Name = '"
  {
  }

  lemma FeatureOpen()
    ensures "(Hook 'BeforeFeature" == "(Hook " + "'" + "BeforeFeature"
  {
  }

  lemma FeatureHead()
    ensures "(Hook 'BeforeFeature' -withContext @{ Name = '"
      == "(Hook " + ("'" + "BeforeFeature" + "'") + " -withContext " + "@{ Name = '"
  {
    FeatureSplit();
    FeatureOpen();
    NameField();
    WithContext();
    NameOpen();
    RegroupHead("(Hook ", "'", "BeforeFeature", " -withContext ", "@{ ", "Name = '");
  }

  lemma ScenarioSplit()
    ensures "(Hook 'BeforeScenario' -withContext @{ Name = '"
      == "(Hook 'BeforeScenario" + "' -withContext @{ Name = '"
  {
  }

  lemma ScenarioOpen()
    ensures "(Hook 'BeforeScenario" == "(Hook " + "'" + "BeforeScenario"
  {
  }

  lemma ScenarioHead()
    ensures "(Hook 'BeforeScenario' -withContext @{ Name = '"
      == "(Hook " + ("'" + "BeforeScenario" + "'") + " -withContext " + "@{ Name = '"
  {
    ScenarioSplit();
    ScenarioOpen();
    NameField();
    WithContext();
    NameOpen();
    RegroupHead("(Hook ", "'", "BeforeScenario", " -withContext ", "@{ ", "Name = '");
  }

  lemma BlockSplit()
    ensures "(Hook 'BeforeScenarioBlock' -withContext @{ BlockType = $StepTypeEnum."
      == "(Hook 'BeforeScenarioBlock" + "' -withContext @{ " + "BlockType = $StepTypeEnum."
  {
    BlockSplitHead();
    BlockSplitTail();
  }

  lemma BlockSplitHead()
    ensures "(Hook 'BeforeScenarioBlock' -withContext @{ BlockType = $StepTypeEnum."
      == "(Hook 'BeforeScenarioBlock' -withContext @{ " + "BlockType = $StepTypeEnum."
  {
  }

  lemma BlockSplitTail()
    ensures "(Hook 'BeforeScenarioBlock' -withContext @{ "
      == "(Hook 'BeforeScenarioBlock" + "' -withContext @{ "
  {
  }

  lemma BlockOpen()
    ensures "(Hook 'BeforeScenarioBlock" == "(Hook " + "'" + "BeforeScenarioBlock"
  {
  }

  lemma BlockField()
    ensures "BlockType = $StepTypeEnum." == "BlockType" + " = $StepTypeEnum."
  {
  }

  lemma BlockHead()
    ensures "(Hook 'BeforeScenarioBlock' -withContext @{ BlockType = $StepTypeEnum."
      == "(Hook " + ("'" + "BeforeScenarioBlock" + "'") + " -withContext " + "@{ " + "BlockType"
        + " = $StepTypeEnum."
  {
    BlockSplit();
    BlockOpen();
    WithContext();
    BlockField();
    RegroupKindHead("(Hook ", "'", "BeforeScenarioBlock", " -withContext ", "@{ ", "BlockType",
      " = $StepTypeEnum.");
  }

  lemma StepTypeSplit()
    ensures "(Hook 'BeforeStep' -withContext @{ StepType = $StepTypeEnum."
      == "(Hook 'BeforeStep" + "' -withContext @{ " + "StepType = $StepTypeEnum."
  {
    StepTypeSplitHead();
    StepTypeSplitTail();
  }

  lemma StepTypeSplitHead()
    ensures "(Hook 'BeforeStep' -withContext @{ StepType = $StepTypeEnum."
      == "(Hook 'BeforeStep' -withContext @{ " + "StepType = $StepTypeEnum."
  {
  }

  lemma StepTypeSplitTail()
    ensures "(Hook 'BeforeStep' -withContext @{ " == "(Hook 'BeforeStep" + "' -withContext @{ "
  {
  }

  lemma StepTypeOpen()
    ensures "(Hook 'BeforeStep" == "(Hook " + "'" + "BeforeStep"
  {
  }

  lemma StepTypeField()
    ensures "StepType = $StepTypeEnum." == "StepType" + " = $StepTypeEnum."
  {
  }

  lemma StepTypeHead()
    ensures "(Hook 'BeforeStep' -withContext @{ StepType = $StepTypeEnum."
      == "(Hook " + ("'" + "BeforeStep" + "'") + " -withContext " + "@{ " + "StepType"
        + " = $StepTypeEnum."
  {
    StepTypeSplit();
    StepTypeOpen();
    WithContext();
    StepTypeField();
    RegroupKindHead("(Hook ", "'", "BeforeStep", " -withContext ", "@{ ", "StepType",
      " = $StepTypeEnum.");
  }

  // Regrouping the pieces of a line, with every piece left abstract.

  lemma RegroupHead(open: string, q: string, name: string, with: string, brace: string, field: string)
    ensures (open + q + name) + ((q + with + brace) + field)
      == open + (q + name + q) + with + (brace + field)
  {
  }

  lemma RegroupKindHead(open: string, q: string, name: string, with: string, brace: string,
                        field: string, enum: string)
    ensures (open + q + name) + (q + with + brace) + (field + enum)
      == open + (q + name + q) + with + brace + field + enum
  {
  }

  lemma RegroupContext(open: string, qname: string, with: string, nameField: string, title: string,
                       middle: string, tags: string, close: string, paren: string, comma: string)
    ensures (open + qname + with + nameField) + title + middle + tags + (close + paren + comma)
      == open + qname + (with + (nameField + title + middle + tags + close)) + paren + comma
  {
  }

  lemma RegroupKind(open: string, qname: string, with: string, brace: string, field: string,
                    enum: string, name: string, close: string, paren: string, comma: string)
    ensures (open + qname + with + brace + field + enum) + name + (close + paren + comma)
      == open + qname + (with + (brace + field + enum + name + close)) + paren + comma
  {
  }

  /** Every hook line opens with `(Hook '<name>'` and closes with `)`; the
      line closes with `),` exactly when it is not the one written after
      the test run. */
  lemma HookLineEnds(h: Hook)
    ensures StartsWith(HookLine(h), "(Hook '" + HookName(h) + "'")
    ensures EndsWith(HookLine(h), if h.AfterTestRun? then ")" else "),")
    ensures EndsWith(HookLine(h), "),") <==> !h.AfterTestRun?
  {
    HookLineFollowsLayout(h);
    RenderHookEnds(HookName(h), HookContext(h), !h.AfterTestRun?);
  }

  lemma RenderHookEnds(name: string, context: Option<string>, separated: bool)
    ensures StartsWith(RenderHook(name, context, separated), "(Hook '" + name + "'")
    ensures EndsWith(RenderHook(name, context, separated), if separated then ")," else ")")
    ensures EndsWith(RenderHook(name, context, separated), "),") <==> separated
  {
    var clause := match context case None => "" case Some(c) => " -withContext " + c;
    var tail := clause + ")" + (if separated then "," else "");
    var line := RenderHook(name, context, separated);
    HookOpen();
    assert line == ("(Hook '" + name + "'") + tail;
    StartsWithConcat("(Hook '" + name + "'", tail);
    if separated {
      assert line[|line| - 2..] == "),";
    } else {
      assert line[|line| - 1..] == ")";
      assert line[|line| - 2..][1] == ')';
    }
  }

  lemma HookOpen()
    ensures "(Hook '" == "(Hook " + "'"
  {
  }

  // ---------------------------------------------------------------------
  // Reading a hook line back

  /** Reads the general layout back: the hook name, the context literal if
      any, and whether the separating comma is there. */
  function ParseHook(line: string): Option<(string, Option<string>, bool)> {
    match Expect(line, "(Hook ")
    case None => None
    case Some(r0) =>
      match ParseQuoted(r0)
      case None => None
      case Some((name, r1)) => ParseHookTail(name, r1)
  }

  /** What follows the hook name: the optional context clause, `)`, and
      the separating comma if any. */
  function ParseHookTail(name: string, r1: string): Option<(string, Option<string>, bool)> {
    var separated := EndsWith(r1, "),");
    var closing := if separated then ")," else ")";
    if !EndsWith(r1, closing) then None
    else
      var inner := r1[..|r1| - |closing|];
      if inner == "" then Some((name, None, separated))
      else
        match Expect(inner, " -withContext ")
        case None => None
        case Some(c) => Some((name, Some(c), separated))
  }

  /** The general layout reads back as what it was rendered from. */
  lemma ParseHookRoundTrip(name: string, context: Option<string>, separated: bool)
    requires '\'' !in name
    ensures ParseHook(RenderHook(name, context, separated)) == Some((name, context, separated))
  {
    var clause := match context case None => "" case Some(c) => " -withContext " + c;
    var r1 := clause + ")" + (if separated then "," else "");
    assert RenderHook(name, context, separated) == "(Hook " + (Quoted(name) + r1);
    ExpectRoundTrip("(Hook ", Quoted(name) + r1);
    ParseQuotedRoundTrip(name, r1);
    ParseHookTailRoundTrip(name, context, separated);
  }

  lemma ParseHookTailRoundTrip(name: string, context: Option<string>, separated: bool)
    ensures var clause := match context case None => "" case Some(c) => " -withContext " + c;
            ParseHookTail(name, clause + ")" + (if separated then "," else "")) == Some((name, context, separated))
  {
    match context
    case None =>
      HookClosing("", separated);
    case Some(c) =>
      HookClosing(" -withContext " + c, separated);
      ExpectRoundTrip(" -withContext ", c);
  }

  /** The closing `)` or `),` is recognised, and what precedes it is the clause. */
  lemma HookClosing(clause: string, separated: bool)
    ensures var r1 := clause + ")" + (if separated then "," else "");
            && EndsWith(r1, "),") == separated
            && EndsWith(r1, if separated then ")," else ")")
            && r1[..|r1| - (if separated then 2 else 1)] == clause
  {
    var closing := if separated then ")," else ")";
    var r1 := clause + ")" + (if separated then "," else "");
    assert r1 == clause + closing;
    assert r1[|r1| - |closing|..] == closing;
    if !separated && |r1| >= 2 {
      assert r1[|r1| - 2..][1] == ')';
    }
    assert r1[..|r1| - |closing|] == clause;
  }

  /** Reads a feature or scenario record back: the title and the tag
      literal. */
  function ParseContextLiteral(c: string): Option<(string, string)> {
    match Expect(c, "@{ Name = ")
    case None => None
    case Some(r0) =>
      match ParseQuoted(r0)
      case None => None
      case Some((title, r1)) =>
        match Between(r1, "; Description = $Null; Tags = ", " }")
        case None => None
        case Some(tags) => Some((title, tags))
  }

  lemma ParseContextLiteralRoundTrip(title: string, tags: string)
    requires '\'' !in title
    ensures ParseContextLiteral(ContextLiteral(title, tags)) == Some((title, tags))
  {
    var middle := "; Description = $Null; Tags = ";
    ContextSeams();
    RegroupRecord("@{ Name = ", "'", title, middle, tags, " }");
    ExpectRoundTrip("@{ Name = ", Quoted(title) + (middle + tags + " }"));
    ParseQuotedRoundTrip(title, middle + tags + " }");
    BetweenRoundTrip(middle, tags, " }");
  }

  lemma ContextSeams()
    ensures "@{ Name = '" == "@{ Name = " + "'"
    ensures "'; Description = $Null; Tags = " == "'" + "; Description = $Null; Tags = "
  {
  }

  lemma RegroupRecord(open: string, q: string, title: string, middle: string, tags: string, close: string)
    ensures (open + q) + title + (q + middle) + tags + close
      == open + ((q + title + q) + (middle + tags + close))
  {
  }

  /** Reads a block or step record back: the enumeration member it names. */
  function ParseKindLiteral(field: string, c: string): Option<string> {
    Between(c, "@{ " + field + " = $StepTypeEnum.", " }")
  }

  lemma ParseKindLiteralRoundTrip(field: string, name: string)
    ensures ParseKindLiteral(field, KindLiteral(field, name)) == Some(name)
  {
    BetweenRoundTrip("@{ " + field + " = $StepTypeEnum.", name, " }");
  }

  function KindOfName(name: string): (r: Option<StepKind>)
    ensures r.Some? ==> KindName(r.value) == name
  {
    if name == "Given" then Some(Given)
    else if name == "When" then Some(When)
    else if name == "Then" then Some(Then)
    else None
  }

  function BlockOfName(name: string): (r: Option<ScenarioBlock>)
    ensures r.Some? ==> BlockName(r.value) == name
  {
    if name == "None" then Some(NoBlock)
    else match KindOfName(name)
      case None => None
      case Some(kind) => Some(InBlock(kind))
  }

  /** The member name reads back as the member. */
  lemma KindNameRoundTrip(kind: StepKind)
    ensures KindOfName(KindName(kind)) == Some(kind)
  {
  }

  lemma BlockNameRoundTrip(block: ScenarioBlock)
    ensures BlockOfName(BlockName(block)) == Some(block)
  {
    match block
    case NoBlock =>
    case InBlock(kind) =>
      assert KindName(kind) != "None";
  }

  /** The hooks that carry no context, by name and separating comma. */
  function BareHook(name: string, separated: bool): Option<Hook> {
    if name == "BeforeTestRun" && separated then Some(BeforeTestRun)
    else if name == "AfterTestRun" && !separated then Some(AfterTestRun)
    else if name == "AfterFeature" && separated then Some(AfterFeature)
    else if name == "AfterScenario" && separated then Some(AfterScenario)
    else if name == "AfterScenarioBlock" && separated then Some(AfterScenarioBlock)
    else if name == "AfterStep" && separated then Some(AfterStep)
    else None
  }

  /** Recognises which hook wrote a line and reads its context back. A
      feature line only shows the tag literal, so the tags it reads are
      given as both the feature's and the scenario's. */
  function ParseHookLine(line: string): Option<Hook> {
    match ParseHook(line)
    case None => None
    case Some((name, None, separated)) => BareHook(name, separated)
    case Some((name, Some(c), separated)) =>
      if !separated then None
      else if name == "BeforeFeature" || name == "BeforeScenario" then
        match ParseContextLiteral(c)
        case None => None
        case Some((title, text)) =>
          if name == "BeforeFeature" then
            Some(BeforeFeature(FeatureInfo(title, ParseTags(text)), ParseTags(text)))
          else Some(BeforeScenario(ScenarioInfo(title, ParseTags(text))))
      else if name == "BeforeScenarioBlock" then
        match ParseKindLiteral("BlockType", c)
        case None => None
        case Some(member) =>
          match BlockOfName(member)
          case None => None
          case Some(block) => Some(BeforeScenarioBlock(block))
      else if name == "BeforeStep" then
        match ParseKindLiteral("StepType", c)
        case None => None
        case Some(member) =>
          match KindOfName(member)
          case None => None
          case Some(kind) => Some(BeforeStep(kind))
      else None
  }

  /** The titles and tags a hook line can carry without garbling it. */
  predicate Readable(h: Hook) {
    match h
    case BeforeFeature(feature, scenarioTags) => '\'' !in feature.title && TagsReadable(scenarioTags)
    case BeforeScenario(scenario) => '\'' !in scenario.title && TagsReadable(scenario.tags)
    case _ => true
  }

  /** Reading a hook line back gives the hook that wrote it; for a feature
      line, a hook that writes the same line. */
  lemma ParseHookLineRoundTrip(h: Hook)
    requires Readable(h)
    ensures !h.BeforeFeature? ==> ParseHookLine(HookLine(h)) == Some(h)
    ensures h.BeforeFeature? ==>
      ParseHookLine(HookLine(h)).Some? && HookLine(ParseHookLine(HookLine(h)).value) == HookLine(h)
    ensures h.BeforeFeature? && |h.feature.tags| == 0 && |h.scenarioTags| == 0 ==>
      ParseHookLine(HookLine(h)) == Some(h)
  {
    match h
    case BeforeFeature(feature, scenarioTags) =>
      ParseFeatureRoundTrip(feature, scenarioTags);
      if |feature.tags| == 0 && |scenarioTags| == 0 {
        ParseUntaggedFeatureRoundTrip(feature);
        assert h == BeforeFeature(feature, []);
      }
    case BeforeScenario(scenario) => ParseScenarioRoundTrip(scenario);
    case BeforeScenarioBlock(block) => ParseBlockRoundTrip(block);
    case BeforeStep(kind) => ParseStepTypeRoundTrip(kind);
    case _ => ParseBareRoundTrip(h);
  }

  lemma ParseBareRoundTrip(h: Hook)
    requires HookContext(h).None?
    ensures ParseHookLine(HookLine(h)) == Some(h)
  {
    var line := RenderHook(HookName(h), None, !h.AfterTestRun?);
    HookLineFollowsLayout(h);
    assert HookLine(h) == line;
    HookNameQuoteFree(h);
    ParseHookRoundTrip(HookName(h), None, !h.AfterTestRun?);
    BareHookOfName(h);
  }

  /** A hook without context is recognised by its name and comma. */
  lemma BareHookOfName(h: Hook)
    requires HookContext(h).None?
    ensures BareHook(HookName(h), !h.AfterTestRun?) == Some(h)
  {
    match h
    case BeforeTestRun =>
    case AfterTestRun =>
    case AfterFeature =>
      assert "AfterFeature"[0] != "BeforeTestRun"[0];
      assert "AfterFeature"[5] != "AfterTestRun"[5];
    case AfterScenario =>
      assert "AfterScenario"[0] != "BeforeTestRun"[0];
      assert |"AfterScenario"| != |"AfterTestRun"| && |"AfterScenario"| != |"AfterFeature"|;
    case AfterScenarioBlock =>
      assert "AfterScenarioBlock"[0] != "BeforeTestRun"[0];
      assert |"AfterScenarioBlock"| != |"AfterTestRun"| && |"AfterScenarioBlock"| != |"AfterFeature"|;
      assert |"AfterScenarioBlock"| != |"AfterScenario"|;
    case AfterStep =>
      assert "AfterStep"[0] != "BeforeTestRun"[0];
      assert |"AfterStep"| != |"AfterTestRun"| && |"AfterStep"| != |"AfterFeature"|;
      assert |"AfterStep"| != |"AfterScenario"| && |"AfterStep"| != |"AfterScenarioBlock"|;
  }

  lemma ParseFeatureRoundTrip(feature: FeatureInfo, scenarioTags: seq<string>)
    requires '\'' !in feature.title && TagsReadable(scenarioTags)
    ensures ParseHookLine(HookLine(BeforeFeature(feature, scenarioTags))).Some?
    ensures HookLine(ParseHookLine(HookLine(BeforeFeature(feature, scenarioTags))).value)
      == HookLine(BeforeFeature(feature, scenarioTags))
  {
    var h := BeforeFeature(feature, scenarioTags);
    var text := DescribeTags(feature.tags, scenarioTags);
    HookLineFollowsLayout(h);
    ParseHookRoundTrip("BeforeFeature", HookContext(h), true);
    ParseContextLiteralRoundTrip(feature.title, text);
    var read := ParseTags(text);
    assert ParseHookLine(HookLine(h)) == Some(BeforeFeature(FeatureInfo(feature.title, read), read));
    FeatureTagsReread(feature.tags, scenarioTags);
    HookLineFollowsLayout(BeforeFeature(FeatureInfo(feature.title, read), read));
  }

  /** The line of an untagged feature, as a feature start makes it, reads
      back exactly. */
  lemma ParseUntaggedFeatureRoundTrip(feature: FeatureInfo)
    requires |feature.tags| == 0 && '\'' !in feature.title
    ensures ParseHookLine(HookLine(BeforeFeature(feature, []))) == Some(BeforeFeature(feature, []))
  {
    var h := BeforeFeature(feature, []);
    var text := DescribeTags(feature.tags, []);
    var c := ContextLiteral(feature.title, text);
    var line := RenderHook("BeforeFeature", Some(c), true);
    HookLineFollowsLayout(h);
    assert HookLine(h) == line;
    ParseHookRoundTrip("BeforeFeature", Some(c), true);
    assert ParseHook(line) == Some(("BeforeFeature", Some(c), true));
    ParseContextLiteralRoundTrip(feature.title, text);
    ScenarioTagsRoundTrip([]);
    assert feature == FeatureInfo(feature.title, []);
  }

  lemma ParseScenarioRoundTrip(scenario: ScenarioInfo)
    requires '\'' !in scenario.title && TagsReadable(scenario.tags)
    ensures ParseHookLine(HookLine(BeforeScenario(scenario))) == Some(BeforeScenario(scenario))
  {
    var h := BeforeScenario(scenario);
    var text := DescribeTags(scenario.tags, scenario.tags);
    var c := ContextLiteral(scenario.title, text);
    var line := RenderHook("BeforeScenario", Some(c), true);
    HookLineFollowsLayout(h);
    assert HookLine(h) == line;
    ParseHookRoundTrip("BeforeScenario", Some(c), true);
    assert ParseHook(line) == Some(("BeforeScenario", Some(c), true));
    HookNamesDiffer();
    ParseContextLiteralRoundTrip(scenario.title, text);
    ScenarioTagsRoundTrip(scenario.tags);
  }

  lemma ParseBlockRoundTrip(block: ScenarioBlock)
    ensures ParseHookLine(HookLine(BeforeScenarioBlock(block))) == Some(BeforeScenarioBlock(block))
  {
    var h := BeforeScenarioBlock(block);
    var c := KindLiteral("BlockType", BlockName(block));
    var line := RenderHook("BeforeScenarioBlock", Some(c), true);
    BlockLayout(BlockName(block));
    assert HookLine(h) == line;
    ParseHookRoundTrip("BeforeScenarioBlock", Some(c), true);
    assert ParseHook(line) == Some(("BeforeScenarioBlock", Some(c), true));
    HookNamesDiffer();
    ParseKindLiteralRoundTrip("BlockType", BlockName(block));
    BlockNameRoundTrip(block);
  }

  lemma ParseStepTypeRoundTrip(kind: StepKind)
    ensures ParseHookLine(HookLine(BeforeStep(kind))) == Some(BeforeStep(kind))
  {
    var h := BeforeStep(kind);
    var c := KindLiteral("StepType", KindName(kind));
    var line := RenderHook("BeforeStep", Some(c), true);
    StepTypeLayout(KindName(kind));
    assert HookLine(h) == line;
    ParseHookRoundTrip("BeforeStep", Some(c), true);
    assert ParseHook(line) == Some(("BeforeStep", Some(c), true));
    HookNamesDiffer();
    ParseKindLiteralRoundTrip("StepType", KindName(kind));
    KindNameRoundTrip(kind);
  }

  lemma HookNamesDiffer()
    ensures "BeforeScenarioBlock" != "BeforeFeature" && "BeforeScenarioBlock" != "BeforeScenario"
    ensures "BeforeStep" != "BeforeFeature" && "BeforeStep" != "BeforeScenario"
    ensures "BeforeStep" != "BeforeScenarioBlock"
    ensures "BeforeScenario" != "BeforeFeature"
  {
    assert "BeforeScenarioBlock"[6] != "BeforeFeature"[6];
    assert |"BeforeScenarioBlock"| != |"BeforeScenario"|;
    assert "BeforeStep"[7] != "BeforeFeature"[7];
    assert |"BeforeStep"| != |"BeforeScenario"|;
    assert |"BeforeStep"| != |"BeforeScenarioBlock"|;
    assert "BeforeScenario"[6] != "BeforeFeature"[6];
  }

  lemma HookNameQuoteFree(h: Hook)
    ensures '\'' !in HookName(h)
  {
  }

  /** The tags read from a feature line render the same tag literal. */
  lemma FeatureTagsReread(featureTags: seq<string>, scenarioTags: seq<string>)
    requires TagsReadable(scenarioTags)
    ensures var read := ParseTags(DescribeTags(featureTags, scenarioTags));
      DescribeTags(read, read) == DescribeTags(featureTags, scenarioTags)
  {
    var text := DescribeTags(featureTags, scenarioTags);
    if |featureTags| > 0 {
      EmptyLiteralIffNoTags(featureTags, scenarioTags);
      var read := ParseTags(text);
      assert |read| > 0;
    }
  }
}
