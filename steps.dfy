/** The six step handlers of the trace recorder. Each renders one line

      (Step -<verb> '<step text>' [-tableArgument <table literal>]),

    where every value captured from the step text appears wrapped as
    `Argument(<value>)`. The lines are written out handler by handler in
    `StepLine`; `RenderStep` is the general layout they follow, and
    `ParseStepLine` reads a line back. */
module Steps {
  import opened Text
  import opened Decimal
  import opened Tables

  /** The binding kinds `[Given]`, `[When]`, `[Then]`. */
  datatype StepKind = Given | When | Then

  /** The verb as a step line spells it. */
  function Verb(kind: StepKind): string {
    match kind
    case Given => "given"
    case When => "when"
    case Then => "then"
  }

  /** A call of one step handler, with its arguments already converted by
      the binding (the table, the captured strings and integers). */
  datatype Step =
    | HaveTheseFriends(table: Table)
    | CallMeLikeThis(name: string)
    | SomePlusSomeGivesSome(first: Int32, second: Int32, sum: Int32)
    | BorrowDollarsFrom(amount: Int32, table: Table)
    | ShouldHaveOnlyFriend(friendName: string)
    | ThenEverythingShouldBeAlright

  /** The line each handler writes. */
  function StepLine(s: Step): string {
    match s
    case HaveTheseFriends(table) =>
      "(Step -given 'I have these friends' -tableArgument " + DescribeTableData(table) + " ),"
    case CallMeLikeThis(name) =>
      "(Step -given 'Call me Argument(" + name + ")'),"
    case SomePlusSomeGivesSome(first, second, sum) =>
      "(Step -when 'Argument(" + FormatInt(first) + ") plus Argument(" + FormatInt(second)
        + ") gives Argument(" + FormatInt(sum) + ")'),"
    case BorrowDollarsFrom(amount, table) =>
      "(Step -when 'I borrow Argument(" + FormatInt(amount) + ") dollars from' -tableArgument "
        + DescribeTableData(table) + "),"
    case ShouldHaveOnlyFriend(friendName) =>
      "(Step -then 'I should have only Argument(" + friendName + ") left as a friend'),"
    case ThenEverythingShouldBeAlright =>
      "(Step -then 'everything should be alright'),"
  }

  // ---------------------------------------------------------------------
  // The general layout of a step line

  /** A piece of step text: fixed pattern text, or a value the pattern
      captured. */
  datatype Fragment = Literal(text: string) | Captured(value: string)

  function Piece(f: Fragment): string {
    match f
    case Literal(text) => text
    case Captured(value) => "Argument(" + value + ")"
  }

  /** Step text with every captured value wrapped as `Argument(<value>)`. */
  function Render(fragments: seq<Fragment>): string
    decreases |fragments|
  {
    if |fragments| == 0 then "" else Piece(fragments[0]) + Render(fragments[1..])
  }

  lemma RenderCons(f: Fragment, fs: seq<Fragment>)
    ensures Render([f] + fs) == Piece(f) + Render(fs)
  {
    assert ([f] + fs)[1..] == fs;
  }

  lemma RenderPair(a: Fragment, b: Fragment)
    ensures Render([a, b]) == Piece(a) + Piece(b)
  {
    RenderCons(b, []);
    RenderCons(a, [b]);
  }

  lemma RenderTriple(a: Fragment, b: Fragment, c: Fragment)
    ensures Render([a, b, c]) == Piece(a) + Piece(b) + Piece(c)
  {
    RenderPair(b, c);
    RenderCons(a, [b, c]);
  }

  function TableClause(table: Option<Table>): string {
    match table
    case None => ""
    case Some(t) => " -tableArgument " + DescribeTableData(t)
  }

  /** A step line without its closing `),`. */
  function StepBody(kind: StepKind, text: string, table: Option<Table>): string {
    "(Step -" + Verb(kind) + " '" + text + "'" + TableClause(table)
  }

  function RenderStep(kind: StepKind, text: string, table: Option<Table>): string {
    StepBody(kind, text, table) + "),"
  }

  /** The binding attribute of each handler. */
  function Kind(s: Step): StepKind {
    match s
    case HaveTheseFriends(_) => Given
    case CallMeLikeThis(_) => Given
    case SomePlusSomeGivesSome(_, _, _) => When
    case BorrowDollarsFrom(_, _) => When
    case ShouldHaveOnlyFriend(_) => Then
    case ThenEverythingShouldBeAlright => Then
  }

  /** The step text each binding pattern matches, split at its captures. */
  function Pattern(s: Step): seq<Fragment> {
    match s
    case HaveTheseFriends(_) => [Literal("I have these friends")]
    case CallMeLikeThis(name) => [Literal("Call me "), Captured(name)]
    case SomePlusSomeGivesSome(first, second, sum) =>
      [Captured(FormatInt(first)), Literal(" plus "), Captured(FormatInt(second)),
       Literal(" gives "), Captured(FormatInt(sum))]
    case BorrowDollarsFrom(amount, _) =>
      [Literal("I borrow "), Captured(FormatInt(amount)), Literal(" dollars from")]
    case ShouldHaveOnlyFriend(friendName) =>
      [Literal("I should have only "), Captured(friendName), Literal(" left as a friend")]
    case ThenEverythingShouldBeAlright => [Literal("everything should be alright")]
  }

  function TableArgument(s: Step): Option<Table> {
    match s
    case HaveTheseFriends(table) => Some(table)
    case BorrowDollarsFrom(_, table) => Some(table)
    case _ => None
  }

  /** The handler's scalar parameters, as interpolation renders them. */
  function Arguments(s: Step): seq<string> {
    match s
    case HaveTheseFriends(_) => []
    case CallMeLikeThis(name) => [name]
    case SomePlusSomeGivesSome(first, second, sum) => [FormatInt(first), FormatInt(second), FormatInt(sum)]
    case BorrowDollarsFrom(amount, _) => [FormatInt(amount)]
    case ShouldHaveOnlyFriend(friendName) => [friendName]
    case ThenEverythingShouldBeAlright => []
  }

  // ---------------------------------------------------------------------
  // Properties

  /** Every handler but one writes exactly the general layout; the odd one,
      HaveTheseFriends, puts a space before its closing `),`. */
  lemma StepLineFollowsLayout(s: Step)
    ensures !s.HaveTheseFriends? ==>
      StepLine(s) == RenderStep(Kind(s), Render(Pattern(s)), TableArgument(s))
    ensures s.HaveTheseFriends? ==>
      StepLine(s) == StepBody(Kind(s), Render(Pattern(s)), TableArgument(s)) + " ),"
  {
    match s
    case HaveTheseFriends(table) => FriendsLayout(table);
    case CallMeLikeThis(name) => CallMeLayout(name);
    case SomePlusSomeGivesSome(first, second, sum) => SumLayout(first, second, sum);
    case BorrowDollarsFrom(amount, table) => BorrowLayout(amount, table);
    case ShouldHaveOnlyFriend(friendName) => OnlyFriendLayout(friendName);
    case ThenEverythingShouldBeAlright => AlrightLayout();
  }

  lemma FriendsLayout(table: Table)
    ensures StepLine(HaveTheseFriends(table))
      == StepBody(Given, Render([Literal("I have these friends")]), Some(table)) + " ),"
  {
    RenderCons(Literal("I have these friends"), []);
    FriendsHead();
    var d := DescribeTableData(table);
    RegroupWithTable("(Step -", "given", " '", "I have these friends" + "", "'", " -tableArgument ", d, " ),");
  }

  lemma CallMeLayout(name: string)
    ensures StepLine(CallMeLikeThis(name))
      == RenderStep(Given, Render([Literal("Call me "), Captured(name)]), None)
  {
    RenderPair(Literal("Call me "), Captured(name));
    CallMeHead();
    CloseQuote();
    assert "(Step -" + "given" + " '" + ("Call me " + ("Argument(" + name + ")")) + "'" + "" + "),"
      == ("(Step -" + "given" + " '" + "Call me " + "Argument(") + name + (")" + "'" + "),");
  }

  lemma SumLayout(first: Int32, second: Int32, sum: Int32)
    ensures StepLine(SomePlusSomeGivesSome(first, second, sum))
      == RenderStep(When, Render(Pattern(SomePlusSomeGivesSome(first, second, sum))), None)
  {
    var a, b, c := FormatInt(first), FormatInt(second), FormatInt(sum);
    RenderPair(Literal(" gives "), Captured(c));
    RenderCons(Captured(b), [Literal(" gives "), Captured(c)]);
    RenderCons(Literal(" plus "), [Captured(b), Literal(" gives "), Captured(c)]);
    RenderCons(Captured(a), [Literal(" plus "), Captured(b), Literal(" gives "), Captured(c)]);
    SumPieces();
    CloseQuote();
    RegroupThreeCaptures("(Step -", "when", " '", "Argument(", a, ")", " plus ", b, " gives ", c, "'", "),");
  }

  lemma BorrowLayout(amount: Int32, table: Table)
    ensures StepLine(BorrowDollarsFrom(amount, table))
      == RenderStep(When, Render(Pattern(BorrowDollarsFrom(amount, table))), Some(table))
  {
    var a, d := FormatInt(amount), DescribeTableData(table);
    RenderTriple(Literal("I borrow "), Captured(a), Literal(" dollars from"));
    BorrowPieces();
    RegroupCaptureWithTable("(Step -", "when", " '", "I borrow ", "Argument(", a, ")", " dollars from", "'",
      " -tableArgument ", d, "),");
  }

  lemma OnlyFriendLayout(friendName: string)
    ensures StepLine(ShouldHaveOnlyFriend(friendName))
      == RenderStep(Then, Render(Pattern(ShouldHaveOnlyFriend(friendName))), None)
  {
    var x := friendName;
    RenderTriple(Literal("I should have only "), Captured(x), Literal(" left as a friend"));
    OnlyFriendPieces();
    RegroupCapture("(Step -", "then", " '", "I should have only ", "Argument(", x, ")", " left as a friend", "'", "),");
  }

  lemma AlrightLayout()
    ensures StepLine(ThenEverythingShouldBeAlright)
      == RenderStep(Then, Render([Literal("everything should be alright")]), None)
  {
    RenderCons(Literal("everything should be alright"), []);
    AlrightPieces();
    assert "(Step -" + "then" + " '" + ("everything should be alright" + "") + "'" + "" + "),"
      == "(Step -" + "then" + " '" + "everything should be alright" + "'" + "),";
  }

  // Regrouping the pieces of a line, with every piece left abstract.

  lemma RegroupWithTable(p1: string, p2: string, p3: string, x: string, q1: string, q2: string,
                         d: string, c: string)
    ensures p1 + p2 + p3 + x + q1 + (q2 + d) + c == (p1 + p2 + p3 + x + q1 + q2) + d + c
  {
  }

  lemma RegroupCapture(p1: string, p2: string, p3: string, lead: string, w: string, x: string,
                       r: string, trail: string, q: string, c: string)
    ensures p1 + p2 + p3 + (lead + (w + x + r) + trail) + q + "" + c
      == (p1 + p2 + p3 + lead + w) + x + (r + trail + q + c)
  {
  }

  lemma RegroupCaptureWithTable(p1: string, p2: string, p3: string, lead: string, w: string, x: string,
                                r: string, trail: string, q: string, ta: string, d: string, c: string)
    ensures p1 + p2 + p3 + (lead + (w + x + r) + trail) + q + (ta + d) + c
      == (p1 + p2 + p3 + lead + w) + x + (r + trail + q + ta) + d + c
  {
  }

  lemma RegroupThreeCaptures(p1: string, p2: string, p3: string, w: string, a: string, r: string,
                             plus: string, b: string, gives: string, c: string, q: string, close: string)
    ensures p1 + p2 + p3 + ((w + a + r) + (plus + ((w + b + r) + (gives + (w + c + r))))) + q + "" + close
      == (p1 + p2 + p3 + w) + a + (r + plus + w) + b + (r + gives + w) + c + (r + q + close)
  {
  }

  // The fixed texts of the handlers, cut at the seams of the general layout.

  lemma GivenHead()
    ensures "(Step -given '" == "(Step -" + "given" + " '"
  {
  }

  lemma ThenHead()
    ensures "(Step -then '" == "(Step -" + "then" + " '"
  {
  }

  lemma CloseQuote()
    ensures ")')," == ")" + "'" + "),"
  {
  }

  lemma FriendsTail()
    ensures "I have these friends' -tableArgument " == "I have these friends" + "'" + " -tableArgument "
  {
  }

  lemma FriendsSplit()
    ensures "(Step -given 'I have these friends' -tableArgument "
      == "(Step -given '" + "I have these friends' -tableArgument "
  {
  }

  lemma FriendsHead()
    ensures "(Step -given 'I have these friends' -tableArgument "
      == "(Step -" + "given" + " '" + "I have these friends" + "'" + " -tableArgument "
  {
    FriendsSplit();
    GivenHead();
    FriendsTail();
    Assoc3x3("(Step -", "given", " '", "I have these friends", "'", " -tableArgument ");
  }

  lemma Assoc3x3(a: string, b: string, c: string, d: string, e: string, f: string)
    ensures (a + b + c) + (d + e + f) == a + b + c + d + e + f
  {
  }

  lemma CallMeHead()
    ensures "(Step -given 'Call me Argument(" == "(Step -" + "given" + " '" + "Call me " + "Argument("
  {
  }

  lemma SumHead()
    ensures "(Step -when 'Argument(" == "(Step -" + "when" + " '" + "Argument("
  {
  }

  lemma PlusSeam()
    ensures ") plus Argument(" == ")" + " plus " + "Argument("
  {
  }

  lemma GivesSeam()
    ensures ") gives Argument(" == ")" + " gives " + "Argument("
  {
  }

  lemma SumPieces()
    ensures "(Step -when 'Argument(" == "(Step -" + "when" + " '" + "Argument("
    ensures ") plus Argument(" == ")" + " plus " + "Argument("
    ensures ") gives Argument(" == ")" + " gives " + "Argument("
  {
    SumHead();
    PlusSeam();
    GivesSeam();
  }

  lemma BorrowHead()
    ensures "(Step -when 'I borrow Argument(" == "(Step -" + "when" + " '" + "I borrow " + "Argument("
  {
  }

  lemma BorrowSeam()
    ensures ") dollars from' -tableArgument " == ")" + " dollars from" + "'" + " -tableArgument "
  {
  }

  lemma BorrowPieces()
    ensures "(Step -when 'I borrow Argument(" == "(Step -" + "when" + " '" + "I borrow " + "Argument("
    ensures ") dollars from' -tableArgument " == ")" + " dollars from" + "'" + " -tableArgument "
  {
    BorrowHead();
    BorrowSeam();
  }

  lemma OnlyFriendSplit()
    ensures "(Step -then 'I should have only Argument("
      == "(Step -then '" + "I should have only Argument("
  {
  }

  lemma OnlyFriendArgument()
    ensures "I should have only Argument(" == "I should have only " + "Argument("
  {
  }

  lemma OnlyFriendTail()
    ensures ") left as a friend')," == ")" + " left as a friend" + "'" + "),"
  {
  }

  lemma OnlyFriendPieces()
    ensures "(Step -then 'I should have only Argument("
      == "(Step -" + "then" + " '" + "I should have only " + "Argument("
    ensures ") left as a friend')," == ")" + " left as a friend" + "'" + "),"
  {
    OnlyFriendSplit();
    ThenHead();
    OnlyFriendArgument();
    Assoc3x2("(Step -", "then", " '", "I should have only ", "Argument(");
    OnlyFriendTail();
  }

  lemma Assoc3x2(a: string, b: string, c: string, d: string, e: string)
    ensures (a + b + c) + (d + e) == a + b + c + d + e
  {
  }

  lemma AlrightSplit()
    ensures "(Step -then 'everything should be alright'),"
      == "(Step -then '" + "everything should be alright'),"
  {
  }

  lemma AlrightTail()
    ensures "everything should be alright')," == "everything should be alright" + "'" + "),"
  {
  }

  lemma AlrightPieces()
    ensures "(Step -then 'everything should be alright'),"
      == "(Step -" + "then" + " '" + "everything should be alright" + "'" + "),"
  {
    AlrightSplit();
    ThenHead();
    AlrightTail();
    Assoc3x3("(Step -", "then", " '", "everything should be alright", "'", "),");
  }

  /** Every step line opens with `(Step -<verb> '` and closes with `),`; a
      step with a table argument carries the table literal after
      `-tableArgument`. */
  lemma StepLineShape(s: Step)
    ensures StartsWith(StepLine(s), "(Step -" + Verb(Kind(s)) + " '")
    ensures EndsWith(StepLine(s), "),")
    ensures TableArgument(s).Some? ==>
      Contains(StepLine(s), " -tableArgument " + DescribeTableData(TableArgument(s).value))
  {
    StepLineFollowsLayout(s);
    BodyShape(Kind(s), Render(Pattern(s)), TableArgument(s), if s.HaveTheseFriends? then " )," else "),");
  }

  /** The shape of a line laid out by `StepBody` and a closing `),`, with or
      without a space before it. */
  lemma BodyShape(kind: StepKind, text: string, table: Option<Table>, close: string)
    requires close == ")," || close == " ),"
    ensures StartsWith(StepBody(kind, text, table) + close, "(Step -" + Verb(kind) + " '")
    ensures EndsWith(StepBody(kind, text, table) + close, "),")
    ensures table.Some? ==>
      Contains(StepBody(kind, text, table) + close, " -tableArgument " + DescribeTableData(table.value))
  {
    var head := "(Step -" + Verb(kind) + " '";
    var clause := TableClause(table);
    Regroup4(head, text, "'", clause, close);
    StartsWithConcat(head, text + "'" + clause + close);
    EndsWithClose(StepBody(kind, text, table), close);
    if table.Some? {
      Regroup3(head, text, "'", clause, close);
      ContainsHead(clause, close);
      ContainsTail(head + text + "'", clause + close, clause);
    }
  }

  lemma Regroup4(h: string, x: string, y: string, z: string, w: string)
    ensures h + x + y + z + w == h + (x + y + z + w)
  {
  }

  lemma Regroup3(h: string, x: string, y: string, z: string, w: string)
    ensures h + x + y + z + w == h + x + y + (z + w)
  {
  }

  lemma EndsWithClose(body: string, close: string)
    requires close == ")," || close == " ),"
    ensures EndsWith(body + close, "),")
  {
    var line := body + close;
    assert line[|line| - 2..] == close[|close| - 2..];
  }

  /** Every captured fragment appears wrapped as `Argument(<value>)` in the
      rendered text. */
  lemma {:induction false} CapturesAppearWrapped(fragments: seq<Fragment>, i: nat)
    requires i < |fragments| && fragments[i].Captured?
    ensures Contains(Render(fragments), "Argument(" + fragments[i].value + ")")
    decreases |fragments|
  {
    var rest := Render(fragments[1..]);
    assert Render(fragments) == Piece(fragments[0]) + rest;
    if i == 0 {
      ContainsHead(Piece(fragments[0]), rest);
    } else {
      CapturesAppearWrapped(fragments[1..], i - 1);
      ContainsTail(Piece(fragments[0]), rest, "Argument(" + fragments[i].value + ")");
    }
  }

  /** What occurs in the step text occurs in the laid-out line. */
  lemma BodyContainsText(kind: StepKind, text: string, table: Option<Table>, close: string, part: string)
    requires Contains(text, part)
    ensures Contains(StepBody(kind, text, table) + close, part)
  {
    var head := "(Step -" + Verb(kind) + " '";
    ContainsWithin(head, text, "'" + TableClause(table) + close, part);
    RegroupBody(head, text, "'", TableClause(table), close);
  }

  lemma RegroupBody(head: string, text: string, quote: string, clause: string, close: string)
    ensures head + text + quote + clause + close == head + text + (quote + clause + close)
  {
  }

  /** The position, in a handler's pattern, of the capture of its k-th
      scalar parameter. */
  function CaptureIndex(s: Step, k: nat): (i: nat)
    requires k < |Arguments(s)|
    ensures i < |Pattern(s)| && Pattern(s)[i] == Captured(Arguments(s)[k])
  {
    if s.SomePlusSomeGivesSome? then 2 * k else 1
  }

  /** Each scalar parameter of a handler appears in its line wrapped as
      `Argument(<value>)`. */
  lemma ArgumentsAppearWrapped(s: Step, k: nat)
    requires k < |Arguments(s)|
    ensures Contains(StepLine(s), "Argument(" + Arguments(s)[k] + ")")
  {
    CapturesAppearWrapped(Pattern(s), CaptureIndex(s, k));
    StepLineFollowsLayout(s);
    BodyContainsText(Kind(s), Render(Pattern(s)), TableArgument(s),
      if s.HaveTheseFriends? then " )," else "),", "Argument(" + Arguments(s)[k] + ")");
  }

  // ---------------------------------------------------------------------
  // Reading a step line back

  /** Recognises which handler wrote a line, by its fixed text, and reads
      the handler's arguments back. */
  function ParseStepLine(line: string): Option<Step> {
    if StartsWith(line, "(Step -given 'I have these friends' -tableArgument ") then
      match Between(line, "(Step -given 'I have these friends' -tableArgument ", " ),")
      case None => None
      case Some(literal) =>
        match ParseTable(literal)
        case None => None
        case Some(t) => Some(HaveTheseFriends(t))
    else if StartsWith(line, "(Step -given 'Call me Argument(") then
      match Between(line, "(Step -given 'Call me Argument(", ")'),")
      case None => None
      case Some(name) => Some(CallMeLikeThis(name))
    else if StartsWith(line, "(Step -when 'Argument(") then
      ParseSum(line[|"(Step -when 'Argument("|..])
    else if StartsWith(line, "(Step -when 'I borrow Argument(") then
      match ParseArgument(line[|"(Step -when 'I borrow Argument("|..])
      case None => None
      case Some((amount, r1)) =>
        match Between(r1, " dollars from' -tableArgument ", "),")
        case None => None
        case Some(literal) =>
          match ParseTable(literal)
          case None => None
          case Some(t) => Some(BorrowDollarsFrom(amount, t))
    else if StartsWith(line, "(Step -then 'I should have only Argument(") then
      match Between(line, "(Step -then 'I should have only Argument(", ") left as a friend'),")
      case None => None
      case Some(name) => Some(ShouldHaveOnlyFriend(name))
    else if line == "(Step -then 'everything should be alright')," then
      Some(ThenEverythingShouldBeAlright)
    else None
  }

  /** The three integers of a sum step, after its opening `Argument(`. */
  function ParseSum(r0: string): Option<Step> {
    match ParseArgument(r0)
    case None => None
    case Some((first, r1)) =>
      match Expect(r1, " plus Argument(")
      case None => None
      case Some(r2) =>
        match ParseArgument(r2)
        case None => None
        case Some((second, r3)) =>
          match Expect(r3, " gives Argument(")
          case None => None
          case Some(r4) =>
            match ParseArgument(r4)
            case None => None
            case Some((sum, r5)) =>
              if r5 == "')," then Some(SomePlusSomeGivesSome(first, second, sum)) else None
  }

  /** The table arguments of a step can be read back (see Tables.Unambiguous). */
  predicate TablesUnambiguous(s: Step) {
    match TableArgument(s)
    case None => true
    case Some(t) => Unambiguous(t)
  }

  /** Reading back a step line gives the handler call that wrote it. */
  lemma ParseStepLineRoundTrip(s: Step)
    requires TablesUnambiguous(s)
    ensures ParseStepLine(StepLine(s)) == Some(s)
  {
    match s
    case HaveTheseFriends(table) => ParseFriendsRoundTrip(table);
    case CallMeLikeThis(name) => ParseCallMeRoundTrip(name);
    case SomePlusSomeGivesSome(first, second, sum) => ParseSumRoundTrip(first, second, sum);
    case BorrowDollarsFrom(amount, table) => ParseBorrowRoundTrip(amount, table);
    case ShouldHaveOnlyFriend(friendName) => ParseOnlyFriendRoundTrip(friendName);
    case ThenEverythingShouldBeAlright => ParseAlrightRoundTrip();
  }

  lemma Assoc(a: string, b: string, c: string)
    ensures a + b + c == a + (b + c)
  {
  }

  lemma ParseFriendsRoundTrip(table: Table)
    requires Unambiguous(table)
    ensures ParseStepLine(StepLine(HaveTheseFriends(table))) == Some(HaveTheseFriends(table))
  {
    var head := "(Step -given 'I have these friends' -tableArgument ";
    var literal := DescribeTableData(table);
    Assoc(head, literal, " ),");
    StartsWithConcat(head, literal + " ),");
    BetweenRoundTrip(head, literal, " ),");
    DescribeTableDataRoundTrip(table);
  }

  lemma ParseCallMeRoundTrip(name: string)
    ensures ParseStepLine(StepLine(CallMeLikeThis(name))) == Some(CallMeLikeThis(name))
  {
    var head := "(Step -given 'Call me Argument(";
    Assoc(head, name, ")'),");
    DiffersAt(head, name + ")'),", "(Step -given 'I have these friends' -tableArgument ", 14);
    StartsWithConcat(head, name + ")'),");
    BetweenRoundTrip(head, name, ")'),");
  }

  lemma ParseSumRoundTrip(first: Int32, second: Int32, sum: Int32)
    ensures ParseStepLine(StepLine(SomePlusSomeGivesSome(first, second, sum)))
      == Some(SomePlusSomeGivesSome(first, second, sum))
  {
    var head := "(Step -when 'Argument(";
    var a, b, c := FormatInt(first), FormatInt(second), FormatInt(sum);
    var r0 := a + ") plus Argument(" + b + ") gives Argument(" + c + ")'),";
    SumLineSplit(head, a, b, c);
    DiffersAt(head, r0, "(Step -given 'I have these friends' -tableArgument ", 7);
    DiffersAt(head, r0, "(Step -given 'Call me Argument(", 7);
    StartsWithConcat(head, r0);
    assert (head + r0)[|head|..] == r0;
    ParseSumTail(first, second, sum);
  }

  lemma SumLineSplit(head: string, a: string, b: string, c: string)
    ensures head + a + ") plus Argument(" + b + ") gives Argument(" + c + ")'),"
      == head + (a + ") plus Argument(" + b + ") gives Argument(" + c + ")'),")
  {
  }

  lemma ParseSumTail(first: Int32, second: Int32, sum: Int32)
    ensures ParseSum(FormatInt(first) + ") plus Argument(" + FormatInt(second) + ") gives Argument("
      + FormatInt(sum) + ")'),") == Some(SomePlusSomeGivesSome(first, second, sum))
  {
    var a, b, c := FormatInt(first), FormatInt(second), FormatInt(sum);
    var r4 := c + ")" + "'),";
    var r2 := b + ")" + (" gives Argument(" + r4);
    var r1 := " plus Argument(" + r2;
    SumSeams();
    RegroupSum(a, b, c, ")", " plus Argument(", " gives Argument(", "'),");
    ParseArgumentRoundTrip(first, r1);
    ExpectRoundTrip(" plus Argument(", r2);
    ParseArgumentRoundTrip(second, " gives Argument(" + r4);
    ExpectRoundTrip(" gives Argument(", r4);
    ParseArgumentRoundTrip(sum, "'),");
  }

  lemma SumSeams()
    ensures ") plus Argument(" == ")" + " plus Argument("
    ensures ") gives Argument(" == ")" + " gives Argument("
    ensures ")')," == ")" + "'),"
  {
  }

  lemma RegroupSum(a: string, b: string, c: string, r: string, plus: string, gives: string, close: string)
    ensures a + (r + plus) + b + (r + gives) + c + (r + close)
      == a + r + (plus + (b + r + (gives + (c + r + close))))
  {
  }

  lemma ParseBorrowRoundTrip(amount: Int32, table: Table)
    requires Unambiguous(table)
    ensures ParseStepLine(StepLine(BorrowDollarsFrom(amount, table))) == Some(BorrowDollarsFrom(amount, table))
  {
    var head := "(Step -when 'I borrow Argument(";
    var a, literal := FormatInt(amount), DescribeTableData(table);
    var r0 := a + ")" + (" dollars from' -tableArgument " + literal + "),");
    BorrowSeam2();
    RegroupBorrow(head, a, ")", " dollars from' -tableArgument ", literal, "),");
    BorrowPrefix(r0);
    assert (head + r0)[|head|..] == r0;
    ParseBorrowTail(amount, table);
  }

  lemma BorrowPrefix(r0: string)
    ensures !StartsWith("(Step -when 'I borrow Argument(" + r0, "(Step -given 'I have these friends' -tableArgument ")
    ensures !StartsWith("(Step -when 'I borrow Argument(" + r0, "(Step -given 'Call me Argument(")
    ensures !StartsWith("(Step -when 'I borrow Argument(" + r0, "(Step -when 'Argument(")
    ensures StartsWith("(Step -when 'I borrow Argument(" + r0, "(Step -when 'I borrow Argument(")
  {
    var head := "(Step -when 'I borrow Argument(";
    DiffersAt(head, r0, "(Step -given 'I have these friends' -tableArgument ", 7);
    DiffersAt(head, r0, "(Step -given 'Call me Argument(", 7);
    DiffersAt(head, r0, "(Step -when 'Argument(", 13);
    StartsWithConcat(head, r0);
  }

  lemma ParseBorrowTail(amount: Int32, table: Table)
    requires Unambiguous(table)
    ensures var r1 := " dollars from' -tableArgument " + DescribeTableData(table) + "),";
      ParseArgument(FormatInt(amount) + ")" + r1) == Some((amount, r1))
      && Between(r1, " dollars from' -tableArgument ", "),") == Some(DescribeTableData(table))
      && ParseTable(DescribeTableData(table)) == Some(table)
  {
    var literal := DescribeTableData(table);
    ParseArgumentRoundTrip(amount, " dollars from' -tableArgument " + literal + "),");
    BetweenRoundTrip(" dollars from' -tableArgument ", literal, "),");
    DescribeTableDataRoundTrip(table);
  }

  lemma BorrowSeam2()
    ensures ") dollars from' -tableArgument " == ")" + " dollars from' -tableArgument "
  {
  }

  lemma RegroupBorrow(head: string, a: string, r: string, seam: string, literal: string, close: string)
    ensures head + a + (r + seam) + literal + close == head + (a + r + (seam + literal + close))
  {
  }

  lemma ParseOnlyFriendRoundTrip(friendName: string)
    ensures ParseStepLine(StepLine(ShouldHaveOnlyFriend(friendName))) == Some(ShouldHaveOnlyFriend(friendName))
  {
    var head := "(Step -then 'I should have only Argument(";
    var tail := ") left as a friend'),";
    var rest := friendName + tail;
    Assoc(head, friendName, tail);
    DiffersAt(head, rest, "(Step -given 'I have these friends' -tableArgument ", 7);
    DiffersAt(head, rest, "(Step -given 'Call me Argument(", 7);
    DiffersAt(head, rest, "(Step -when 'Argument(", 7);
    DiffersAt(head, rest, "(Step -when 'I borrow Argument(", 7);
    StartsWithConcat(head, rest);
    BetweenRoundTrip(head, friendName, tail);
  }

  lemma ParseAlrightRoundTrip()
    ensures ParseStepLine(StepLine(ThenEverythingShouldBeAlright)) == Some(ThenEverythingShouldBeAlright)
  {
    ParseAlrightLine(StepLine(ThenEverythingShouldBeAlright));
  }

  lemma ParseAlrightLine(line: string)
    requires line == "(Step -then 'everything should be alright'),"
    ensures ParseStepLine(line) == Some(ThenEverythingShouldBeAlright)
  {
    AlrightIsNotGivenOrWhen(line);
    AlrightIsNotOnlyFriend(line);
  }

  lemma AlrightIsNotGivenOrWhen(line: string)
    requires line == "(Step -then 'everything should be alright'),"
    ensures !StartsWith(line, "(Step -given 'I have these friends' -tableArgument ")
    ensures !StartsWith(line, "(Step -given 'Call me Argument(")
    ensures !StartsWith(line, "(Step -when 'Argument(")
    ensures !StartsWith(line, "(Step -when 'I borrow Argument(")
  {
    assert line[7] == 't';
  }

  lemma AlrightIsNotOnlyFriend(line: string)
    requires line == "(Step -then 'everything should be alright'),"
    ensures !StartsWith(line, "(Step -then 'I should have only Argument(")
  {
    assert line[13] == 'e';
  }
}
