/** `DescribeTags`: the `Tags` field of a feature or scenario context.

    The emptiness test is made on the collection passed in, but the joined
    tags are always the current scenario's (the ambient scenario context),
    so the function takes both. */
module Tags {
  import opened Text

  /** `@()` when `tagNames` is empty, otherwise the current scenario's tags
      joined by `,` in iteration order. */
  function DescribeTags(tagNames: seq<string>, scenarioTags: seq<string>): (r: string)
    ensures |tagNames| == 0 ==> r == "@()"
    ensures |tagNames| > 0 ==> forall i :: 0 <= i < |scenarioTags| ==> Contains(r, scenarioTags[i])
  {
    if |tagNames| == 0 then "@()"
    else
      JoinContains(",", scenarioTags);
      Join(",", scenarioTags)
  }

  /** The empty-collection literal appears exactly when the passed
      collection is empty, provided no scenario tag contains `@`. */
  lemma EmptyLiteralIffNoTags(tagNames: seq<string>, scenarioTags: seq<string>)
    requires forall tag :: tag in scenarioTags ==> '@' !in tag
    ensures DescribeTags(tagNames, scenarioTags) == "@()" <==> |tagNames| == 0
  {
    if |tagNames| > 0 {
      JoinExcludes(",", scenarioTags, '@');
      assert "@()"[0] == '@';
    }
  }

  /** Only the emptiness of the passed collection matters: two non-empty
      collections give the same text, the current scenario's tags. */
  lemma OnlyEmptinessOfArgumentMatters(a: seq<string>, b: seq<string>, scenarioTags: seq<string>)
    requires |a| > 0 && |b| > 0
    ensures DescribeTags(a, scenarioTags) == DescribeTags(b, scenarioTags) == Join(",", scenarioTags)
  {
  }

  /** Tags no tag literal can garble: no tag holds the `,` separator or
      the `@` of the empty-collection literal. */
  predicate TagsReadable(tags: seq<string>) {
    forall tag :: tag in tags ==> ',' !in tag && '@' !in tag
  }

  /** Reads a tag literal back into the tags it lists. */
  function ParseTags(text: string): (r: seq<string>)
    ensures text != "@()" ==> Join(",", r) == text
  {
    if text == "@()" then [] else (JoinSplit(text, ','); Split(text, ','))
  }

  /** For a scenario's own tags, the tag literal reads back as the tags. */
  lemma {:induction false} ScenarioTagsRoundTrip(tags: seq<string>)
    requires TagsReadable(tags)
    ensures ParseTags(DescribeTags(tags, tags)) == tags
  {
    if |tags| > 0 {
      EmptyLiteralIffNoTags(tags, tags);
      SplitJoin(tags, ',');
    }
  }
}
