/** String helpers shared by the trace formatters: `string.Join`, the
    search and split operations used to read a trace back, and the
    single-quoted literal of the PowerShell syntax the trace is written in. */
module Text {

  datatype Option<T> = None | Some(value: T)

  predicate StartsWith(s: string, prefix: string) {
    |prefix| <= |s| && s[..|prefix|] == prefix
  }

  predicate EndsWith(s: string, suffix: string) {
    |suffix| <= |s| && s[|s| - |suffix|..] == suffix
  }

  /** `part` occurs somewhere inside `s`. */
  ghost predicate Contains(s: string, part: string) {
    exists k :: 0 <= k <= |s| && StartsWith(s[k..], part)
  }

  /** .NET `string.Join(sep, parts)`: the parts in order, `sep` between
      neighbours, nothing before the first or after the last. */
  function Join(sep: string, parts: seq<string>): string
    decreases |parts|
  {
    if |parts| == 0 then ""
    else if |parts| == 1 then parts[0]
    else parts[0] + sep + Join(sep, parts[1..])
  }

  /** Position of the first `c` in `s`, if any. */
  function IndexOf(s: string, c: char): (r: Option<nat>)
    ensures r.None? ==> c !in s
    ensures r.Some? ==> r.value < |s| && s[r.value] == c && c !in s[..r.value]
  {
    if |s| == 0 then None
    else if s[0] == c then Some(0)
    else match IndexOf(s[1..], c)
      case None => None
      case Some(i) => Some(i + 1)
  }

  /** The pieces of `s` between occurrences of `c` (the inverse of joining
      with the one-character separator `[c]`). */
  function Split(s: string, c: char): (r: seq<string>)
    ensures |r| > 0
    ensures forall p :: p in r ==> c !in p
    decreases |s|
  {
    match IndexOf(s, c)
    case None => [s]
    case Some(i) => [s[..i]] + Split(s[i + 1..], c)
  }

  /** The rest of `s` after the literal `lit`, when `s` begins with it. */
  function Expect(s: string, lit: string): (r: Option<string>)
    ensures r.Some? <==> StartsWith(s, lit)
    ensures r.Some? ==> s == lit + r.value
  {
    if StartsWith(s, lit) then Some(s[|lit|..]) else None
  }

  /** What lies between `prefix` and `suffix` when `s` begins with the one
      and ends with the other (without overlap). */
  function Between(s: string, prefix: string, suffix: string): (r: Option<string>)
    ensures r.Some? ==> s == prefix + r.value + suffix
  {
    if StartsWith(s, prefix) && |prefix| + |suffix| <= |s| && EndsWith(s, suffix)
    then
      assert s == s[..|prefix|] + s[|prefix|..|s| - |suffix|] + s[|s| - |suffix|..];
      Some(s[|prefix|..|s| - |suffix|])
    else None
  }

  lemma BetweenRoundTrip(prefix: string, x: string, suffix: string)
    ensures Between(prefix + x + suffix, prefix, suffix) == Some(x)
  {
    var s := prefix + x + suffix;
    assert s[..|prefix|] == prefix;
    assert s[|s| - |suffix|..] == suffix;
    assert s[|prefix|..|s| - |suffix|] == x;
  }

  /** A PowerShell single-quoted literal, written without escaping. */
  function Quoted(s: string): string {
    "'" + s + "'"
  }

  /** Reads one single-quoted literal at the head of `s`: its text up to the
      next quote, and what follows the closing quote. */
  function ParseQuoted(s: string): (r: Option<(string, string)>)
    ensures r.Some? ==> '\'' !in r.value.0 && |r.value.1| < |s|
    ensures r.Some? ==> s == Quoted(r.value.0) + r.value.1
  {
    if |s| == 0 || s[0] != '\'' then None
    else match IndexOf(s[1..], '\'')
      case None => None
      case Some(i) =>
        assert s == Quoted(s[1..][..i]) + s[1..][i + 1..] by {
          assert s[1..] == s[1..][..i] + "'" + s[1..][i + 1..];
        }
        Some((s[1..][..i], s[1..][i + 1..]))
  }

  lemma {:induction false} IndexOfFirst(x: string, c: char, rest: string)
    requires c !in x
    ensures IndexOf(x + [c] + rest, c) == Some(|x|)
  {
    if |x| > 0 {
      assert (x + [c] + rest)[1..] == x[1..] + [c] + rest;
      IndexOfFirst(x[1..], c, rest);
    }
  }

  /** A quoted literal whose text has no quote reads back as that text. */
  lemma ParseQuotedRoundTrip(x: string, rest: string)
    requires '\'' !in x
    ensures ParseQuoted(Quoted(x) + rest) == Some((x, rest))
  {
    var s := Quoted(x) + rest;
    assert s[1..] == x + ['\''] + rest;
    IndexOfFirst(x, '\'', rest);
    assert s[1..][..|x|] == x;
    assert s[1..][|x| + 1..] == rest;
  }

  lemma JoinCons(sep: string, p: string, ps: seq<string>)
    requires |ps| > 0
    ensures Join(sep, [p] + ps) == p + sep + Join(sep, ps)
  {
    assert ([p] + ps)[1..] == ps;
  }

  /** A character absent from every part and from the separator is absent
      from the joined string. */
  lemma {:induction false} JoinExcludes(sep: string, parts: seq<string>, c: char)
    requires c !in sep
    requires forall p :: p in parts ==> c !in p
    ensures c !in Join(sep, parts)
    decreases |parts|
  {
    if |parts| > 1 {
      JoinExcludes(sep, parts[1..], c);
    }
  }

  /** Splitting at `c` undoes joining with `[c]` when no part holds `c`. */
  lemma {:induction false} SplitJoin(parts: seq<string>, c: char)
    requires |parts| > 0
    requires forall p :: p in parts ==> c !in p
    ensures Split(Join([c], parts), c) == parts
    decreases |parts|
  {
    if |parts| == 1 {
      assert parts[0] in parts;
      assert IndexOf(parts[0], c).None?;
      assert parts == [parts[0]];
    } else {
      var rest := Join([c], parts[1..]);
      assert parts == [parts[0]] + parts[1..];
      JoinCons([c], parts[0], parts[1..]);
      IndexOfFirst(parts[0], c, rest);
      var s := parts[0] + [c] + rest;
      assert s[..|parts[0]|] == parts[0];
      assert s[|parts[0]| + 1..] == rest;
      SplitJoin(parts[1..], c);
    }
  }

  /** Joining with `[c]` undoes splitting at `c`. */
  lemma {:induction false} JoinSplit(s: string, c: char)
    ensures Join([c], Split(s, c)) == s
    decreases |s|
  {
    match IndexOf(s, c)
    case None =>
    case Some(i) =>
      JoinSplit(s[i + 1..], c);
      JoinCons([c], s[..i], Split(s[i + 1..], c));
      assert s == s[..i] + [c] + s[i + 1..];
  }

  lemma StartsWithConcat(a: string, rest: string)
    ensures StartsWith(a + rest, a)
  {
    assert (a + rest)[..|a|] == a;
  }

  /** A string that differs from `p` at some position inside both does not
      begin with `p`. */
  lemma DiffersAt(a: string, rest: string, p: string, k: nat)
    requires k < |a| && k < |p| && a[k] != p[k]
    ensures !StartsWith(a + rest, p)
  {
    assert (a + rest)[k] == a[k];
  }

  lemma ExpectRoundTrip(lit: string, rest: string)
    ensures Expect(lit + rest, lit) == Some(rest)
  {
    StartsWithConcat(lit, rest);
    assert (lit + rest)[|lit|..] == rest;
  }

  /** Occurrences survive putting text in front of or behind the string. */
  lemma ContainsWithin(a: string, s: string, b: string, part: string)
    requires Contains(s, part)
    ensures Contains(a + s + b, part)
  {
    var k :| 0 <= k <= |s| && StartsWith(s[k..], part);
    var t := a + s + b;
    assert t[|a| + k..][..|part|] == s[k..][..|part|];
    assert StartsWith(t[|a| + k..], part);
  }

  lemma ContainsHead(part: string, rest: string)
    ensures Contains(part + rest, part)
  {
    assert (part + rest)[0..] == part + rest;
    StartsWithConcat(part, rest);
  }

  lemma ContainsTail(head: string, s: string, part: string)
    requires Contains(s, part)
    ensures Contains(head + s, part)
  {
    var k :| 0 <= k <= |s| && StartsWith(s[k..], part);
    assert (head + s)[|head| + k..] == s[k..];
  }

  /** Every part of a join occurs in the joined string. */
  lemma {:induction false} JoinContains(sep: string, parts: seq<string>)
    ensures forall i :: 0 <= i < |parts| ==> Contains(Join(sep, parts), parts[i])
    decreases |parts|
  {
    if |parts| == 1 {
      ContainsHead(parts[0], "");
      assert parts[0] + "" == parts[0];
    } else if |parts| > 1 {
      var rest := Join(sep, parts[1..]);
      JoinContains(sep, parts[1..]);
      assert Join(sep, parts) == parts[0] + (sep + rest);
      ContainsHead(parts[0], sep + rest);
      forall i | 1 <= i < |parts|
        ensures Contains(Join(sep, parts), parts[i])
      {
        assert parts[1..][i - 1] == parts[i];
        ContainsTail(parts[0] + sep, rest, parts[i]);
        assert parts[0] + sep + rest == Join(sep, parts);
      }
    }
  }

}
