/**
 * The five regular expressions of the task extractor, with the semantics of
 * JavaScript's backtracking matcher written out position by position.
 *
 * Every greedy repetition below is followed by something its own character
 * class cannot match (a letter run by white space, a white-space run by a
 * letter or a parenthesis), so giving characters back never helps and the
 * longest run is the only candidate. The one exception is the tail
 * `\s+([^,.;]+)`, handled in `Tail`. No alternative of a keyword group is a
 * prefix of another (`KeywordListsArePrefixFree`), so the first alternative
 * that matches is the only one that can.
 */
module Patterns {
  import opened Wrappers
  import opened Text

  /** The five patterns of client/src/components/EnhancedAIChatButton.tsx. */
  datatype Pattern =
    | Person       // line 151, flags gi
    | Self         // line 154, flags gi
    | Fallback     // line 253, flags gi
    | ParenName    // first half of line 128, flag i
    | LeadingName  // second half of line 128, no flags, anchored

  /** One successful `exec`: where the match starts, how long it is, the person
      captured (when the pattern has such a group) and the task phrase. */
  datatype Match = Match(index: nat, length: nat, name: Option<string>, desc: string)

  const PersonAuxiliaries: seq<string> := ["is", "has", "have", "are"]
  const PersonProgress: seq<string> := ["working on", "completed", "done with", "finishing"]
  const SelfAuxiliaries: seq<string> := ["have", "has", "am"]
  const SelfProgress: seq<string> := ["completed", "done", "finished", "working on"]
  const FallbackCues: seq<string> := ["need to", "have to", "should", "must", "want to", "going to"]
  const LeadingVerbs: seq<string> := ["has", "have", "completed", "is", "working"]

  predicate IsStop(c: char) { c == ',' || c == '.' || c == ';' }

  predicate NotStop(c: char) { !IsStop(c) }

  predicate NotCloseParen(c: char) { c != ')' }

  /** Keyword `kw` (lower case) matches at `i` under the `i` flag. */
  predicate KeywordAt(s: string, i: nat, kw: string) {
    i + |kw| <= |s| && LowerStr(s[i..i + |kw|]) == kw
  }

  /** A group of alternatives `(?:a|b|...)`: the end of the first one that matches at `i`. */
  function FirstKeyword(s: string, i: nat, kws: seq<string>, ignoreCase: bool): (r: Option<nat>)
    ensures r.Some? ==> exists k :: 0 <= k < |kws| && r.value == i + |kws[k]|
                          && (if ignoreCase then KeywordAt(s, i, kws[k]) else OccursAt(s, kws[k], i))
    ensures r.Some? ==> i <= r.value <= |s|
    ensures r.None? ==> forall k :: 0 <= k < |kws| ==>
                          !(if ignoreCase then KeywordAt(s, i, kws[k]) else OccursAt(s, kws[k], i))
  {
    if |kws| == 0 then None
    else if (if ignoreCase then KeywordAt(s, i, kws[0]) else OccursAt(s, kws[0], i)) then Some(i + |kws[0]|)
    else
      var r := FirstKeyword(s, i, kws[1..], ignoreCase);
      assert forall k :: 1 <= k < |kws| ==> kws[k] == kws[1..][k - 1];
      r
  }

  predicate IsPrefix(a: string, b: string) { |a| <= |b| && b[..|a|] == a }

  /** No keyword of `kws` is a prefix of another one. */
  predicate PrefixFree(kws: seq<string>) {
    forall j, k :: 0 <= j < |kws| && 0 <= k < |kws| && j != k ==> !IsPrefix(kws[j], kws[k])
  }

  predicate DiffersAt(a: string, b: string, i: nat) { i < |a| && i < |b| && a[i] != b[i] }

  /** `a` and `b` differ within their first three characters. */
  predicate DifferEarly(a: string, b: string) {
    DiffersAt(a, b, 0) || DiffersAt(a, b, 1) || DiffersAt(a, b, 2)
  }

  /** `\s+([^,.;]+)` at `q`: the bounds of the captured phrase. The white-space
      run is taken whole when a phrase character follows it; when a stop or the
      end of the text follows, the matcher gives back one white-space character,
      which then forms the phrase on its own. */
  function Tail(s: string, q: nat): (r: Option<(nat, nat)>)
    requires q <= |s|
    ensures r.Some? ==> q < r.value.0 < r.value.1 <= |s|
    ensures r.Some? ==> forall k :: q <= k < r.value.0 ==> IsSpace(s[k])
    ensures r.Some? ==> forall k :: r.value.0 <= k < r.value.1 ==> !IsStop(s[k])
    ensures r.Some? ==> r.value.1 == |s| || IsStop(s[r.value.1])
    ensures var j := RunEnd(s, q, IsSpace);
            r.None? <==> j == q || (j - q == 1 && (j == |s| || IsStop(s[j])))
    ensures var j := RunEnd(s, q, IsSpace);
            r.Some? ==> r.value.0 == (if j < |s| && !IsStop(s[j]) then j else j - 1)
  {
    var j := RunEnd(s, q, IsSpace);
    if j == q then None
    else if j < |s| && !IsStop(s[j]) then Some((j, RunEnd(s, j, NotStop)))
    else if j - q >= 2 then Some((j - 1, j))
    else None
  }

  /** `\s+(?:aux)\s+(?:progress)\s+([^,.;]+)` at `q`: the bounds of the phrase. */
  function ClauseAt(s: string, q: nat, aux: seq<string>, progress: seq<string>): (r: Option<(nat, nat)>)
    requires q <= |s|
    ensures r.Some? ==> q < r.value.0 < r.value.1 <= |s|
    ensures r.Some? ==> exists i, k :: q < i <= |s| && 0 <= k < |aux| && KeywordAt(s, i, aux[k])
  {
    var a := RunEnd(s, q, IsSpace);
    if a == q then None
    else match FirstKeyword(s, a, aux, true)
      case None => None
      case Some(b) =>
        var c := RunEnd(s, b, IsSpace);
        if c == b then None
        else match FirstKeyword(s, c, progress, true)
          case None => None
          case Some(d) => Tail(s, d)
  }

  /** `[A-Z][a-z]+` under the `i` flag at `p`: the end of the word. */
  function WordAt(s: string, p: nat): (r: Option<nat>)
    requires p <= |s|
    ensures r.Some? ==> p + 2 <= r.value <= |s|
  {
    var e := RunEnd(s, p, IsAsciiLetter);
    if e - p >= 2 then Some(e) else None
  }

  /** Line 151 at `p`: a one- or two-word name, an auxiliary, a progress phrase
      and the task phrase. The two-word reading is tried first. */
  function PersonAt(s: string, p: nat): (r: Option<Match>)
    requires p <= |s|
    ensures r.Some? ==> r.value.index == p && 0 < r.value.length && p + r.value.length <= |s|
    ensures r.Some? ==> r.value.name.Some?
  {
    match WordAt(s, p)
    case None => None
    case Some(e1) =>
      var w := RunEnd(s, e1, IsSpace);
      var second := if w > e1 then WordAt(s, w) else None;
      var withSecond := if second.Some? then ClauseAt(s, second.value, PersonAuxiliaries, PersonProgress) else None;
      if withSecond.Some? then
        var g := withSecond.value;
        Some(Match(p, g.1 - p, Some(s[p..second.value]), s[g.0..g.1]))
      else match ClauseAt(s, e1, PersonAuxiliaries, PersonProgress)
        case None => None
        case Some(g) => Some(Match(p, g.1 - p, Some(s[p..e1]), s[g.0..g.1]))
  }

  /** Line 154 at `p`: an `i`, optionally `\s*(...)`, an auxiliary, a progress
      phrase and the task phrase. Nothing requires the `i` to start a word. */
  function SelfAt(s: string, p: nat): (r: Option<Match>)
    requires p <= |s|
    ensures r.Some? ==> r.value.index == p && 0 < r.value.length && p + r.value.length <= |s|
  {
    if p == |s| || Lower(s[p]) != 'i' then None
    else
      var a := RunEnd(s, p + 1, IsSpace);
      var paren := a < |s| && s[a] == '(';
      var b := if paren then RunEnd(s, a + 1, NotCloseParen) else a;
      var withParen := if paren && b > a + 1 && b < |s| then ClauseAt(s, b + 1, SelfAuxiliaries, SelfProgress) else None;
      var g := if withParen.Some? then withParen else ClauseAt(s, p + 1, SelfAuxiliaries, SelfProgress);
      if g.Some? then Some(Match(p, g.value.1 - p, None, s[g.value.0..g.value.1])) else None
  }

  /** Line 253 at `p`: a cue such as `need to` and the task phrase. */
  function FallbackAt(s: string, p: nat): (r: Option<Match>)
    requires p <= |s|
    ensures r.Some? ==> r.value.index == p && 0 < r.value.length && p + r.value.length <= |s|
  {
    match FirstKeyword(s, p, FallbackCues, true)
    case None => None
    case Some(k) =>
      match Tail(s, k)
      case None => None
      case Some(g) => Some(Match(p, g.1 - p, None, s[g.0..g.1]))
  }

  /** `/i\s*\(([^)]+)\)/i` at `p`: the text between the parentheses. */
  function ParenNameAt(s: string, p: nat): (r: Option<Match>)
    requires p <= |s|
    ensures r.Some? ==> r.value.index == p && 0 < r.value.length && p + r.value.length <= |s|
    ensures r.Some? ==> r.value.name.Some? && |r.value.name.value| > 0
  {
    if p == |s| || Lower(s[p]) != 'i' then None
    else
      var a := RunEnd(s, p + 1, IsSpace);
      if a == |s| || s[a] != '(' then None
      else
        var b := RunEnd(s, a + 1, NotCloseParen);
        if b == a + 1 || b == |s| then None
        else Some(Match(p, b + 1 - p, Some(s[a + 1..b]), []))
  }

  /** `/^([A-Z][a-z]+)\s+(has|have|completed|is|working)/`, case-sensitive, at `p`. */
  function LeadingNameAt(s: string, p: nat): (r: Option<Match>)
    requires p <= |s|
    ensures r.Some? ==> r.value.index == p && 0 < r.value.length && p + r.value.length <= |s|
    ensures r.Some? ==> r.value.name.Some?
    ensures r.Some? ==> p == 0 && IsUpperAscii(s[0])
  {
    if p != 0 || |s| == 0 || !IsUpperAscii(s[0]) then None
    else
      var e := RunEnd(s, 1, IsLowerAscii);
      var w := RunEnd(s, e, IsSpace);
      if e == 1 || w == e then None
      else match FirstKeyword(s, w, LeadingVerbs, false)
        case None => None
        case Some(v) => Some(Match(0, v, Some(s[..e]), []))
  }

  /** Whether, and how, `pat` matches at exactly position `p`. */
  function MatchAt(pat: Pattern, s: string, p: nat): (r: Option<Match>)
    requires p <= |s|
    ensures r.Some? ==> r.value.index == p && 0 < r.value.length && p + r.value.length <= |s|
    ensures r.Some? && (pat.Person? || pat.ParenName? || pat.LeadingName?) ==> r.value.name.Some?
  {
    match pat
    case Person => PersonAt(s, p)
    case Self => SelfAt(s, p)
    case Fallback => FallbackAt(s, p)
    case ParenName => ParenNameAt(s, p)
    case LeadingName => LeadingNameAt(s, p)
  }

  /** `exec` with `lastIndex == from`: the leftmost match at or after `from`. */
  function Exec(pat: Pattern, s: string, from: nat): (r: Option<Match>)
    requires from <= |s|
    ensures r.Some? ==> from <= r.value.index <= |s| && MatchAt(pat, s, r.value.index) == r
    ensures forall p :: from <= p <= |s| && (r.Some? ==> p < r.value.index) ==> MatchAt(pat, s, p).None?
    decreases |s| - from
  {
    var here := MatchAt(pat, s, from);
    if here.Some? then here
    else if from == |s| then None
    else
      var r := Exec(pat, s, from + 1);
      assert forall p :: from + 1 <= p <= |s| && (r.Some? ==> p < r.value.index) ==> MatchAt(pat, s, p).None?;
      r
  }

  /** The end of a match, where the next `exec` of a global pattern resumes. */
  function End(m: Match): nat { m.index + m.length }

  /** The successive results of `exec` on a global pattern (or of `matchAll`),
      starting at `from`: leftmost, non-overlapping, in text order. */
  function Scan(pat: Pattern, s: string, from: nat): (ms: seq<Match>)
    requires from <= |s|
    ensures forall i :: 0 <= i < |ms| ==> from <= ms[i].index && End(ms[i]) <= |s|
    ensures forall i :: 0 <= i < |ms| ==> ms[i].index <= |s| && MatchAt(pat, s, ms[i].index) == Some(ms[i])
    ensures forall i :: 0 <= i < |ms| - 1 ==> End(ms[i]) <= ms[i + 1].index
    ensures ms == [] <==> Exec(pat, s, from).None?
    decreases |s| - from
  {
    match Exec(pat, s, from)
    case None => []
    case Some(m) =>
      var rest := Scan(pat, s, End(m));
      assert forall i :: 0 < i < |rest| + 1 ==> ([m] + rest)[i] == rest[i - 1];
      [m] + rest
  }

  /** One more `exec`: a scan that finds `m` is `m` followed by the scan from its end. */
  lemma ScanStep(pat: Pattern, s: string, from: nat)
    requires from <= |s| && Exec(pat, s, from).Some?
    ensures End(Exec(pat, s, from).value) <= |s|
    ensures Scan(pat, s, from) == [Exec(pat, s, from).value] + Scan(pat, s, End(Exec(pat, s, from).value))
  {
  }

  /** Two keywords that both match at `i` are one a prefix of the other. */
  lemma KeywordsAtSamePlace(s: string, i: nat, a: string, b: string)
    requires KeywordAt(s, i, a) && KeywordAt(s, i, b) && |a| <= |b|
    ensures IsPrefix(a, b)
  {
    forall k | 0 <= k < |a| ensures b[k] == a[k] {
      assert b[k] == LowerStr(s[i..i + |b|])[k] == Lower(s[i + k]) == LowerStr(s[i..i + |a|])[k];
    }
  }

  /** In a prefix-free group, the alternative the matcher takes is the one
      that occurs: a backtracking matcher could choose no other. */
  lemma {:induction false} FirstKeywordIsTheMatch(s: string, i: nat, kws: seq<string>, k: nat)
    requires PrefixFree(kws) && k < |kws| && KeywordAt(s, i, kws[k])
    ensures FirstKeyword(s, i, kws, true) == Some(i + |kws[k]|)
    decreases |kws|
  {
    if KeywordAt(s, i, kws[0]) {
      SameKeyword(s, i, kws, 0, k);
    } else {
      assert k != 0;
      var tail := kws[1..];
      assert tail[k - 1] == kws[k];
      PrefixFreeTail(kws);
      FirstKeywordIsTheMatch(s, i, tail, k - 1);
      FirstKeywordSkips(s, i, kws);
    }
  }

  /** An alternative that does not occur is passed over. */
  lemma FirstKeywordSkips(s: string, i: nat, kws: seq<string>)
    requires kws != [] && !KeywordAt(s, i, kws[0])
    ensures FirstKeyword(s, i, kws, true) == FirstKeyword(s, i, kws[1..], true)
  {
  }

  /** Dropping the first alternative keeps a group prefix-free. */
  lemma PrefixFreeTail(kws: seq<string>)
    requires PrefixFree(kws) && kws != []
    ensures PrefixFree(kws[1..])
  {
    forall x, y | 0 <= x < |kws| - 1 && 0 <= y < |kws| - 1 && x != y
      ensures !IsPrefix(kws[1..][x], kws[1..][y])
    {
      assert kws[1..][x] == kws[x + 1] && kws[1..][y] == kws[y + 1];
    }
  }

  /** In a prefix-free group, at most one alternative occurs at a position. */
  lemma SameKeyword(s: string, i: nat, kws: seq<string>, j: nat, k: nat)
    requires PrefixFree(kws) && j < |kws| && k < |kws|
    requires KeywordAt(s, i, kws[j]) && KeywordAt(s, i, kws[k])
    ensures j == k
  {
    var a, b := kws[j], kws[k];
    if |a| <= |b| { KeywordsAtSamePlace(s, i, a, b); }
    else { KeywordsAtSamePlace(s, i, b, a); }
  }

  /** The fallback pattern matches at `p` exactly when a cue occurs there and
      a phrase follows it; the match then captures that phrase. */
  lemma FallbackAtMeaning(s: string, p: nat, k: nat)
    requires p <= |s| && k < |FallbackCues| && KeywordAt(s, p, FallbackCues[k])
    ensures FallbackAt(s, p).Some? <==> Tail(s, p + |FallbackCues[k]|).Some?
    ensures var g := Tail(s, p + |FallbackCues[k]|);
            g.Some? ==> FallbackAt(s, p) == Some(Match(p, g.value.1 - p, None, s[g.value.0..g.value.1]))
  {
    var q := p + |FallbackCues[k]|;
    CueIsTaken(s, p, k);
    FallbackAtAfterCue(s, p, q);
  }

  /** Once the cue group has matched up to `q`, the fallback match is the tail at `q`. */
  lemma FallbackAtAfterCue(s: string, p: nat, q: nat)
    requires p <= q <= |s| && FirstKeyword(s, p, FallbackCues, true) == Some(q)
    ensures var g := Tail(s, q);
            && (FallbackAt(s, p).Some? <==> g.Some?)
            && (g.Some? ==> FallbackAt(s, p) == Some(Match(p, g.value.1 - p, None, s[g.value.0..g.value.1])))
  {
  }

  /** The cue that occurs at `p` is the one the fallback pattern takes. */
  lemma CueIsTaken(s: string, p: nat, k: nat)
    requires k < |FallbackCues| && KeywordAt(s, p, FallbackCues[k])
    ensures FirstKeyword(s, p, FallbackCues, true) == Some(p + |FallbackCues[k]|)
  {
    FallbackCuesPrefixFree();
    FirstKeywordIsTheMatch(s, p, FallbackCues, k);
  }

  /** Without a cue at `p`, the fallback pattern does not match there. */
  lemma FallbackAtNeedsCue(s: string, p: nat)
    requires p <= |s| && FallbackAt(s, p).Some?
    ensures exists k :: 0 <= k < |FallbackCues| && KeywordAt(s, p, FallbackCues[k])
  {
  }

  /** An attributed match needs one of its auxiliaries somewhere after its start. */
  lemma PersonNeedsAuxiliary(s: string, p: nat)
    requires p <= |s| && PersonAt(s, p).Some?
    ensures exists i, k :: p < i <= |s| && 0 <= k < |PersonAuxiliaries| && KeywordAt(s, i, PersonAuxiliaries[k])
  {
  }

  /** A first-person match needs one of its auxiliaries somewhere after its start. */
  lemma SelfNeedsAuxiliary(s: string, p: nat)
    requires p <= |s| && SelfAt(s, p).Some?
    ensures exists i, k :: p < i <= |s| && 0 <= k < |SelfAuxiliaries| && KeywordAt(s, i, SelfAuxiliaries[k])
  {
  }

  /** A keyword that occurs starts with the lower-cased characters there. */
  lemma KeywordStart(s: string, i: nat, kw: string)
    requires KeywordAt(s, i, kw) && |kw| >= 2
    ensures Lower(s[i]) == kw[0] && Lower(s[i + 1]) == kw[1]
  {
    assert LowerStr(s[i..i + |kw|])[0] == Lower(s[i]);
    assert LowerStr(s[i..i + |kw|])[1] == Lower(s[i + 1]);
  }

  lemma FallbackCuesPrefixFree()
    ensures PrefixFree(FallbackCues)
  {
    EarlyDifferencesArePrefixFree(FallbackCues);
  }

  lemma DifferenceRulesOutPrefix(a: string, b: string, i: nat)
    requires DiffersAt(a, b, i) || DiffersAt(b, a, i)
    ensures !IsPrefix(a, b)
  {
    if |a| <= |b| { assert b[..|a|][i] != a[i]; }
  }

  lemma {:induction false} EarlyDifferencesArePrefixFree(kws: seq<string>)
    requires forall j, k :: 0 <= j < k < |kws| ==> DifferEarly(kws[j], kws[k])
    ensures PrefixFree(kws)
  {
    forall j, k | 0 <= j < |kws| && 0 <= k < |kws| && j != k ensures !IsPrefix(kws[j], kws[k]) {
      var a, b := kws[j], kws[k];
      assert DifferEarly(a, b) || DifferEarly(b, a);
      if DiffersAt(a, b, 0) || DiffersAt(b, a, 0) { DifferenceRulesOutPrefix(a, b, 0); }
      else if DiffersAt(a, b, 1) || DiffersAt(b, a, 1) { DifferenceRulesOutPrefix(a, b, 1); }
      else { DifferenceRulesOutPrefix(a, b, 2); }
    }
  }

  /** Each keyword group's alternatives are pairwise prefix-free, so trying
      them in order and stopping at the first that matches agrees with a
      backtracking matcher: at most one of them can match at a position. */
  lemma KeywordListsArePrefixFree()
    ensures PrefixFree(PersonAuxiliaries) && PrefixFree(PersonProgress)
    ensures PrefixFree(SelfAuxiliaries) && PrefixFree(SelfProgress)
    ensures PrefixFree(FallbackCues) && PrefixFree(LeadingVerbs)
  {
    EarlyDifferencesArePrefixFree(PersonAuxiliaries);
    EarlyDifferencesArePrefixFree(PersonProgress);
    EarlyDifferencesArePrefixFree(SelfAuxiliaries);
    EarlyDifferencesArePrefixFree(SelfProgress);
    EarlyDifferencesArePrefixFree(FallbackCues);
    EarlyDifferencesArePrefixFree(LeadingVerbs);
  }
}
