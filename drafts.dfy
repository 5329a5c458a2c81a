/**
 * Turning one regular-expression match into a task draft: title, category,
 * status and assignee, as `parseTasksFromMessage` does in each of its three
 * passes, and the message-level signals `isTeamTask` and `isSoloTask`.
 */
module Drafts {
  import opened Wrappers
  import opened Text
  import opened Patterns

  datatype Category = Business | Personal

  datatype Status = Pending | InProgress | Completed

  datatype TaskDraft = TaskDraft(title: string, description: string, category: Category,
                                 assignee: string, status: Status)

  /** The fixed roster of team members. */
  const TeamMembers: seq<string> :=
    ["Alice Chen", "Marcus Johnson", "Rana Kumar", "Suman Patel", "Suman", "Harshith", "Lahar"]

  /** The name the drafts of the current user carry. */
  const You := "You"

  const TeamCues: seq<string> := ["team", "assign to", "distribute", "split among", "divide between"]
  const SoloCues: seq<string> := ["i ", "i'", "my task", "my deadline", "help me", "remind me"]

  /** The business keywords differ from pass to pass. */
  const PersonBusinessWords: seq<string> :=
    ["meeting", "database", "api", "ai", "logic", "chatbot", "integration", "ui", "front end"]
  const SelfBusinessWords: seq<string> := ["ui", "front end", "design"]
  const FallbackBusinessWords: seq<string> := ["meeting", "presentation", "report", "database", "api"]

  const PersonCompletedWords: seq<string> := ["completed", "done with", "finished"]
  const SelfCompletedWords: seq<string> := ["completed", "done"]

  /** The message speaks of a team: a team cue or a roster name, ignoring case. */
  predicate IsTeamTask(message: string): (r: bool)
    ensures Contains(LowerStr(message), "team") ==> r
    ensures forall k :: 0 <= k < |TeamMembers| && Contains(LowerStr(message), LowerStr(TeamMembers[k])) ==> r
    ensures r <==> (exists k :: 0 <= k < |TeamCues| && Contains(LowerStr(message), TeamCues[k]))
                   || (exists k :: 0 <= k < |TeamMembers| && Contains(LowerStr(message), LowerStr(TeamMembers[k])))
  {
    var lower := LowerStr(message);
    assert TeamCues[0] == "team";
    ContainsAny(lower, TeamCues)
    || exists k :: 0 <= k < |TeamMembers| && Contains(lower, LowerStr(TeamMembers[k]))
  }

  /** The message speaks of its author. */
  predicate IsSoloTask(message: string): (r: bool)
    ensures r <==> exists k :: 0 <= k < |SoloCues| && Contains(LowerStr(message), SoloCues[k])
  {
    ContainsAny(LowerStr(message), SoloCues)
  }

  /** The draft title: the phrase with its first character upper-cased, cut to
      57 characters plus `...` when it is longer than 60. */
  function MakeTitle(phrase: string): (t: string)
    ensures |t| <= 60
    ensures |t| == if |phrase| <= 60 then |phrase| else 60
    ensures |phrase| > 0 ==> t[0] == Upper(phrase[0])
    ensures forall k :: 1 <= k < |t| && (|phrase| <= 60 || k < 57) ==> t[k] == phrase[k]
    ensures |phrase| > 60 ==> t[57..] == "..."
  {
    var t := Capitalize(phrase);
    if |t| > 60 then t[..57] + "..." else t
  }

  /** `Business` when the phrase contains one of the pass's business words, ignoring case. */
  function CategoryOf(phrase: string, businessWords: seq<string>): (c: Category)
    ensures c == Business <==> exists k :: 0 <= k < |businessWords| && Contains(LowerStr(phrase), businessWords[k])
  {
    if ContainsAny(LowerStr(phrase), businessWords) then Business else Personal
  }

  /** `Math.max(0, m.index - radius)`. */
  function WindowStart(m: Match, radius: nat): nat {
    if m.index < radius then 0 else m.index - radius
  }

  /** `message.substring(Math.max(0, m.index - radius), m.index + m.length + radius)`:
      the match with up to `radius` characters on each side, clamped to the message. */
  function ContextWindow(s: string, m: Match, radius: nat): (w: string)
    requires End(m) <= |s|
    ensures |w| <= m.length + 2 * radius
    ensures m.index - WindowStart(m, radius) + m.length <= |w|
    ensures w[m.index - WindowStart(m, radius)..m.index - WindowStart(m, radius) + m.length] == s[m.index..End(m)]
    ensures |w| == m.length + 2 * radius <==> radius <= m.index && End(m) + radius <= |s|
    ensures WindowStart(m, radius) + |w| == if End(m) + radius <= |s| then End(m) + radius else |s|
    ensures forall k :: 0 <= k < |w| ==> w[k] == s[WindowStart(m, radius) + k]
  {
    var lo := WindowStart(m, radius);
    var hi := if End(m) + radius <= |s| then End(m) + radius else |s|;
    var w := s[lo..hi];
    var off := m.index - lo;
    assert off + m.length <= |w|;
    forall k | 0 <= k < m.length ensures w[off..off + m.length][k] == s[m.index..End(m)][k] {
      assert w[off + k] == s[lo + off + k];
    }
    w
  }

  /** Status of an attributed match: its +-50 window mentions completion, or not.
      The source's `working on` test only re-assigns `In Progress`. */
  function PersonStatus(s: string, m: Match): (st: Status)
    requires End(m) <= |s|
    ensures st != Pending
    ensures st == Completed <==> ContainsAny(LowerStr(ContextWindow(s, m, 50)), PersonCompletedWords)
  {
    if ContainsAny(LowerStr(ContextWindow(s, m, 50)), PersonCompletedWords) then Completed else InProgress
  }

  /** Status of a self match, from its +-30 window. */
  function SelfStatus(s: string, m: Match): (st: Status)
    requires End(m) <= |s|
    ensures st != Pending
    ensures st == Completed <==> ContainsAny(LowerStr(ContextWindow(s, m, 30)), SelfCompletedWords)
  {
    if ContainsAny(LowerStr(ContextWindow(s, m, 30)), SelfCompletedWords) then Completed else InProgress
  }

  /** Who the current user is, for routing attributed matches. */
  datatype Audience = Audience(detectedUserName: string, currentUser: string)

  /** Line 128: the name in `I (Name)`, else a leading `Name has ...`, else `You`. */
  function DetectedUserName(message: string): (name: string)
    ensures Exec(ParenName, message, 0).Some? ==> name == Trim(Exec(ParenName, message, 0).value.name.value)
    ensures Exec(ParenName, message, 0).None? && MatchAt(LeadingName, message, 0).Some? ==>
              name == Trim(MatchAt(LeadingName, message, 0).value.name.value)
    ensures Exec(ParenName, message, 0).None? && MatchAt(LeadingName, message, 0).None? ==> name == You
  {
    match Exec(ParenName, message, 0)
    case Some(m) => Trim(m.name.value)
    case None =>
      match MatchAt(LeadingName, message, 0)
      case Some(m) => Trim(m.name.value)
      case None => You
  }

  /** The captured name denotes the current user: the detected name or
      `lahar` in any case, or exactly the `currentUser` argument. */
  predicate IsCurrentUser(name: string, who: Audience): (r: bool)
    ensures name == who.currentUser ==> r
    ensures LowerStr(name) == "lahar" ==> r
    ensures LowerStr(name) == LowerStr(who.detectedUserName) ==> r
    ensures r ==> name == who.currentUser || LowerStr(name) == "lahar" || LowerStr(name) == LowerStr(who.detectedUserName)
  {
    || LowerStr(name) == LowerStr(who.detectedUserName)
    || LowerStr(name) == "lahar"
    || name == who.currentUser
  }

  /** A draft and the bucket it goes to. */
  datatype Routed = ToSolo(draft: TaskDraft) | ToTeam(draft: TaskDraft)

  predicate ValidPersonMatch(s: string, m: Match) { End(m) <= |s| && m.name.Some? }

  /** Lines 160-205: the draft for an attributed match, routed. */
  function RoutePerson(s: string, m: Match, who: Audience): (r: Routed)
    requires ValidPersonMatch(s, m)
    ensures r.ToSolo? <==> IsCurrentUser(Trim(m.name.value), who)
    ensures r.ToSolo? ==> r.draft.assignee == You
    ensures r.ToTeam? ==> r.draft.assignee == Trim(m.name.value)
    ensures r.draft.description == Trim(m.name.value) + ": " + Trim(m.desc)
    ensures r.draft.title == MakeTitle(Trim(m.desc)) && r.draft.status == PersonStatus(s, m)
    ensures r.draft.category == Business <==> ContainsAny(LowerStr(Trim(m.desc)), PersonBusinessWords)
  {
    var name := Trim(m.name.value);
    var phrase := Trim(m.desc);
    var draft := TaskDraft(MakeTitle(phrase), name + ": " + phrase,
                           CategoryOf(phrase, PersonBusinessWords), name, PersonStatus(s, m));
    if IsCurrentUser(name, who) then ToSolo(draft.(assignee := You)) else ToTeam(draft)
  }

  /** Lines 210-236: the draft for a self match. */
  function SelfDraft(s: string, m: Match): (d: TaskDraft)
    requires End(m) <= |s|
    ensures d.assignee == You && d.status != Pending
    ensures d.title == MakeTitle(Trim(m.desc))
    ensures d.description == "Personal task: " + Trim(m.desc)
    ensures d.category == Business <==> ContainsAny(LowerStr(Trim(m.desc)), SelfBusinessWords)
  {
    var phrase := Trim(m.desc);
    TaskDraft(MakeTitle(phrase), "Personal task: " + phrase, CategoryOf(phrase, SelfBusinessWords),
              You, SelfStatus(s, m))
  }

  /** Lines 265-293: the draft for the `index`-th fallback phrase. */
  function FallbackDraft(phrase: string, index: nat, toSolo: bool): (d: TaskDraft)
    ensures d.status == Pending
    ensures d.assignee == if toSolo then You else TeamMembers[index % 4]
    ensures d.title == MakeTitle(phrase)
    ensures d.description == "AI-created task: " + phrase
    ensures d.category == Business <==> ContainsAny(LowerStr(phrase), FallbackBusinessWords)
  {
    TaskDraft(MakeTitle(phrase), "AI-created task: " + phrase, CategoryOf(phrase, FallbackBusinessWords),
              if toSolo then You else TeamMembers[index % 4], Pending)
  }

  /** A draft as every pass of the extractor produces it: a bounded title. */
  predicate TitleBounded(d: TaskDraft) { |d.title| <= 60 }

  predicate AllPersonMatches(s: string, ms: seq<Match>) {
    forall i :: 0 <= i < |ms| ==> ValidPersonMatch(s, ms[i])
  }

  predicate AllWithin(s: string, ms: seq<Match>) {
    forall i :: 0 <= i < |ms| ==> End(ms[i]) <= |s|
  }

  /** What every draft of the solo bucket looks like: the current user's,
      with a progress status and a bounded title. */
  predicate SoloShaped(d: TaskDraft) {
    d.assignee == You && d.status != Pending && TitleBounded(d)
  }

  /** What every attributed draft of the team bucket looks like: someone
      other than the current user, with a progress status and a bounded title. */
  predicate TeamShaped(d: TaskDraft, who: Audience) {
    !IsCurrentUser(d.assignee, who) && d.status != Pending && TitleBounded(d)
  }

  predicate AllSoloShaped(ds: seq<TaskDraft>) {
    forall i :: 0 <= i < |ds| ==> SoloShaped(ds[i])
  }

  predicate AllTeamShaped(ds: seq<TaskDraft>, who: Audience) {
    forall i :: 0 <= i < |ds| ==> TeamShaped(ds[i], who)
  }

  lemma SoloShapedCons(d: TaskDraft, rest: seq<TaskDraft>)
    requires SoloShaped(d) && AllSoloShaped(rest)
    ensures AllSoloShaped([d] + rest)
  {
    assert forall i :: 0 < i < |rest| + 1 ==> ([d] + rest)[i] == rest[i - 1];
  }

  lemma TeamShapedCons(d: TaskDraft, rest: seq<TaskDraft>, who: Audience)
    requires TeamShaped(d, who) && AllTeamShaped(rest, who)
    ensures AllTeamShaped([d] + rest, who)
  {
    assert forall i :: 0 < i < |rest| + 1 ==> ([d] + rest)[i] == rest[i - 1];
  }

  lemma SoloShapedConcat(a: seq<TaskDraft>, b: seq<TaskDraft>)
    requires AllSoloShaped(a) && AllSoloShaped(b)
    ensures AllSoloShaped(a + b)
  {
    assert forall i :: |a| <= i < |a| + |b| ==> (a + b)[i] == b[i - |a|];
  }

  lemma PersonMatchesTail(s: string, ms: seq<Match>)
    requires ms != [] && AllPersonMatches(s, ms)
    ensures ValidPersonMatch(s, ms[0]) && AllPersonMatches(s, ms[1..])
  {
    assert forall i :: 0 <= i < |ms| - 1 ==> ms[1..][i] == ms[i + 1];
  }

  lemma WithinTail(s: string, ms: seq<Match>)
    requires ms != [] && AllWithin(s, ms)
    ensures End(ms[0]) <= |s| && AllWithin(s, ms[1..])
  {
    assert forall i :: 0 <= i < |ms| - 1 ==> ms[1..][i] == ms[i + 1];
  }

  /** The drafts of attributed matches that go to `soloTasks`, in match order. */
  function PersonSolo(s: string, who: Audience, ms: seq<Match>): (r: seq<TaskDraft>)
    requires AllPersonMatches(s, ms)
    ensures |r| <= |ms|
    ensures AllSoloShaped(r)
  {
    if ms == [] then []
    else
      PersonMatchesTail(s, ms);
      var rest := PersonSolo(s, who, ms[1..]);
      match RoutePerson(s, ms[0], who)
      case ToSolo(d) =>
        SoloShapedCons(d, rest);
        [d] + rest
      case ToTeam(_) => rest
  }

  /** The drafts of attributed matches that go to `teamTasks`, in match order. */
  function PersonTeam(s: string, who: Audience, ms: seq<Match>): (r: seq<TaskDraft>)
    requires AllPersonMatches(s, ms)
    ensures |r| <= |ms|
    ensures AllTeamShaped(r, who)
  {
    if ms == [] then []
    else
      PersonMatchesTail(s, ms);
      var rest := PersonTeam(s, who, ms[1..]);
      match RoutePerson(s, ms[0], who)
      case ToSolo(_) => rest
      case ToTeam(d) =>
        TeamShapedCons(d, rest, who);
        [d] + rest
  }

  /** The drafts of self matches, all for the current user. */
  function SelfDrafts(s: string, ms: seq<Match>): (r: seq<TaskDraft>)
    requires AllWithin(s, ms)
    ensures |r| == |ms|
    ensures AllSoloShaped(r)
  {
    if ms == [] then []
    else
      WithinTail(s, ms);
      var rest := SelfDrafts(s, ms[1..]);
      SoloShapedCons(SelfDraft(s, ms[0]), rest);
      [SelfDraft(s, ms[0])] + rest
  }

  /** Lines 257-262: the trimmed phrases of fallback matches longer than 3 characters. */
  function FallbackPhrases(ms: seq<Match>): (r: seq<string>)
    ensures |r| <= |ms|
    ensures forall i :: 0 <= i < |r| ==> |r[i]| > 3 && !IsSpace(r[i][0]) && !IsSpace(r[i][|r[i]| - 1])
  {
    if ms == [] then []
    else
      var phrase := Trim(ms[0].desc);
      var rest := FallbackPhrases(ms[1..]);
      if |phrase| > 3 then [phrase] + rest else rest
  }

  /** Lines 265-294: one draft per fallback phrase, all in one bucket. */
  function FallbackDrafts(phrases: seq<string>, toSolo: bool): (r: seq<TaskDraft>)
    ensures |r| == |phrases|
    ensures forall i :: 0 <= i < |r| ==> r[i] == FallbackDraft(phrases[i], i, toSolo)
  {
    seq(|phrases|, i requires 0 <= i < |phrases| => FallbackDraft(phrases[i], i, toSolo))
  }

  /** Every attributed match a scan finds carries a name and lies inside the message. */
  lemma AttributedScanValid(s: string, from: nat)
    requires from <= |s|
    ensures AllPersonMatches(s, Scan(Person, s, from))
  {
    var ms := Scan(Person, s, from);
    forall i | 0 <= i < |ms| ensures ValidPersonMatch(s, ms[i]) {
      assert MatchAt(Person, s, ms[i].index) == Some(ms[i]);
    }
  }

  /** The solo drafts of the attributed matches from `from` on. */
  function AttributedSolo(s: string, who: Audience, from: nat): (r: seq<TaskDraft>)
    requires from <= |s|
    ensures AllSoloShaped(r)
  {
    AttributedScanValid(s, from);
    PersonSolo(s, who, Scan(Person, s, from))
  }

  /** The team drafts of the attributed matches from `from` on. */
  function AttributedTeam(s: string, who: Audience, from: nat): (r: seq<TaskDraft>)
    requires from <= |s|
    ensures AllTeamShaped(r, who)
  {
    AttributedScanValid(s, from);
    PersonTeam(s, who, Scan(Person, s, from))
  }

  /** The drafts of the self matches from `from` on. */
  function SelfFrom(s: string, from: nat): (r: seq<TaskDraft>)
    requires from <= |s|
    ensures AllSoloShaped(r)
  {
    SelfDrafts(s, Scan(Self, s, from))
  }

  /** The drafts one routed match contributes to the solo bucket. */
  function SoloPart(r: Routed): seq<TaskDraft> {
    if r.ToSolo? then [r.draft] else []
  }

  /** The drafts one routed match contributes to the team bucket. */
  function TeamPart(r: Routed): seq<TaskDraft> {
    if r.ToTeam? then [r.draft] else []
  }

  /** Routing a match in front of others puts its draft in front of theirs, in its bucket. */
  lemma PersonCons(s: string, who: Audience, m: Match, rest: seq<Match>)
    requires ValidPersonMatch(s, m) && AllPersonMatches(s, rest)
    ensures AllPersonMatches(s, [m] + rest)
    ensures PersonSolo(s, who, [m] + rest) == SoloPart(RoutePerson(s, m, who)) + PersonSolo(s, who, rest)
    ensures PersonTeam(s, who, [m] + rest) == TeamPart(RoutePerson(s, m, who)) + PersonTeam(s, who, rest)
  {
    var ms := [m] + rest;
    assert ms[0] == m && ms[1..] == rest;
    assert forall i :: 0 < i < |ms| ==> ms[i] == rest[i - 1];
  }

  /** One step of the attributed `exec` loop: the match found is routed to exactly one bucket. */
  lemma AttributedStep(s: string, who: Audience, from: nat)
    requires from <= |s| && Exec(Person, s, from).Some?
    ensures ValidPersonMatch(s, Exec(Person, s, from).value)
    ensures var m := Exec(Person, s, from).value;
            && AttributedSolo(s, who, from) == SoloPart(RoutePerson(s, m, who)) + AttributedSolo(s, who, End(m))
            && AttributedTeam(s, who, from) == TeamPart(RoutePerson(s, m, who)) + AttributedTeam(s, who, End(m))
  {
    var m := Exec(Person, s, from).value;
    ScanStep(Person, s, from);
    AttributedScanValid(s, End(m));
    PersonCons(s, who, m, Scan(Person, s, End(m)));
  }

  /** One step of the self `exec` loop. */
  lemma SelfStep(s: string, from: nat)
    requires from <= |s| && Exec(Self, s, from).Some?
    ensures End(Exec(Self, s, from).value) <= |s|
    ensures var m := Exec(Self, s, from).value;
            SelfFrom(s, from) == [SelfDraft(s, m)] + SelfFrom(s, End(m))
  {
    var m := Exec(Self, s, from).value;
    ScanStep(Self, s, from);
    SelfDraftsCons(s, m, Scan(Self, s, End(m)));
  }

  lemma SelfDraftsCons(s: string, m: Match, rest: seq<Match>)
    requires End(m) <= |s| && AllWithin(s, rest)
    ensures AllWithin(s, [m] + rest)
    ensures SelfDrafts(s, [m] + rest) == [SelfDraft(s, m)] + SelfDrafts(s, rest)
  {
    var ms := [m] + rest;
    assert ms[0] == m && ms[1..] == rest;
    assert forall i :: 0 < i < |ms| ==> ms[i] == rest[i - 1];
  }

  /** A fallback match in front of others adds its phrase, if kept, in front of theirs. */
  lemma FallbackPhrasesCons(m: Match, rest: seq<Match>)
    ensures FallbackPhrases([m] + rest) == Kept(m) + FallbackPhrases(rest)
  {
    var ms := [m] + rest;
    assert ms[0] == m && ms[1..] == rest;
  }

  /** The trimmed fallback phrases longer than 3 characters from `from` on. */
  function FallbackFrom(s: string, from: nat): (r: seq<string>)
    requires from <= |s|
    ensures forall i :: 0 <= i < |r| ==> |r[i]| > 3
  {
    FallbackPhrases(Scan(Fallback, s, from))
  }

  /** What one fallback match adds to `extractedTasks`. */
  function Kept(m: Match): seq<string> {
    var phrase := Trim(m.desc);
    if |phrase| > 3 then [phrase] else []
  }

  /** One step of the fallback `matchAll` loop. */
  lemma FallbackStep(s: string, from: nat)
    requires from <= |s| && Exec(Fallback, s, from).Some?
    ensures End(Exec(Fallback, s, from).value) <= |s|
    ensures var m := Exec(Fallback, s, from).value;
            FallbackFrom(s, from) == Kept(m) + FallbackFrom(s, End(m))
  {
    var m := Exec(Fallback, s, from).value;
    ScanStep(Fallback, s, from);
    FallbackPhrasesCons(m, Scan(Fallback, s, End(m)));
  }
  /** The signals and the category look at the lower-cased text only, so
      changing the case of a message changes none of them. */
  lemma SignalsIgnoreCase(message: string, words: seq<string>)
    ensures IsTeamTask(LowerStr(message)) == IsTeamTask(message)
    ensures IsSoloTask(LowerStr(message)) == IsSoloTask(message)
    ensures CategoryOf(LowerStr(message), words) == CategoryOf(message, words)
  {
    LowerStrIdempotent(message);
  }

  /** Each pass has its own business words: a `design` task is Business when
      the author reports it, Personal when someone else does or when it comes
      from the fallback pass. */
  lemma CategoryDependsOnPass()
    ensures CategoryOf("design", SelfBusinessWords) == Business
    ensures CategoryOf("design", PersonBusinessWords) == Personal
    ensures CategoryOf("design", FallbackBusinessWords) == Personal
  {
    var d := "design";
    assert LowerStr(d) == d;
    assert OccursAt(d, SelfBusinessWords[2], 0);
    forall k | 0 <= k < |PersonBusinessWords| ensures !Contains(d, PersonBusinessWords[k]) {
      Absent(d, PersonBusinessWords[k]);
    }
    forall k | 0 <= k < |FallbackBusinessWords| ensures !Contains(d, FallbackBusinessWords[k]) {
      Absent(d, FallbackBusinessWords[k]);
    }
  }

  /** `Lahar`, on the roster, is always taken for the current user, whoever
      the detected user is: an attributed match for Lahar never reaches the
      team bucket. */
  lemma LaharIsAlwaysTheUser(who: Audience)
    ensures IsCurrentUser(TeamMembers[6], who)
  {
    assert LowerStr(TeamMembers[6]) == "lahar";
  }

  /** Nobody on the roster is called `You`. */
  lemma NoRosterMemberIsYou()
    ensures forall k :: 0 <= k < |TeamMembers| ==> TeamMembers[k] != You
  {
    forall k | 0 <= k < |TeamMembers| ensures TeamMembers[k] != You {
      assert TeamMembers[k][0] != You[0];
    }
  }
}
