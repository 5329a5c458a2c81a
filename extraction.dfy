/**
 * `parseTasksFromMessage`: the two primary passes, the suggested mode, the
 * fallback pass and the confirmation decision. `Parse` states the result as a
 * function of the message; `ParseTasksFromMessage` computes it the way the
 * source does, with `exec` loops that push into two buckets.
 */
module Extraction {
  import opened Wrappers
  import opened Text
  import opened Patterns
  import opened Drafts

  /** The host's operating mode. */
  datatype Mode = Solo | Team

  /** `suggestedMode` when it is not `null`. */
  datatype Suggestion = SoloOnly | TeamOnly | Both

  datatype ParseResult = ParseResult(
    soloTasks: seq<TaskDraft>,
    teamTasks: seq<TaskDraft>,
    isTeamTask: bool,
    isSoloTask: bool,
    needsConfirmation: bool,
    suggestedMode: Option<Suggestion>)

  function AudienceOf(message: string, currentUser: string): Audience {
    Audience(DetectedUserName(message), currentUser)
  }

  /** `soloTasks` after the attributed and the self passes. */
  function PrimarySolo(message: string, currentUser: string): seq<TaskDraft> {
    AttributedSolo(message, AudienceOf(message, currentUser), 0) + SelfFrom(message, 0)
  }

  /** `teamTasks` after the attributed pass (the self pass adds none). */
  function PrimaryTeam(message: string, currentUser: string): seq<TaskDraft> {
    AttributedTeam(message, AudienceOf(message, currentUser), 0)
  }

  /** Lines 240-247: the mode the bucket sizes suggest. */
  function SuggestedMode(soloCount: nat, teamCount: nat): (r: Option<Suggestion>)
    ensures r == Some(Both) <==> soloCount > 0 && teamCount > 0
    ensures r == Some(TeamOnly) <==> soloCount == 0 && teamCount > 0
    ensures r == Some(SoloOnly) <==> soloCount > 0 && teamCount == 0
    ensures r == None <==> soloCount == 0 && teamCount == 0
  {
    if soloCount > 0 && teamCount > 0 then Some(Both)
    else if teamCount > 0 then Some(TeamOnly)
    else if soloCount > 0 then Some(SoloOnly)
    else None
  }

  /** Lines 298-301: whether the drafts must be confirmed before they are created. */
  function NeedsConfirmation(suggested: Option<Suggestion>, soloCount: nat, teamCount: nat, mode: Mode): (r: bool)
    ensures soloCount + teamCount > 5 ==> r
    ensures suggested == Some(Both) ==> r
    ensures !r <==> soloCount + teamCount <= 5 && suggested != Some(Both)
                    && (if mode == Solo then teamCount == 0 else soloCount == 0)
  {
    || suggested == Some(Both)
    || (teamCount > 0 && mode == Solo)
    || (soloCount > 0 && mode == Team)
    || soloCount + teamCount > 5
  }

  /** What `parseTasksFromMessage(message, mode, currentUser)` returns. */
  function Parse(message: string, mode: Mode, currentUser: string): (r: ParseResult)
    ensures r.needsConfirmation == NeedsConfirmation(r.suggestedMode, |r.soloTasks|, |r.teamTasks|, mode)
    ensures r.suggestedMode.Some? ==> r.suggestedMode == SuggestedMode(|r.soloTasks|, |r.teamTasks|)
    ensures r.suggestedMode.None? ==> r.soloTasks == [] || r.teamTasks == []
    ensures r.isSoloTask == IsSoloTask(message) && r.isTeamTask == IsTeamTask(message)
  {
    var solo := PrimarySolo(message, currentUser);
    var team := PrimaryTeam(message, currentUser);
    var suggested := SuggestedMode(|solo|, |team|);
    var isSolo := IsSoloTask(message);
    var phrases := FallbackFrom(message, 0);
    var solo' := if solo == [] && team == [] && isSolo then FallbackDrafts(phrases, true) else solo;
    var team' := if solo == [] && team == [] && !isSolo then FallbackDrafts(phrases, false) else team;
    ParseResult(solo', team', IsTeamTask(message), isSolo,
                NeedsConfirmation(suggested, |solo'|, |team'|, mode), suggested)
  }

  /** Lines 159-206: the `exec` loop over attributed matches, pushing each
      draft into the bucket its name routes it to. */
  method AttributedPass(message: string, who: Audience) returns (soloTasks: seq<TaskDraft>, teamTasks: seq<TaskDraft>)
    ensures soloTasks == AttributedSolo(message, who, 0)
    ensures teamTasks == AttributedTeam(message, who, 0)
  {
    soloTasks, teamTasks := [], [];
    var lastIndex := 0;
    var found := Exec(Person, message, lastIndex);
    while found.Some?
      invariant lastIndex <= |message|
      invariant found == Exec(Person, message, lastIndex)
      invariant soloTasks + AttributedSolo(message, who, lastIndex) == AttributedSolo(message, who, 0)
      invariant teamTasks + AttributedTeam(message, who, lastIndex) == AttributedTeam(message, who, 0)
      decreases |message| - lastIndex
    {
      var m := found.value;
      AttributedStep(message, who, lastIndex);
      var routed := RoutePerson(message, m, who);
      Regroup(soloTasks, SoloPart(routed), AttributedSolo(message, who, End(m)), AttributedSolo(message, who, 0));
      Regroup(teamTasks, TeamPart(routed), AttributedTeam(message, who, End(m)), AttributedTeam(message, who, 0));
      if routed.ToSolo? {
        soloTasks := soloTasks + [routed.draft];
      } else {
        teamTasks := teamTasks + [routed.draft];
      }
      lastIndex := End(m);
      found := Exec(Person, message, lastIndex);
    }
  }

  /** Lines 209-237: the `exec` loop over self matches. */
  method SelfPass(message: string) returns (drafts: seq<TaskDraft>)
    ensures drafts == SelfFrom(message, 0)
  {
    drafts := [];
    var lastIndex := 0;
    var found := Exec(Self, message, lastIndex);
    while found.Some?
      invariant lastIndex <= |message|
      invariant found == Exec(Self, message, lastIndex)
      invariant drafts + SelfFrom(message, lastIndex) == SelfFrom(message, 0)
      decreases |message| - lastIndex
    {
      var m := found.value;
      SelfStep(message, lastIndex);
      Regroup(drafts, [SelfDraft(message, m)], SelfFrom(message, End(m)), SelfFrom(message, 0));
      drafts := drafts + [SelfDraft(message, m)];
      lastIndex := End(m);
      found := Exec(Self, message, lastIndex);
    }
  }

  /** Lines 256-263: `matchAll` over the fallback cues, keeping the trimmed
      phrases longer than 3 characters. */
  method CollectFallbackPhrases(message: string) returns (extracted: seq<string>)
    ensures extracted == FallbackFrom(message, 0)
  {
    extracted := [];
    var lastIndex := 0;
    var found := Exec(Fallback, message, lastIndex);
    while found.Some?
      invariant lastIndex <= |message|
      invariant found == Exec(Fallback, message, lastIndex)
      invariant extracted + FallbackFrom(message, lastIndex) == FallbackFrom(message, 0)
      decreases |message| - lastIndex
    {
      var m := found.value;
      FallbackStep(message, lastIndex);
      Regroup(extracted, Kept(m), FallbackFrom(message, End(m)), FallbackFrom(message, 0));
      var phrase := Trim(m.desc);
      if |phrase| > 3 {
        extracted := extracted + [phrase];
      }
      lastIndex := End(m);
      found := Exec(Fallback, message, lastIndex);
    }
  }

  /** Lines 265-294: the `forEach` that drafts each fallback phrase into one bucket. */
  method DraftFallbackPhrases(extracted: seq<string>, isSoloTask: bool)
    returns (soloTasks: seq<TaskDraft>, teamTasks: seq<TaskDraft>)
    ensures soloTasks == (if isSoloTask then FallbackDrafts(extracted, true) else [])
    ensures teamTasks == (if isSoloTask then [] else FallbackDrafts(extracted, false))
  {
    soloTasks, teamTasks := [], [];
    ghost var all := FallbackDrafts(extracted, isSoloTask);
    var index := 0;
    while index < |extracted|
      invariant index <= |extracted|
      invariant isSoloTask ==> soloTasks == all[..index] && teamTasks == []
      invariant !isSoloTask ==> teamTasks == all[..index] && soloTasks == []
    {
      var d := FallbackDraft(extracted[index], index, isSoloTask);
      PrefixGrows(all, index);
      if isSoloTask {
        soloTasks := soloTasks + [d];
      } else {
        teamTasks := teamTasks + [d];
      }
      index := index + 1;
    }
    assert all[..index] == all;
  }

  /** The source's function, step by step. */
  method ParseTasksFromMessage(message: string, mode: Mode, currentUser: string) returns (r: ParseResult)
    ensures r == Parse(message, mode, currentUser)
  {
    var who := AudienceOf(message, currentUser);
    var soloTasks, teamTasks := AttributedPass(message, who);
    var selfTasks := SelfPass(message);
    soloTasks := soloTasks + selfTasks;

    var suggestedMode: Option<Suggestion> := None;
    if |soloTasks| > 0 && |teamTasks| > 0 {
      suggestedMode := Some(Both);
    } else if |teamTasks| > 0 {
      suggestedMode := Some(TeamOnly);
    } else if |soloTasks| > 0 {
      suggestedMode := Some(SoloOnly);
    }

    var isSoloTask := IsSoloTask(message);
    if |soloTasks| == 0 && |teamTasks| == 0 {
      var extracted := CollectFallbackPhrases(message);
      soloTasks, teamTasks := DraftFallbackPhrases(extracted, isSoloTask);
    }

    var needsConfirmation := || suggestedMode == Some(Both)
                             || (|teamTasks| > 0 && mode == Solo)
                             || (|soloTasks| > 0 && mode == Team)
                             || |soloTasks| + |teamTasks| > 5;

    r := ParseResult(soloTasks, teamTasks, IsTeamTask(message), isSoloTask, needsConfirmation, suggestedMode);
  }

  /** Each attributed match yields exactly one draft, in one of the two buckets. */
  lemma {:induction false} AttributedPartition(s: string, who: Audience, ms: seq<Match>)
    requires AllPersonMatches(s, ms)
    ensures |PersonSolo(s, who, ms)| + |PersonTeam(s, who, ms)| == |ms|
    decreases |ms|
  {
    if ms != [] {
      AttributedPartition(s, who, ms[1..]);
    }
  }

  /** Lines 240-247 and 249: the primary passes decide the buckets and the
      suggested mode; the fallback fills the buckets only when both are empty,
      and then `suggestedMode` stays `null`. */
  lemma SuggestionComesFromPrimaryPasses(message: string, mode: Mode, currentUser: string)
    ensures var r := Parse(message, mode, currentUser);
            var solo, team := PrimarySolo(message, currentUser), PrimaryTeam(message, currentUser);
            && (r.suggestedMode.Some? <==> solo != [] || team != [])
            && (r.suggestedMode.Some? ==> r.soloTasks == solo && r.teamTasks == team
                                           && r.suggestedMode == SuggestedMode(|r.soloTasks|, |r.teamTasks|))
            && (r.suggestedMode.None? ==> r.soloTasks + r.teamTasks == FallbackDrafts(FallbackFrom(message, 0), r.isSoloTask))
  {
  }

  /** Drafts from the primary passes always carry a progress status; drafts
      from the fallback are always `pending`. So `suggestedMode` is `null`
      exactly when the returned drafts, if any, are all pending. */
  lemma StatusRevealsThePass(message: string, mode: Mode, currentUser: string)
    ensures var r := Parse(message, mode, currentUser);
            var all := r.soloTasks + r.teamTasks;
            && (r.suggestedMode.Some? ==> all != [] && forall i :: 0 <= i < |all| ==> all[i].status != Pending)
            && (r.suggestedMode.None? ==> forall i :: 0 <= i < |all| ==> all[i].status == Pending)
  {
    SuggestionComesFromPrimaryPasses(message, mode, currentUser);
    PrimaryDraftsInProgress(message, currentUser);
  }

  lemma PrimaryDraftsInProgress(message: string, currentUser: string)
    ensures var all := PrimarySolo(message, currentUser) + PrimaryTeam(message, currentUser);
            forall i :: 0 <= i < |all| ==> all[i].status != Pending
  {
    var who := AudienceOf(message, currentUser);
    var a, b, c := AttributedSolo(message, who, 0), SelfFrom(message, 0), AttributedTeam(message, who, 0);
    var all := a + b + c;
    forall i | 0 <= i < |all| ensures all[i].status != Pending {
      if i < |a| { assert all[i] == a[i]; }
      else if i < |a| + |b| { assert all[i] == b[i - |a|]; }
      else { assert all[i] == c[i - |a| - |b|]; }
    }
  }

  /** Lines 265-293: fallback drafts go to one bucket, chosen by the solo cues;
      team fallback drafts rotate through the first four team members. */
  lemma FallbackRouting(message: string, mode: Mode, currentUser: string)
    ensures var r := Parse(message, mode, currentUser);
            r.suggestedMode.None? ==>
              && (r.isSoloTask ==> r.teamTasks == [] && forall i :: 0 <= i < |r.soloTasks| ==> r.soloTasks[i].assignee == You)
              && (!r.isSoloTask ==> r.soloTasks == [] && forall i :: 0 <= i < |r.teamTasks| ==> r.teamTasks[i].assignee == TeamMembers[i % 4])
  {
  }

  /** Every returned title has at most 60 characters, every solo draft is the
      current user's, and no attributed team draft names the current user. */
  lemma DraftsAreWellFormed(message: string, mode: Mode, currentUser: string)
    ensures var r := Parse(message, mode, currentUser);
            && (forall i :: 0 <= i < |r.soloTasks| ==> r.soloTasks[i].assignee == You && TitleBounded(r.soloTasks[i]))
            && (forall i :: 0 <= i < |r.teamTasks| ==> TitleBounded(r.teamTasks[i]))
            && (r.suggestedMode.Some? ==> forall i :: 0 <= i < |r.teamTasks| ==> r.teamTasks[i].assignee != currentUser)
  {
    var r := Parse(message, mode, currentUser);
    SuggestionComesFromPrimaryPasses(message, mode, currentUser);
    if r.suggestedMode.Some? {
      PrimaryBucketsShaped(message, currentUser);
      ShapedBucketsAreWellFormed(r.soloTasks, r.teamTasks, AudienceOf(message, currentUser));
    } else {
      FallbackRouting(message, mode, currentUser);
      FallbackDraftsShaped(FallbackFrom(message, 0), r.isSoloTask);
    }
  }

  /** Drafts shaped as the primary passes shape them are well formed. */
  lemma ShapedBucketsAreWellFormed(solo: seq<TaskDraft>, team: seq<TaskDraft>, who: Audience)
    requires AllSoloShaped(solo) && AllTeamShaped(team, who)
    ensures forall i :: 0 <= i < |solo| ==> solo[i].assignee == You && TitleBounded(solo[i])
    ensures forall i :: 0 <= i < |team| ==> TitleBounded(team[i]) && team[i].assignee != who.currentUser
  {
    forall i | 0 <= i < |team| ensures team[i].assignee != who.currentUser {
      assert TeamShaped(team[i], who);
    }
  }

  /** The buckets of the primary passes hold only well-formed drafts. */
  lemma PrimaryBucketsShaped(message: string, currentUser: string)
    ensures AllSoloShaped(PrimarySolo(message, currentUser))
    ensures AllTeamShaped(PrimaryTeam(message, currentUser), AudienceOf(message, currentUser))
  {
    SoloShapedConcat(AttributedSolo(message, AudienceOf(message, currentUser), 0), SelfFrom(message, 0));
  }

  /** Fallback drafts have bounded titles, and solo ones are the current user's. */
  lemma FallbackDraftsShaped(phrases: seq<string>, toSolo: bool)
    ensures forall i :: 0 <= i < |phrases| ==> TitleBounded(FallbackDrafts(phrases, toSolo)[i])
    ensures toSolo ==> forall i :: 0 <= i < |phrases| ==> FallbackDrafts(phrases, toSolo)[i].assignee == You
  {
  }

  /** Lines 298-301: drafts are created without asking only when there are at
      most five, all in the bucket of the current mode. */
  lemma AutoCreationStaysInMode(message: string, mode: Mode, currentUser: string)
    ensures var r := Parse(message, mode, currentUser);
            !r.needsConfirmation <==>
              && |r.soloTasks| + |r.teamTasks| <= 5
              && r.suggestedMode != Some(Both)
              && (if mode == Solo then r.teamTasks == [] else r.soloTasks == [])
  {
  }

  /** No team draft is ever assigned to the current user `You`: attributed
      team drafts name someone else, fallback team drafts a roster member. */
  lemma TeamDraftsAreNeverYou(message: string, mode: Mode)
    ensures var r := Parse(message, mode, You);
            forall i :: 0 <= i < |r.teamTasks| ==> r.teamTasks[i].assignee != You
  {
    var r := Parse(message, mode, You);
    if r.suggestedMode.Some? {
      DraftsAreWellFormed(message, mode, You);
    } else {
      FallbackRouting(message, mode, You);
      NoRosterMemberIsYou();
      forall i | 0 <= i < |r.teamTasks| ensures r.teamTasks[i].assignee != You {
        assert r.teamTasks[i].assignee == TeamMembers[i % 4];
      }
    }
  }
}
