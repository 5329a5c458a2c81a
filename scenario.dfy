/**
 * One message followed through the whole Plan reply: "I need to water the
 * plants", sent in Solo mode. Neither primary pattern matches, the fallback
 * pass finds one phrase, and the drafts need no confirmation; as written the
 * reply then throws on `parsedTasks`, where the corrected reply creates the
 * task.
 */
module Scenario {
  import opened Wrappers
  import opened Text
  import opened Patterns
  import opened Drafts
  import opened Extraction
  import opened PlanReply

  const Plants := "I need to water the plants"

  /** The phrase after `need to`. */
  function Phrase(): (t: string)
    ensures |t| == 16
  {
    Plants[10..26]
  }

  lemma PhraseIs()
    ensures Phrase() == "water the plants"
  {
    assert Plants[10] == 'w';
    assert Plants[11] == 'a';
    assert Plants[12] == 't';
    assert Plants[13] == 'e';
    assert Plants[14] == 'r';
    assert Plants[15] == ' ';
    assert Plants[16] == 't';
    assert Plants[17] == 'h';
    assert Plants[18] == 'e';
    assert Plants[19] == ' ';
    assert Plants[20] == 'p';
    assert Plants[21] == 'l';
    assert Plants[22] == 'a';
    assert Plants[23] == 'n';
    assert Plants[24] == 't';
    assert Plants[25] == 's';
  }

  /** No two adjacent characters of the message, lower-cased, begin an
      auxiliary (`is`, `has`, `have`, `are`, `am`). */
  lemma NoAuxiliaryStart(i: nat)
    requires i + 1 < |Plants|
    ensures !(Lower(Plants[i]) == 'i' && Lower(Plants[i + 1]) == 's')
    ensures !(Lower(Plants[i]) == 'h' && Lower(Plants[i + 1]) == 'a')
    ensures !(Lower(Plants[i]) == 'a' && Lower(Plants[i + 1]) == 'r')
    ensures !(Lower(Plants[i]) == 'a' && Lower(Plants[i + 1]) == 'm')
  {
  }

  /** No auxiliary occurs anywhere in the message. */
  lemma NoAuxiliary(i: nat, kw: string)
    requires kw in PersonAuxiliaries || kw in SelfAuxiliaries
    ensures !KeywordAt(Plants, i, kw)
  {
    if KeywordAt(Plants, i, kw) {
      KeywordStart(Plants, i, kw);
      NoAuxiliaryStart(i);
    }
  }

  /** Neither primary pattern matches anywhere in the message. */
  lemma NoPrimaryMatch(p: nat)
    requires p <= |Plants|
    ensures PersonAt(Plants, p).None? && SelfAt(Plants, p).None?
  {
    if PersonAt(Plants, p).Some? {
      PersonNeedsAuxiliary(Plants, p);
      var i, k :| p < i <= |Plants| && 0 <= k < |PersonAuxiliaries| && KeywordAt(Plants, i, PersonAuxiliaries[k]);
      NoAuxiliary(i, PersonAuxiliaries[k]);
    }
    if SelfAt(Plants, p).Some? {
      SelfNeedsAuxiliary(Plants, p);
      var i, k :| p < i <= |Plants| && 0 <= k < |SelfAuxiliaries| && KeywordAt(Plants, i, SelfAuxiliaries[k]);
      NoAuxiliary(i, SelfAuxiliaries[k]);
    }
  }

  /** So both primary passes find nothing. */
  lemma PrimaryPassesEmpty(currentUser: string)
    ensures PrimarySolo(Plants, currentUser) == [] && PrimaryTeam(Plants, currentUser) == []
  {
    forall p | 0 <= p <= |Plants| ensures MatchAt(Person, Plants, p).None? && MatchAt(Self, Plants, p).None? {
      NoPrimaryMatch(p);
    }
    assert Exec(Person, Plants, 0).None? && Exec(Self, Plants, 0).None?;
  }

  /** No fallback cue begins with `i` or a space. */
  lemma CueStarts(k: nat)
    requires k < |FallbackCues|
    ensures |FallbackCues[k]| >= 2 && FallbackCues[k][0] != 'i' && FallbackCues[k][0] != ' '
  {
  }

  /** The cue `k` does not occur at position 0 or 1, where the message has `I `. */
  lemma NoCueStartsAt(p: nat, k: nat)
    requires p < 2 && k < |FallbackCues|
    ensures !KeywordAt(Plants, p, FallbackCues[k])
  {
    assert Lower(Plants[0]) == 'i' && Lower(Plants[1]) == ' ';
    CueStarts(k);
    if KeywordAt(Plants, p, FallbackCues[k]) {
      KeywordStart(Plants, p, FallbackCues[k]);
    }
  }

  /** No fallback cue starts at position 0 or 1. */
  lemma NoCueAt(p: nat)
    requires p < 2
    ensures FallbackAt(Plants, p).None?
  {
    forall k | 0 <= k < |FallbackCues| ensures !KeywordAt(Plants, p, FallbackCues[k]) {
      NoCueStartsAt(p, k);
    }
  }

  /** Lower-casing text without upper-case letters changes nothing. */
  lemma LowerOfLower(t: string)
    requires forall k :: 0 <= k < |t| ==> !IsUpperAscii(t[k])
    ensures LowerStr(t) == t
  {
  }

  /** `need to` occurs at position 2. */
  lemma CueAtTwo()
    ensures KeywordAt(Plants, 2, FallbackCues[0])
  {
    assert Plants[2] == 'n';
    assert Plants[3] == 'e';
    assert Plants[4] == 'e';
    assert Plants[5] == 'd';
    assert Plants[6] == ' ';
    assert Plants[7] == 't';
    assert Plants[8] == 'o';
    assert Plants[2..9] == "need to";
    LowerOfLower("need to");
  }

  /** After `need to`, one space and then the rest of the message, which has no stop. */
  lemma TailAfterCue()
    ensures Tail(Plants, 9) == Some((10, 26))
  {
    var j := RunEnd(Plants, 9, IsSpace);
    assert !IsSpace(Plants[10]);
    assert j == 10;
    var e := RunEnd(Plants, 10, NotStop);
    assert forall k :: 0 <= k < |Plants| ==> NotStop(Plants[k]);
    assert e == 26;
  }

  /** The one fallback match of the message. */
  lemma FallbackMatch()
    ensures FallbackAt(Plants, 2) == Some(Match(2, 24, None, Phrase()))
  {
    CueAtTwo();
    TailAfterCue();
    FallbackAtMeaning(Plants, 2, 0);
  }

  /** The first `exec` of the fallback pattern finds the match at position 2. */
  lemma FirstFallbackExec()
    ensures Exec(Fallback, Plants, 0) == Some(Match(2, 24, None, Phrase()))
  {
    FallbackMatch();
    NoCueAt(0);
    NoCueAt(1);
    assert Exec(Fallback, Plants, 1) == Exec(Fallback, Plants, 2);
  }

  /** The fallback pass matches `need to water the plants` and nothing after it. */
  lemma FallbackScan()
    ensures Scan(Fallback, Plants, 0) == [Match(2, 24, None, Phrase())]
  {
    FirstFallbackExec();
    ScanStep(Fallback, Plants, 0);
    assert Exec(Fallback, Plants, 26).None?;
  }

  /** Trimming the phrase keeps it whole: it neither starts nor ends with white space. */
  lemma PhraseTrimmed()
    ensures Trim(Phrase()) == Phrase()
  {
    var t := Phrase();
    assert !IsSpace(t[0]) && !IsSpace(t[15]);
    var r := Trim(t);
    var a, b :| 0 <= a <= b <= |t| && r == t[a..b]
                && (forall k :: 0 <= k < a ==> IsSpace(t[k]))
                && (forall k :: b <= k < |t| ==> IsSpace(t[k]));
    assert a == 0;
    assert b == 16;
  }

  /** The one fallback phrase is kept whole. */
  lemma FallbackPhrase()
    ensures FallbackFrom(Plants, 0) == [Phrase()]
  {
    FallbackScan();
    PhraseTrimmed();
    var ms := [Match(2, 24, None, Phrase())];
    assert ms[1..] == [];
    assert FallbackPhrases(ms) == [Phrase()] + FallbackPhrases([]);
  }

  /** The message speaks of its author: it starts with `I `. */
  lemma PlantsAreSolo()
    ensures IsSoloTask(Plants)
  {
    assert OccursAt(LowerStr(Plants), SoloCues[0], 0) by {
      assert LowerStr(Plants)[0..2] == "i ";
    }
  }

  /** A message in which neither primary pass finds anything, with a solo cue
      and one fallback phrase, parses in Solo mode to that phrase's draft alone. */
  lemma OneSoloFallbackPhrase(message: string, t: string, currentUser: string)
    requires PrimarySolo(message, currentUser) == [] && PrimaryTeam(message, currentUser) == []
    requires IsSoloTask(message) && FallbackFrom(message, 0) == [t]
    ensures Parse(message, Solo, currentUser)
            == ParseResult([FallbackDraft(t, 0, true)], [], IsTeamTask(message), true, false, None)
  {
    assert FallbackDrafts([t], true) == [FallbackDraft(t, 0, true)];
    assert SuggestedMode(0, 0) == None;
    assert !NeedsConfirmation(None, 1, 0, Solo);
  }

  /** What the extractor returns for the message in Solo mode. */
  lemma PlantsParse()
    ensures Parse(Plants, Solo, You)
            == ParseResult([FallbackDraft(Phrase(), 0, true)], [], IsTeamTask(Plants), true, false, None)
  {
    PrimaryPassesEmpty(You);
    FallbackPhrase();
    PlantsAreSolo();
    OneSoloFallbackPhrase(Plants, Phrase(), You);
  }

  /** The draft made from the phrase: `Water the plants`, for `You`, pending. */
  lemma PlantsTitle()
    ensures var d := FallbackDraft(Phrase(), 0, true);
            d.title == "Water the plants" && d.status == Pending && d.assignee == You
  {
    PhraseIs();
    assert MakeTitle("water the plants") == "Water the plants";
  }

  /** None of the fallback pass's business words occurs in the phrase. */
  lemma PlantsArePersonal()
    ensures FallbackDraft(Phrase(), 0, true).category == Personal
  {
    PhraseIs();
    var t := "water the plants";
    LowerOfLower(t);
    forall k | 0 <= k < |FallbackBusinessWords| ensures !Contains(t, FallbackBusinessWords[k]) {
      NoBusinessWord(k);
    }
  }

  /** The adjacent character pairs of the phrase. */
  const PhrasePairs: set<(char, char)> :=
    {('w', 'a'), ('a', 't'), ('t', 'e'), ('e', 'r'), ('r', ' '), (' ', 't'), ('t', 'h'), ('h', 'e'),
     ('e', ' '), (' ', 'p'), ('p', 'l'), ('l', 'a'), ('a', 'n'), ('n', 't'), ('t', 's')}

  lemma PairsOfPhrase()
    ensures forall i :: 0 <= i < 15 ==> ("water the plants"[i], "water the plants"[i + 1]) in PhrasePairs
  {
  }

  /** The `k`-th fallback business word does not occur in the phrase: its
      first two characters are no adjacent pair of the phrase. */
  lemma NoBusinessWord(k: nat)
    requires k < |FallbackBusinessWords|
    ensures !Contains("water the plants", FallbackBusinessWords[k])
  {
    var w := FallbackBusinessWords[k];
    PairsOfPhrase();
    assert |w| >= 2 && (w[0], w[1]) !in PhrasePairs;
    Absent("water the plants", w);
  }

  /** The whole extraction of the message: one pending, personal draft for `You`, no
      suggested mode, and no confirmation in Solo mode. */
  lemma PlantsScenario()
    ensures var r := Parse(Plants, Solo, You);
            && |r.soloTasks| == 1 && r.teamTasks == []
            && r.suggestedMode == None && !r.needsConfirmation
            && r.soloTasks[0].title == "Water the plants" && r.soloTasks[0].category == Personal
            && r.soloTasks[0].status == Pending && r.soloTasks[0].assignee == You
  {
    PlantsParse();
    PlantsTitle();
    PlantsArePersonal();
  }

  /** A single draft that needs no confirmation: as written the reply throws,
      corrected it creates that one task. */
  lemma SingleDraftThrows(r: ParseResult, d: TaskDraft, message: string, mode: Mode, hostHasTasks: bool)
    requires r.soloTasks == [d] && r.teamTasks == [] && !r.needsConfirmation
    ensures PlanReactionAsWritten(r, message, mode, hostHasTasks, true) == Threw
    ensures PlanReaction(r, message, mode, hostHasTasks, true) == AutoCreate(Scheduled([d]), AutoCreated([d], mode))
  {
    assert r.soloTasks + r.teamTasks == [d];
  }

  /** The finding, on this message: as written the Plan reply throws, while
      the corrected reply creates the one task at once. */
  lemma PlantsThrowAsWritten(hostHasTasks: bool)
    ensures var r := Parse(Plants, Solo, You);
            && PlanReactionAsWritten(r, Plants, Solo, hostHasTasks, true) == Threw
            && PlanReaction(r, Plants, Solo, hostHasTasks, true)
               == AutoCreate(Scheduled([FallbackDraft(Phrase(), 0, true)]),
                             AutoCreated([FallbackDraft(Phrase(), 0, true)], Solo))
  {
    PlantsParse();
    SingleDraftThrows(Parse(Plants, Solo, You), FallbackDraft(Phrase(), 0, true), Plants, Solo, hostHasTasks);
  }
}
