/**
 * What the Plan-mode reply timer of `handleSend` and the commit of
 * `confirmTaskCreation` do with the extractor's result, as values: the
 * enrichment of drafts into a pending batch or into created tasks, the
 * choice of confirmation prompt, and the reaction to one message.
 * The transcript turns are kept as structured values (`Reply`); their
 * rendered wording is not modelled.
 */
module PlanReply {
  import opened Wrappers
  import opened Text
  import opened Drafts
  import opened Extraction

  /** The placeholder schedule every batch is given (lines 451-453, 471-473). */
  const ScheduledDate := "Nov 10"
  const ScheduledTime := "10:00 AM"
  const Deadline := "Nov 15"

  /** The one stock photo every created task gets (lines 365, 382, 474). */
  const ImageUrl := "https://images.unsplash.com/photo-1699570044128-b61ef113b72e?w=400"

  /** A draft waiting for confirmation, as stored in `pendingTasksToCreate`. */
  datatype PendingTask = PendingTask(
    draft: TaskDraft,
    scheduledDate: string,
    scheduledTime: string,
    deadline: string,
    suggestedMode: Option<Suggestion>)

  /** Whether a created task carries a `suggestedMode` field: tasks created
      from a pending batch do, auto-created tasks do not. */
  datatype Carried = NotCarried | Carried(mode: Option<Suggestion>)

  /** A task handed to `onCreateTasks`. */
  datatype CreatedTask = CreatedTask(
    draft: TaskDraft,
    scheduledDate: string,
    scheduledTime: string,
    deadline: string,
    suggestedMode: Carried,
    imageUrl: string)

  /** The chat modes of the component. */
  datatype ChatMode = Plan | Gamer | Coach | Mentor

  /** Lines 435-447: which confirmation question is asked. */
  datatype PromptVariant = TeamTasksInSoloMode | SoloTasksInTeamMode | ManyTasks | GenericPrompt

  /** A bot turn of the transcript, by what it says. */
  datatype Reply =
    | Greeting(mode: ChatMode, teamVariant: bool)
    | Canned(mode: ChatMode)
    | DefaultReply
    | HelpReply
    | WorkloadAnalysis
    | WorkloadNeedsTeamMode
    | ConfirmPrompt(variant: PromptVariant, tasks: seq<TaskDraft>, dashboard: Mode)
    | AutoCreated(tasks: seq<TaskDraft>, dashboard: Mode)
    | Identified(tasks: seq<TaskDraft>)
    | Switching(target: Mode)
    | CreatedAfterSwitch(count: nat, target: Mode)
    | CreatedHere(count: nat, dashboard: Mode)
    | Cancelled

  /** A transcript turn; `isConfirmation` turns are the `ConfirmPrompt` replies. */
  datatype Turn = UserTurn(text: string) | BotTurn(reply: Reply)

  /** What the reply timer does: store a batch and ask, create at once, or only answer. */
  datatype Reaction =
    | Propose(batch: seq<PendingTask>, turn: Reply)
    | AutoCreate(created: seq<CreatedTask>, turn: Reply)
    | Say(turn: Reply)

  /** `suggestedMode === 'solo' ? 'Solo' : 'Team'`: `both` reads as Team. */
  function Label(s: Suggestion): (m: Mode)
    ensures m == Solo <==> s == SoloOnly
  {
    if s == SoloOnly then Solo else Team
  }

  /** `suggestedMode !== appMode`, comparing the string values: `both` never
      equals a mode, so it always asks for a switch, to Team. */
  predicate DiffersFromMode(s: Suggestion, mode: Mode): (r: bool)
    ensures s == Both ==> r && Label(s) == Team
    ensures s != Both ==> (r <==> Label(s) != mode)
  {
    !((s == SoloOnly && mode == Solo) || (s == TeamOnly && mode == Team))
  }

  /** Lines 450-456: each draft with the placeholder schedule and the batch's suggested mode. */
  function Enrich(drafts: seq<TaskDraft>, suggested: Option<Suggestion>): (batch: seq<PendingTask>)
    ensures |batch| == |drafts|
    ensures forall i :: 0 <= i < |batch| ==>
              batch[i] == PendingTask(drafts[i], ScheduledDate, ScheduledTime, Deadline, suggested)
  {
    seq(|drafts|, i requires 0 <= i < |drafts| =>
      PendingTask(drafts[i], ScheduledDate, ScheduledTime, Deadline, suggested))
  }

  /** Lines 469-475: each draft with the placeholder schedule and the image, no suggested mode. */
  function Scheduled(drafts: seq<TaskDraft>): (created: seq<CreatedTask>)
    ensures |created| == |drafts|
    ensures forall i :: 0 <= i < |created| ==>
              created[i] == CreatedTask(drafts[i], ScheduledDate, ScheduledTime, Deadline, NotCarried, ImageUrl)
  {
    seq(|drafts|, i requires 0 <= i < |drafts| =>
      CreatedTask(drafts[i], ScheduledDate, ScheduledTime, Deadline, NotCarried, ImageUrl))
  }

  /** `{ ...task, imageUrl }`. */
  function WithImage(p: PendingTask): CreatedTask {
    CreatedTask(p.draft, p.scheduledDate, p.scheduledTime, p.deadline, Carried(p.suggestedMode), ImageUrl)
  }

  /** Lines 362-367 and 379-384: the batch with `imageUrl` added, same order and length. */
  function WithImages(batch: seq<PendingTask>): (created: seq<CreatedTask>)
    ensures |created| == |batch|
    ensures forall i :: 0 <= i < |created| ==> created[i] == WithImage(batch[i])
  {
    seq(|batch|, i requires 0 <= i < |batch| => WithImage(batch[i]))
  }

  /** The pending task a created task was made from, when it was made from one. */
  function Unimaged(c: CreatedTask): Option<PendingTask> {
    match c.suggestedMode
    case NotCarried => None
    case Carried(s) => Some(PendingTask(c.draft, c.scheduledDate, c.scheduledTime, c.deadline, s))
  }

  /** Adding the image loses nothing but the image: the batch can be read back. */
  lemma WithImagesRoundTrip(batch: seq<PendingTask>)
    ensures forall i :: 0 <= i < |batch| ==> Unimaged(WithImages(batch)[i]) == Some(batch[i])
    ensures forall i :: 0 <= i < |batch| ==> WithImages(batch)[i].imageUrl == ImageUrl
  {
  }

  /** Lines 435-447: the first condition that holds picks the question. */
  function PromptFor(isTeamTask: bool, isSoloTask: bool, count: nat, mode: Mode): (v: PromptVariant)
    ensures v == TeamTasksInSoloMode <==> isTeamTask && !isSoloTask && mode == Solo
    ensures v == SoloTasksInTeamMode <==> isSoloTask && !isTeamTask && mode == Team
    ensures v == ManyTasks <==> !(isTeamTask && !isSoloTask && mode == Solo)
                                && !(isSoloTask && !isTeamTask && mode == Team) && count > 5
    ensures v == GenericPrompt <==> !(isTeamTask && !isSoloTask && mode == Solo)
                                    && !(isSoloTask && !isTeamTask && mode == Team) && count <= 5
  {
    if isTeamTask && !isSoloTask && mode == Solo then TeamTasksInSoloMode
    else if isSoloTask && !isTeamTask && mode == Team then SoloTasksInTeamMode
    else if count > 5 then ManyTasks
    else GenericPrompt
  }

  /** `message.toLowerCase().includes('team') || ... includes('workload')` (line 484). */
  predicate AsksAboutWorkload(message: string): (r: bool)
    ensures Contains(LowerStr(message), "team") ==> r && IsTeamTask(message)
    ensures Contains(LowerStr(message), "workload") ==> r
    ensures r ==> IsTeamTask(message) || Contains(LowerStr(message), "workload")
  {
    Contains(LowerStr(message), "team") || Contains(LowerStr(message), "workload")
  }

  /** Lines 425-510 with the batch taken as `allParsedTasks`: the reaction to a
      parsed message in Plan mode. */
  function PlanReaction(r: ParseResult, message: string, mode: Mode, hostHasTasks: bool, hasCreateSink: bool): (x: Reaction)
    ensures x.Propose? <==> r.soloTasks + r.teamTasks != [] && r.needsConfirmation
    ensures x.AutoCreate? <==> r.soloTasks + r.teamTasks != [] && !r.needsConfirmation && hasCreateSink
    ensures x == Say(WorkloadAnalysis)
            <==> (r.soloTasks + r.teamTasks == [] && AsksAboutWorkload(message) && mode == Team && hostHasTasks)
    ensures x == Say(HelpReply) <==> r.soloTasks + r.teamTasks == [] && !AsksAboutWorkload(message)
  {
    var all := r.soloTasks + r.teamTasks;
    if |all| > 0 then
      if r.needsConfirmation then
        Propose(Enrich(all, r.suggestedMode),
                ConfirmPrompt(PromptFor(r.isTeamTask, r.isSoloTask, |all|, mode), all, mode))
      else if hasCreateSink then
        AutoCreate(Scheduled(all), AutoCreated(all, mode))
      else
        Say(Identified(all))
    else if AsksAboutWorkload(message) then
      if mode == Team && hostHasTasks then Say(WorkloadAnalysis) else Say(WorkloadNeedsTeamMode)
    else
      Say(HelpReply)
  }

  /** The reaction of the reply timer to `message` in the chat mode selected when it was sent. */
  function ReplyReaction(message: string, selected: Option<ChatMode>, mode: Mode, hostHasTasks: bool, hasCreateSink: bool): (x: Reaction)
    ensures !x.Say? ==> selected == Some(Plan)
    ensures selected == None ==> x == Say(DefaultReply)
    ensures selected.Some? && selected.value != Plan ==> x == Say(Canned(selected.value))
  {
    match selected
    case Some(Plan) => PlanReaction(Parse(message, mode, You), message, mode, hostHasTasks, hasCreateSink)
    case Some(other) => Say(Canned(other))
    case None => Say(DefaultReply)
  }

  /** The reaction covers every draft: a batch or a creation holds them all, in order. */
  lemma ReactionKeepsEveryDraft(r: ParseResult, message: string, mode: Mode, hostHasTasks: bool, hasCreateSink: bool)
    ensures var all := r.soloTasks + r.teamTasks;
            match PlanReaction(r, message, mode, hostHasTasks, hasCreateSink)
            case Propose(batch, turn) =>
              && all != [] && r.needsConfirmation
              && |batch| == |all| && (forall i :: 0 <= i < |batch| ==> batch[i].draft == all[i] && batch[i].suggestedMode == r.suggestedMode)
              && turn.ConfirmPrompt? && turn.tasks == all
            case AutoCreate(created, _) =>
              && all != [] && !r.needsConfirmation && hasCreateSink
              && |created| == |all| && (forall i :: 0 <= i < |created| ==> created[i].draft == all[i] && created[i].suggestedMode == NotCarried)
            case Say(turn) =>
              (all != [] ==> !r.needsConfirmation && !hasCreateSink && turn == Identified(all))
  {
  }

  /** In Solo mode nothing is created without asking unless it is at most
      five tasks, all the current user's. */
  lemma SoloAutoCreationIsOwnTasks(message: string, hostHasTasks: bool, hasCreateSink: bool)
    ensures var reaction := PlanReaction(Parse(message, Solo, You), message, Solo, hostHasTasks, hasCreateSink);
            reaction.AutoCreate? ==>
              && 0 < |reaction.created| <= 5
              && forall i :: 0 <= i < |reaction.created| ==> reaction.created[i].draft.assignee == You
  {
    var r := Parse(message, Solo, You);
    var reaction := PlanReaction(r, message, Solo, hostHasTasks, hasCreateSink);
    if reaction.AutoCreate? {
      ReactionKeepsEveryDraft(r, message, Solo, hostHasTasks, hasCreateSink);
      AutoCreationStaysInMode(message, Solo, You);
      DraftsAreWellFormed(message, Solo, You);
      assert r.teamTasks == [];
      assert r.soloTasks + r.teamTasks == r.soloTasks;
    }
  }

  /** In Team mode nothing is created without asking unless it is at most
      five tasks, none of them the current user's. */
  lemma TeamAutoCreationIsTeamTasks(message: string, hostHasTasks: bool, hasCreateSink: bool)
    ensures var reaction := PlanReaction(Parse(message, Team, You), message, Team, hostHasTasks, hasCreateSink);
            reaction.AutoCreate? ==>
              && 0 < |reaction.created| <= 5
              && forall i :: 0 <= i < |reaction.created| ==> reaction.created[i].draft.assignee != You
  {
    var r := Parse(message, Team, You);
    AutoCreationStaysInMode(message, Team, You);
    TeamDraftsAreNeverYou(message, Team);
    TeamAutoCreation(r, message, hostHasTasks, hasCreateSink);
  }

  lemma TeamAutoCreation(r: ParseResult, message: string, hostHasTasks: bool, hasCreateSink: bool)
    requires !r.needsConfirmation ==> |r.soloTasks| + |r.teamTasks| <= 5 && r.soloTasks == []
    requires forall i :: 0 <= i < |r.teamTasks| ==> r.teamTasks[i].assignee != You
    ensures var reaction := PlanReaction(r, message, Team, hostHasTasks, hasCreateSink);
            reaction.AutoCreate? ==>
              && 0 < |reaction.created| <= 5
              && forall i :: 0 <= i < |reaction.created| ==> reaction.created[i].draft.assignee != You
  {
    var reaction := PlanReaction(r, message, Team, hostHasTasks, hasCreateSink);
    if reaction.AutoCreate? {
      ReactionKeepsEveryDraft(r, message, Team, hostHasTasks, hasCreateSink);
      assert r.soloTasks + r.teamTasks == r.teamTasks;
    }
  }

  /** A batch proposed from fallback drafts carries no suggested mode, so the
      switch buttons are not shown and a switch cannot be requested for it. */
  lemma FallbackBatchOffersNoSwitch(message: string, mode: Mode, hostHasTasks: bool, hasCreateSink: bool)
    ensures var r := Parse(message, mode, You);
            var reaction := PlanReaction(r, message, mode, hostHasTasks, hasCreateSink);
            reaction.Propose? ==>
              (reaction.batch[0].suggestedMode.None?
               <==> forall i :: 0 <= i < |reaction.batch| ==> reaction.batch[i].draft.status == Pending)
  {
    StatusRevealsThePass(message, mode, You);
    ProposalRevealsThePass(Parse(message, mode, You), message, mode, hostHasTasks, hasCreateSink);
  }

  lemma ProposalRevealsThePass(r: ParseResult, message: string, mode: Mode, hostHasTasks: bool, hasCreateSink: bool)
    requires var all := r.soloTasks + r.teamTasks;
             && (r.suggestedMode.Some? ==> all != [] && forall i :: 0 <= i < |all| ==> all[i].status != Pending)
             && (r.suggestedMode.None? ==> forall i :: 0 <= i < |all| ==> all[i].status == Pending)
    ensures var reaction := PlanReaction(r, message, mode, hostHasTasks, hasCreateSink);
            reaction.Propose? ==>
              (reaction.batch[0].suggestedMode.None?
               <==> forall i :: 0 <= i < |reaction.batch| ==> reaction.batch[i].draft.status == Pending)
  {
    var all := r.soloTasks + r.teamTasks;
    if all != [] && r.suggestedMode.Some? {
      assert all[0].status != Pending;
    }
  }

  /** An as-written outcome: the timer callback either returns or throws. */
  datatype Outcome = Threw | Returned(reaction: Reaction)

  /** Lines 425-510 as written: every statement after the task list that is
      reached when there are drafts reads `parsedTasks`, which no scope
      declares, so the callback throws a `ReferenceError` there. */
  function PlanReactionAsWritten(r: ParseResult, message: string, mode: Mode, hostHasTasks: bool, hasCreateSink: bool): (o: Outcome)
    ensures o.Threw? <==> r.soloTasks + r.teamTasks != []
    ensures o.Returned? ==> o.reaction.Say? && o.reaction.turn in {WorkloadAnalysis, WorkloadNeedsTeamMode, HelpReply}
  {
    if |r.soloTasks + r.teamTasks| > 0 then Threw
    else Returned(PlanReaction(r, message, mode, hostHasTasks, hasCreateSink))
  }
}
