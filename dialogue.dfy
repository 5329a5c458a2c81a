/**
 * The Plan-mode dialogue of `EnhancedAIChatButton` as a state machine: the
 * transcript (`messages`), the batch awaiting confirmation
 * (`pendingTasksToCreate`), the host's props, and logs of the calls made to
 * the host's `onCreateTasks` and `onSwitchMode` callbacks. The two
 * `setTimeout`s become an explicit queue of continuations that `Fire` runs,
 * each with the values its closure captured; time itself is not modelled.
 */
module Dialogue {
  import opened Wrappers
  import opened Text
  import opened Drafts
  import opened Extraction
  import opened PlanReply

  /** A scheduled callback and what its closure captured. */
  datatype Continuation =
      /** Line 413: the reply to a sent message. */
    | ReplyTo(message: string, selected: Option<ChatMode>, mode: Mode, hostHasTasks: bool, hasCreateSink: bool)
      /** Lines 360-375: the creation that follows a mode switch. */
    | CommitSwitched(batch: seq<PendingTask>, target: Suggestion)

  /** How many deferred commits are still queued. */
  function PendingCommits(timers: seq<Continuation>): (n: nat)
    ensures n <= |timers|
  {
    if timers == [] then 0
    else (if timers[0].CommitSwitched? then 1 else 0) + PendingCommits(timers[1..])
  }

  lemma {:induction false} PendingCommitsAppend(a: seq<Continuation>, b: seq<Continuation>)
    ensures PendingCommits(a + b) == PendingCommits(a) + PendingCommits(b)
    decreases |a|
  {
    if a == [] {
      assert a + b == b;
    } else {
      assert (a + b)[1..] == a[1..] + b;
      PendingCommitsAppend(a[1..], b);
    }
  }

  /** Taking the `k`-th callback off the queue removes its commit, if it is one, and no other. */
  lemma {:induction false} PendingCommitsRemove(timers: seq<Continuation>, k: nat)
    requires k < |timers|
    ensures PendingCommits(timers)
            == PendingCommits(timers[..k] + timers[k + 1..]) + (if timers[k].CommitSwitched? then 1 else 0)
    decreases k
  {
    if k == 0 {
      assert timers[..0] + timers[1..] == timers[1..];
    } else {
      var tail := timers[1..];
      PendingCommitsRemove(tail, k - 1);
      var rest := timers[..k] + timers[k + 1..];
      assert rest[0] == timers[0];
      assert rest[1..] == tail[..k - 1] + tail[k..];
      assert tail[k - 1] == timers[k];
    }
  }

  /** Line 407: the note appended to the user's turn when files are attached. */
  function AttachmentNote(count: nat): string {
    "\n\U{1F4CE} Attached " + NatToString(count) + " file(s)"
  }

  /** Lines 405-408: the text of the user's turn. */
  function UserText(message: string, attachedCount: nat): (t: string)
    ensures attachedCount == 0 ==> t == message
    ensures attachedCount > 0 ==> |t| > |message| && t[..|message|] == message
  {
    if attachedCount > 0 then message + AttachmentNote(attachedCount) else message
  }

  /** Every task of a batch carries the same suggested mode, the first one's. */
  predicate UniformBatch(batch: seq<PendingTask>) {
    forall i :: 0 <= i < |batch| ==> batch[i].suggestedMode == batch[0].suggestedMode
  }

  /** Lines 352 and 712: the batch's suggested mode asks for a different mode than the host's. */
  predicate SwitchApplies(batch: seq<PendingTask>, mode: Mode): (r: bool)
    ensures r ==> batch != [] && batch[0].suggestedMode.Some?
    ensures batch != [] && batch[0].suggestedMode == Some(Both) ==> r
    ensures batch != [] && batch[0].suggestedMode.Some? && batch[0].suggestedMode.value != Both ==>
              (r <==> Label(batch[0].suggestedMode.value) != mode)
  {
    batch != [] && batch[0].suggestedMode.Some? && DiffersFromMode(batch[0].suggestedMode.value, mode)
  }

  /** Lines 414-523: what the reply callback decides, computed by running the
      extractor in Plan mode. A proposed batch is never empty and has one
      suggested mode; an immediate creation is never empty. */
  method ReactTo(message: string, selected: Option<ChatMode>, mode: Mode, hostHasTasks: bool, hasCreateSink: bool)
    returns (reaction: Reaction)
    ensures reaction == ReplyReaction(message, selected, mode, hostHasTasks, hasCreateSink)
    ensures reaction.Propose? ==> reaction.batch != [] && UniformBatch(reaction.batch)
    ensures reaction.AutoCreate? ==> reaction.created != []
  {
    if selected == Some(Plan) {
      var parsed := ParseTasksFromMessage(message, mode, You);
      reaction := PlanReaction(parsed, message, mode, hostHasTasks, hasCreateSink);
      ReactionKeepsEveryDraft(parsed, message, mode, hostHasTasks, hasCreateSink);
    } else {
      reaction := ReplyReaction(message, selected, mode, hostHasTasks, hasCreateSink);
    }
  }

  class PlanChat {
    /** Whether the host passes `onCreateTasks` and `onSwitchMode`. */
    var hasCreateSink: bool
    var hasSwitchSink: bool
    /** The host's `currentMode` and whether its `tasks` prop is non-empty. */
    var appMode: Mode
    var hostHasTasks: bool
    /** `selectedMode`, the transcript and `pendingTasksToCreate` (lines 308, 311-312). */
    var selected: Option<ChatMode>
    var messages: seq<Turn>
    var pending: Option<seq<PendingTask>>
    /** The arguments of every `onCreateTasks` and `onSwitchMode` call so far. */
    var createCalls: seq<seq<CreatedTask>>
    var switchCalls: seq<Suggestion>
    /** The callbacks scheduled and not yet run. */
    var timers: seq<Continuation>
    /** How many deferred commits have run. */
    ghost var committedSwitches: nat

    /** A pending batch is never empty and has one suggested mode; nothing
        empty is ever created; every mode switch is followed by exactly one
        commit, already run or still queued. */
    ghost predicate Valid()
      reads this
    {
      && (pending.Some? ==> pending.value != [] && UniformBatch(pending.value))
      && (forall i :: 0 <= i < |createCalls| ==> createCalls[i] != [])
      && (forall k :: 0 <= k < |timers| && timers[k].CommitSwitched? ==> timers[k].batch != [])
      && |switchCalls| == committedSwitches + PendingCommits(timers)
    }

    /** The component as first rendered: the mode picker is showing and nothing is said. */
    constructor(hasCreateSink: bool, hasSwitchSink: bool, appMode: Mode, hostHasTasks: bool)
      ensures Valid()
      ensures this.hasCreateSink == hasCreateSink && this.hasSwitchSink == hasSwitchSink
      ensures this.appMode == appMode && this.hostHasTasks == hostHasTasks
      ensures selected == None && messages == [] && pending == None
      ensures createCalls == [] && switchCalls == [] && timers == []
    {
      this.hasCreateSink := hasCreateSink;
      this.hasSwitchSink := hasSwitchSink;
      this.appMode := appMode;
      this.hostHasTasks := hostHasTasks;
      selected := None;
      messages := [];
      pending := None;
      createCalls := [];
      switchCalls := [];
      timers := [];
      committedSwitches := 0;
    }

    /** The host re-renders with other props. */
    method SetHostProps(mode: Mode, hasTasks: bool, createSink: bool, switchSink: bool)
      requires Valid()
      modifies this
      ensures Valid()
      ensures appMode == mode && hostHasTasks == hasTasks
      ensures hasCreateSink == createSink && hasSwitchSink == switchSink
      ensures selected == old(selected) && messages == old(messages) && pending == old(pending)
      ensures createCalls == old(createCalls) && switchCalls == old(switchCalls) && timers == old(timers)
    {
      appMode := mode;
      hostHasTasks := hasTasks;
      hasCreateSink := createSink;
      hasSwitchSink := switchSink;
    }

    /** Lines 315-327: picking a chat mode starts a transcript with its greeting;
        a pending batch is kept. */
    method SelectMode(mode: ChatMode)
      requires Valid()
      modifies this
      ensures Valid()
      ensures selected == Some(mode)
      ensures messages == [BotTurn(Greeting(mode, mode == Plan && appMode == Team))]
      ensures appMode == old(appMode) && hostHasTasks == old(hostHasTasks)
      ensures hasCreateSink == old(hasCreateSink) && hasSwitchSink == old(hasSwitchSink) && pending == old(pending)
      ensures createCalls == old(createCalls) && switchCalls == old(switchCalls) && timers == old(timers)
    {
      selected := Some(mode);
      messages := [BotTurn(Greeting(mode, mode == Plan && appMode == Team))];
    }

    /** Lines 402-413 and 525-527: a blank message with no attachment is
        ignored; otherwise the user's turn is shown and the reply is scheduled
        with the message, mode and props of this moment. */
    method Send(message: string, attachedCount: nat)
      requires Valid()
      modifies this
      ensures Valid()
      ensures Trim(message) == [] && attachedCount == 0 ==>
                messages == old(messages) && timers == old(timers)
      ensures !(Trim(message) == [] && attachedCount == 0) ==>
                && messages == old(messages) + [UserTurn(UserText(message, attachedCount))]
                && timers == old(timers) + [ReplyTo(message, selected, appMode, hostHasTasks, hasCreateSink)]
      ensures appMode == old(appMode) && hostHasTasks == old(hostHasTasks)
      ensures hasCreateSink == old(hasCreateSink) && hasSwitchSink == old(hasSwitchSink)
      ensures selected == old(selected) && pending == old(pending)
      ensures createCalls == old(createCalls) && switchCalls == old(switchCalls)
    {
      if !(Trim(message) == [] && attachedCount == 0) {
        PostMessage(message, attachedCount);
      }
    }

    /** Lines 405-413: the user's turn is shown and the reply is scheduled. */
    method PostMessage(message: string, attachedCount: nat)
      requires Valid()
      modifies this
      ensures Valid()
      ensures messages == old(messages) + [UserTurn(UserText(message, attachedCount))]
      ensures timers == old(timers) + [ReplyTo(message, selected, appMode, hostHasTasks, hasCreateSink)]
      ensures appMode == old(appMode) && hostHasTasks == old(hostHasTasks)
      ensures hasCreateSink == old(hasCreateSink) && hasSwitchSink == old(hasSwitchSink)
      ensures selected == old(selected) && pending == old(pending)
      ensures createCalls == old(createCalls) && switchCalls == old(switchCalls)
    {
      var messageText := message;
      if attachedCount > 0 {
        messageText := messageText + AttachmentNote(attachedCount);
      }
      messages := messages + [UserTurn(messageText)];
      var reply := ReplyTo(message, selected, appMode, hostHasTasks, hasCreateSink);
      PendingCommitsAppend(timers, [reply]);
      timers := timers + [reply];
    }

    /** Lines 346-399: confirm or cancel the pending batch. A confirmed batch
        is created at once, or, when a switch is asked for and applies, the
        host is asked to switch and the creation is deferred with its own copy
        of the batch. Anything else is a cancellation. The batch is dropped in
        every case. */
    method Confirm(confirmed: bool, switchMode: bool)
      requires Valid()
      modifies this
      ensures Valid()
      ensures pending == None
      ensures var commits := confirmed && old(pending).Some? && hasCreateSink;
              var switches := commits && switchMode && hasSwitchSink && SwitchApplies(old(pending).value, appMode);
              && (!commits ==>
                    && messages == old(messages) + [BotTurn(Cancelled)]
                    && createCalls == old(createCalls) && switchCalls == old(switchCalls) && timers == old(timers))
              && (switches ==>
                    var batch := old(pending).value;
                    var target := batch[0].suggestedMode.value;
                    && switchCalls == old(switchCalls) + [target]
                    && messages == old(messages) + [BotTurn(Switching(Label(target)))]
                    && timers == old(timers) + [CommitSwitched(batch, target)]
                    && createCalls == old(createCalls))
              && (commits && !switches ==>
                    var batch := old(pending).value;
                    && createCalls == old(createCalls) + [WithImages(batch)]
                    && messages == old(messages) + [BotTurn(CreatedHere(|batch|, appMode))]
                    && switchCalls == old(switchCalls) && timers == old(timers))
      ensures appMode == old(appMode) && hostHasTasks == old(hostHasTasks)
      ensures hasCreateSink == old(hasCreateSink) && hasSwitchSink == old(hasSwitchSink) && selected == old(selected)
    {
      if confirmed && pending.Some? && hasCreateSink {
        var batch := pending.value;
        var suggestedMode := batch[0].suggestedMode;
        if switchMode && suggestedMode.Some? && hasSwitchSink && DiffersFromMode(suggestedMode.value, appMode) {
          switchCalls := switchCalls + [suggestedMode.value];
          messages := messages + [BotTurn(Switching(Label(suggestedMode.value)))];
          PendingCommitsAppend(timers, [CommitSwitched(batch, suggestedMode.value)]);
          timers := timers + [CommitSwitched(batch, suggestedMode.value)];
        } else {
          var tasksWithImages := WithImages(batch);
          createCalls := createCalls + [tasksWithImages];
          messages := messages + [BotTurn(CreatedHere(|tasksWithImages|, appMode))];
        }
      } else {
        messages := messages + [BotTurn(Cancelled)];
      }
      pending := None;
    }

    /** Lines 675-680: back to the mode picker; the transcript and the batch
        are dropped, callbacks already scheduled still run. */
    method Reset()
      requires Valid()
      modifies this
      ensures Valid()
      ensures selected == None && messages == [] && pending == None
      ensures appMode == old(appMode) && hostHasTasks == old(hostHasTasks)
      ensures hasCreateSink == old(hasCreateSink) && hasSwitchSink == old(hasSwitchSink)
      ensures createCalls == old(createCalls) && switchCalls == old(switchCalls) && timers == old(timers)
    {
      selected := None;
      messages := [];
      pending := None;
    }

    /** Run the `k`-th scheduled callback. A reply answers in the transcript
        and, in Plan mode, may store a batch or create tasks; a deferred commit
        creates the batch it captured and reports it in the mode it switched to. */
    method Fire(k: nat)
      requires Valid()
      requires k < |timers|
      modifies this
      ensures Valid()
      ensures timers == old(timers[..k] + timers[k + 1..])
      ensures old(timers[k]).ReplyTo? ==>
                var c := old(timers[k]);
                var reaction := ReplyReaction(c.message, c.selected, c.mode, c.hostHasTasks, c.hasCreateSink);
                && messages == old(messages) + [BotTurn(reaction.turn)]
                && pending == (if reaction.Propose? then Some(reaction.batch) else old(pending))
                && createCalls == old(createCalls) + (if reaction.AutoCreate? then [reaction.created] else [])
      ensures old(timers[k]).CommitSwitched? ==>
                var c := old(timers[k]);
                && createCalls == old(createCalls) + [WithImages(c.batch)]
                && messages == old(messages) + [BotTurn(CreatedAfterSwitch(|c.batch|, Label(c.target)))]
                && pending == old(pending)
      ensures switchCalls == old(switchCalls)
      ensures appMode == old(appMode) && hostHasTasks == old(hostHasTasks)
      ensures hasCreateSink == old(hasCreateSink) && hasSwitchSink == old(hasSwitchSink) && selected == old(selected)
    {
      if timers[k].CommitSwitched? {
        RunCommit(k);
      } else {
        var c := timers[k];
        var reaction := ReactTo(c.message, c.selected, c.mode, c.hostHasTasks, c.hasCreateSink);
        RunReply(k, reaction);
      }
    }

    /** Lines 361-374: the deferred commit after a mode switch. */
    method RunCommit(k: nat)
      requires Valid()
      requires k < |timers| && timers[k].CommitSwitched?
      modifies this
      ensures Valid()
      ensures timers == old(timers[..k] + timers[k + 1..])
      ensures var c := old(timers[k]);
              && createCalls == old(createCalls) + [WithImages(c.batch)]
              && messages == old(messages) + [BotTurn(CreatedAfterSwitch(|c.batch|, Label(c.target)))]
      ensures pending == old(pending) && switchCalls == old(switchCalls)
      ensures appMode == old(appMode) && hostHasTasks == old(hostHasTasks)
      ensures hasCreateSink == old(hasCreateSink) && hasSwitchSink == old(hasSwitchSink) && selected == old(selected)
    {
      var c := timers[k];
      PendingCommitsRemove(timers, k);
      timers := timers[..k] + timers[k + 1..];
      var tasksWithImages := WithImages(c.batch);
      createCalls := createCalls + [tasksWithImages];
      messages := messages + [BotTurn(CreatedAfterSwitch(|tasksWithImages|, Label(c.target)))];
      committedSwitches := committedSwitches + 1;
    }

    /** Lines 414-527: the reply callback takes itself off the queue and
        carries out `reaction`. */
    method RunReply(k: nat, reaction: Reaction)
      requires Valid()
      requires k < |timers| && timers[k].ReplyTo?
      requires reaction.Propose? ==> reaction.batch != [] && UniformBatch(reaction.batch)
      requires reaction.AutoCreate? ==> reaction.created != []
      modifies this
      ensures Valid()
      ensures timers == old(timers[..k] + timers[k + 1..])
      ensures messages == old(messages) + [BotTurn(reaction.turn)]
      ensures pending == (if reaction.Propose? then Some(reaction.batch) else old(pending))
      ensures createCalls == old(createCalls) + (if reaction.AutoCreate? then [reaction.created] else [])
      ensures switchCalls == old(switchCalls)
      ensures appMode == old(appMode) && hostHasTasks == old(hostHasTasks)
      ensures hasCreateSink == old(hasCreateSink) && hasSwitchSink == old(hasSwitchSink) && selected == old(selected)
    {
      PendingCommitsRemove(timers, k);
      timers := timers[..k] + timers[k + 1..];
      match reaction
      case Propose(batch, turn) =>
        pending := Some(batch);
        messages := messages + [BotTurn(turn)];
      case AutoCreate(created, turn) =>
        createCalls := createCalls + [created];
        messages := messages + [BotTurn(turn)];
      case Say(turn) =>
        messages := messages + [BotTurn(turn)];
    }

    /** Confirm with a switch and let the deferred commit run: the host is
        asked once to switch and then gets exactly the batch that was pending,
        with images, although the batch was dropped at confirmation. */
    method ConfirmSwitchThenSettle()
      requires Valid()
      requires pending.Some? && hasCreateSink && hasSwitchSink && SwitchApplies(pending.value, appMode)
      modifies this
      ensures Valid()
      ensures var batch := old(pending).value;
              && pending == None
              && switchCalls == old(switchCalls) + [batch[0].suggestedMode.value]
              && createCalls == old(createCalls) + [WithImages(batch)]
              && timers == old(timers)
              && messages == old(messages) + [BotTurn(Switching(Label(batch[0].suggestedMode.value))),
                                              BotTurn(CreatedAfterSwitch(|batch|, Label(batch[0].suggestedMode.value)))]
    {
      Confirm(true, true);
      var last := |timers| - 1;
      Fire(last);
    }
  }
}
