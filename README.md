# Plan-mode task extraction and confirmation, modelled in Dafny

The `EnhancedAIChatButton` React component (client/src/components/EnhancedAIChatButton.tsx) is a chat widget
with four personas. This project models its Plan persona:

- **Task extraction** (`parseTasksFromMessage`). Three regular-expression passes turn a free-text
  message into task drafts, each with a title, description, category, assignee and status:
  - "Alice has completed the API": attributed to a named person.
  - "I have finished the report": the author's own task.
  - "I need to ...", "should", "must", ...: the fallback pass, used only when the first two passes
    found nothing.
  The drafts are split into a solo bucket and a team bucket. The extractor also suggests a mode
  (`solo`, `team`, `both` or none) and decides whether the user must confirm before anything is
  created.
- **Stock-photo query** (`getTaskImageQuery`). The first keyword rule that a task title matches
  picks the search phrase.
- **Reply timer** (the Plan branch of `handleSend`). It asks for confirmation and stores the batch,
  creates the tasks at once through the host's `onCreateTasks`, or only answers.
- **Confirm and cancel** (`confirmTaskCreation`). It creates the stored batch, or asks the host to
  switch mode through `onSwitchMode` and creates the batch in a deferred callback, or cancels.
- **Component state**: the transcript, the pending batch, the selected persona, and the reset
  button.

Modules:

- `Text`: JavaScript string operations on `seq<char>`: trim, ASCII case mapping, `includes`,
  capitalisation.
- `Patterns`: the five regular expressions, with their backtracking semantics written out.
  `exec` is the leftmost match; the global `exec` loop and `matchAll` are the successive
  non-overlapping matches.
- `Drafts`: from one match to one draft, plus the pass-level specification functions.
- `Extraction`:
  - `Parse`, the whole extractor as a function.
  - `ParseTasksFromMessage`, the same computation as the source's loops, proved equal to `Parse`.
  - The lemmas about `Parse`.
- `ImageQuery`: the `if` chain, and the same choice as a rule table.
- `PlanReply`: what the reply timer does with a parse result, as a value; also the as-written
  variant (see Findings).
- `Scenario`: the message "I need to water the plants" followed through the extractor and the
  Plan reply, as written and corrected.
- `Dialogue`: the class `PlanChat`. It holds the component's state and the host-callback logs.
  Its reply callback runs the corrected Plan reply of the Findings row (`PlanReply.PlanReaction`,
  which reads `allParsedTasks`), not the as-written one that throws whenever drafts are found.
  Each of the two `setTimeout` callbacks is queued as a continuation that captures its closure's
  values, and any queued callback can run next (`Fire`).

## Model

| member | source | states |
|---|---|---|
| Text.Trim | client/src/components/EnhancedAIChatButton.tsx:160-161 | the trimmed text is the input with its leading and trailing white space removed: a slice of the input before which and after which there is only white space, which neither starts nor ends with white space, and which is empty exactly when the input is all white space |
| Text.LowerStr | client/src/components/EnhancedAIChatButton.tsx:111 | lower-casing keeps the length and maps every character on its own, upper-case ASCII to lower-case and everything else unchanged |
| Text.LowerStrIdempotent | client/src/components/EnhancedAIChatButton.tsx:111 | lower-casing lower-cased text changes nothing |
| Text.Capitalize | client/src/components/EnhancedAIChatButton.tsx:185 | `charAt(0).toUpperCase() + slice(1)` keeps the length, upper-cases the first character and leaves the rest as it was |
| Text.NatToString | client/src/components/EnhancedAIChatButton.tsx:407 | a count is rendered as decimal digits whose value is the count, with no leading zero |
| Patterns.FirstKeyword | client/src/components/EnhancedAIChatButton.tsx:151 | an alternation group matches at a position exactly when one of its alternatives does, and then ends where that alternative ends |
| Patterns.KeywordListsArePrefixFree | client/src/components/EnhancedAIChatButton.tsx:151-154 | in every keyword group (auxiliaries, progress phrases, fallback cues, leading verbs), no alternative is a prefix of another, so at most one can match at a position and first-match agrees with backtracking |
| Patterns.Tail | client/src/components/EnhancedAIChatButton.tsx:253 | `\s+([^,.;]+)` after position q: there is no match exactly when no white space follows q, or exactly one white-space character followed by a stop or the end; otherwise the capture starts after the white-space run, or on its last character when a stop or the end follows the run (backtracking), contains no `,` `.` `;`, and runs up to the next stop or the end |
| Patterns.PersonAt | client/src/components/EnhancedAIChatButton.tsx:151 | an attributed match starts at the tried position, lies inside the text and always captures a name |
| Patterns.SelfAt | client/src/components/EnhancedAIChatButton.tsx:154 | a first-person match starts at the tried position and lies inside the text |
| Patterns.FallbackAt | client/src/components/EnhancedAIChatButton.tsx:253 | a fallback match starts at the tried position and lies inside the text |
| Patterns.FallbackAtMeaning | client/src/components/EnhancedAIChatButton.tsx:253 | when a cue occurs at p, the fallback pattern matches at p exactly when a tail follows the cue, and the match runs from p to the tail's end and captures exactly the tail |
| Patterns.FallbackAtNeedsCue | client/src/components/EnhancedAIChatButton.tsx:253 | a fallback match at p needs one of the cues `need to`, `have to`, `should`, `must`, `want to`, `going to` at p |
| Patterns.FirstKeywordIsTheMatch | client/src/components/EnhancedAIChatButton.tsx:151-154 | in a prefix-free group, whichever alternative occurs at a position is the one the group matches there |
| Patterns.PersonNeedsAuxiliary | client/src/components/EnhancedAIChatButton.tsx:151 | an attributed match needs `is`, `has`, `have` or `are` somewhere after its start |
| Patterns.SelfNeedsAuxiliary | client/src/components/EnhancedAIChatButton.tsx:154 | a first-person match needs `have`, `has` or `am` somewhere after its start |
| Patterns.ParenNameAt | client/src/components/EnhancedAIChatButton.tsx:128 | `i (Name)` captures a non-empty name between the parentheses |
| Patterns.LeadingNameAt | client/src/components/EnhancedAIChatButton.tsx:128 | the case-sensitive leading-name pattern matches only at position 0, on a message starting with an upper-case letter, and captures a name |
| Patterns.MatchAt | client/src/components/EnhancedAIChatButton.tsx:151-154 | whichever pattern matches does so at the tried position, within the text, with a name when the pattern has a name group |
| Patterns.Exec | client/src/components/EnhancedAIChatButton.tsx:159 | `exec` from `lastIndex` returns the leftmost match at or after it: a match at the returned index, and none at any earlier position |
| Patterns.Scan | client/src/components/EnhancedAIChatButton.tsx:257 | the matches of a global pattern are in text order, do not overlap, each is the match at its own index, and there are none exactly when the first `exec` finds none |
| Patterns.ScanStep | client/src/components/EnhancedAIChatButton.tsx:159 | one more `exec` peels the first match off the scan, and the rest of the scan resumes at that match's end |
| Drafts.MakeTitle | client/src/components/EnhancedAIChatButton.tsx:185-188 | the title has at most 60 characters; a phrase of up to 60 keeps its length, a longer one is cut to 57 characters plus `...`; the first character is upper-cased and the others are the phrase's |
| Drafts.ContextWindow | client/src/components/EnhancedAIChatButton.tsx:165 | the status window is the message from `max(0, index - radius)` up to the match end plus the radius, clamped to the message: every character is the message's at that offset; it contains the whole match at its offset, is at most the match plus twice the radius long, and has exactly that length when the match lies at least the radius away from both ends |
| Drafts.PersonStatus | client/src/components/EnhancedAIChatButton.tsx:164-172 | an attributed draft is never pending; it is completed exactly when `completed`, `done with` or `finished` occurs within 50 characters of the match |
| Drafts.SelfStatus | client/src/components/EnhancedAIChatButton.tsx:212-219 | a first-person draft is never pending; it is completed exactly when `completed` or `done` occurs within 30 characters of the match |
| Drafts.DetectedUserName | client/src/components/EnhancedAIChatButton.tsx:128-129 | the trimmed name in `i (Name)` wins, then the trimmed name of a leading `Name has`; the default `You` applies exactly when neither name pattern matches |
| Drafts.IsTeamTask | client/src/components/EnhancedAIChatButton.tsx:135-140 | a message is about the team exactly when its lower-cased text contains one of `team`, `assign to`, `distribute`, `split among`, `divide between` or a lower-cased roster name |
| Drafts.IsSoloTask | client/src/components/EnhancedAIChatButton.tsx:143-148 | a message is about its author exactly when its lower-cased text contains one of `i `, `i'`, `my task`, `my deadline`, `help me`, `remind me` |
| Drafts.CategoryOf | client/src/components/EnhancedAIChatButton.tsx:175-183 | a phrase is Business exactly when its lower-cased text contains one of the pass's business words |
| Drafts.IsCurrentUser | client/src/components/EnhancedAIChatButton.tsx:199-201 | a captured name is the current user's exactly when it equals the `currentUser` argument, or lower-cased it is `lahar` or the lower-cased detected name |
| Drafts.SignalsIgnoreCase | client/src/components/EnhancedAIChatButton.tsx:135-148 | the team cue, the solo cue and the category read a message the same whatever its letter case |
| Drafts.CategoryDependsOnPass | client/src/components/EnhancedAIChatButton.tsx:221-223 | each pass has its own business words: `design` is Business for a first-person draft but Personal for an attributed or a fallback draft |
| Drafts.LaharIsAlwaysTheUser | client/src/components/EnhancedAIChatButton.tsx:200 | a match attributed to `Lahar` always goes to the solo bucket, whoever the current user is |
| Drafts.RoutePerson | client/src/components/EnhancedAIChatButton.tsx:160-205 | an attributed match goes to the solo bucket, reassigned to `You`, exactly when its name is the current user's; otherwise it goes to the team bucket under the trimmed name; in both buckets the description is `name: phrase` with the trimmed name and phrase; the title and status come from the match; the draft is Business exactly when the lower-cased task contains one of the nine attributed-pass business words |
| Drafts.SelfDraft | client/src/components/EnhancedAIChatButton.tsx:210-236 | a first-person draft is always assigned to `You`, is never pending, carries the trimmed phrase in its title and description, and is Business exactly when the lower-cased phrase contains `ui`, `front end` or `design` |
| Drafts.FallbackDraft | client/src/components/EnhancedAIChatButton.tsx:265-293 | a fallback draft is pending and described as `AI-created task: ` followed by the phrase; in the solo bucket it is assigned to `You`, in the team bucket to the roster member at its index modulo 4; it is Business exactly when the lower-cased phrase contains `meeting`, `presentation`, `report`, `database` or `api` |
| Drafts.PersonSolo | client/src/components/EnhancedAIChatButton.tsx:159-206 | the solo drafts of an attributed scan number at most the matches, are all assigned to `You`, carry a progress status and a bounded title |
| Drafts.PersonTeam | client/src/components/EnhancedAIChatButton.tsx:159-206 | the team drafts of an attributed scan number at most the matches, each under a name that is not the current user's, with a progress status and a bounded title |
| Drafts.SelfDrafts | client/src/components/EnhancedAIChatButton.tsx:209-237 | every first-person match yields one draft assigned to `You`, in progress or completed, with a bounded title |
| Drafts.FallbackPhrases | client/src/components/EnhancedAIChatButton.tsx:256-263 | the kept fallback phrases are trimmed and longer than three characters, and there are at most as many as matches |
| Drafts.FallbackDrafts | client/src/components/EnhancedAIChatButton.tsx:265-294 | one draft per kept phrase, in order, the `i`-th built from the `i`-th phrase and index |
| Drafts.AttributedStep | client/src/components/EnhancedAIChatButton.tsx:159-206 | one turn of the attributed `exec` loop adds the draft of the match it finds to exactly one bucket, and the loop resumes at that match's end |
| Drafts.SelfStep | client/src/components/EnhancedAIChatButton.tsx:209-237 | one turn of the first-person `exec` loop adds the draft of the match it finds, and the loop resumes at that match's end |
| Drafts.FallbackStep | client/src/components/EnhancedAIChatButton.tsx:257-262 | one turn over `matchAll` keeps the match's trimmed phrase exactly when it is longer than three characters |
| Drafts.NoRosterMemberIsYou | client/src/components/EnhancedAIChatButton.tsx:132 | no roster name is `You`, so a fallback team draft never lands on the current user |
| Extraction.SuggestedMode | client/src/components/EnhancedAIChatButton.tsx:240-247 | `both` exactly when both buckets are non-empty, `team` or `solo` exactly when only that bucket is, and none exactly when both are empty |
| Extraction.NeedsConfirmation | client/src/components/EnhancedAIChatButton.tsx:298-301 | no confirmation is needed exactly when there are at most five drafts, the suggestion is not `both`, and the other mode's bucket is empty |
| Extraction.Parse | client/src/components/EnhancedAIChatButton.tsx:91-304 | the result's confirmation flag and suggested mode agree with its two buckets, a result without a suggestion has at most one non-empty bucket, and the solo and team cues are those of the message |
| Extraction.AttributedPass | client/src/components/EnhancedAIChatButton.tsx:159-206 | the `exec` loop fills the solo and team buckets with exactly the attributed drafts of the whole message, in order |
| Extraction.SelfPass | client/src/components/EnhancedAIChatButton.tsx:209-237 | the first-person `exec` loop yields exactly the first-person drafts of the whole message, in order |
| Extraction.CollectFallbackPhrases | client/src/components/EnhancedAIChatButton.tsx:251-263 | the `matchAll` loop collects exactly the kept fallback phrases of the whole message, in order |
| Extraction.DraftFallbackPhrases | client/src/components/EnhancedAIChatButton.tsx:265-294 | all fallback drafts go to the solo bucket when the message has a solo cue and to the team bucket otherwise |
| Extraction.ParseTasksFromMessage | client/src/components/EnhancedAIChatButton.tsx:91-304 | the extractor as the source computes it returns exactly `Parse`, about which the lemmas below are proved |
| Extraction.AttributedPartition | client/src/components/EnhancedAIChatButton.tsx:198-205 | every attributed match yields exactly one draft, in one of the two buckets |
| Extraction.SuggestionComesFromPrimaryPasses | client/src/components/EnhancedAIChatButton.tsx:240-250 | a mode is suggested exactly when a primary pass found something, and then the buckets are those passes' drafts; otherwise the drafts are the fallback drafts |
| Extraction.StatusRevealsThePass | client/src/components/EnhancedAIChatButton.tsx:164-293 | with a suggested mode every draft is in progress or completed; without one every draft is pending |
| Extraction.PrimaryDraftsInProgress | client/src/components/EnhancedAIChatButton.tsx:164-219 | no draft of the two primary passes is pending |
| Extraction.FallbackRouting | client/src/components/EnhancedAIChatButton.tsx:277-293 | fallback drafts fill one bucket only, the solo one for a solo cue; team fallback drafts rotate through the first four roster members |
| Extraction.DraftsAreWellFormed | client/src/components/EnhancedAIChatButton.tsx:185-236 | every title has at most 60 characters, every solo draft is assigned to `You`, and no attributed team draft is the current user's |
| Extraction.AutoCreationStaysInMode | client/src/components/EnhancedAIChatButton.tsx:298-301 | drafts skip confirmation exactly when there are at most five, the suggestion is not `both`, and all are in the current mode's bucket |
| Extraction.TeamDraftsAreNeverYou | client/src/components/EnhancedAIChatButton.tsx:198-205 | with current user `You`, no team draft, attributed or fallback, is assigned to `You` |
| ImageQuery.FirstRuleFrom | client/src/components/EnhancedAIChatButton.tsx:72-87 | the chosen phrase is the default or the query of some rule at or after the starting one |
| ImageQuery.TaskImageQuery | client/src/components/EnhancedAIChatButton.tsx:69-88 | a title with a design keyword gets the design photo, and every title gets the default phrase or one rule's phrase; `ChainIsRuleTable` proves the whole chain equal to the rule table |
| ImageQuery.ChainIsRuleTable | client/src/components/EnhancedAIChatButton.tsx:69-88 | the `if` chain chooses what the rule table read top to bottom chooses |
| ImageQuery.FirstMatchingRuleWins | client/src/components/EnhancedAIChatButton.tsx:72-85 | a rule's query is chosen when one of its keywords occurs and no keyword of an earlier rule does |
| ImageQuery.DefaultIffNoRuleApplies | client/src/components/EnhancedAIChatButton.tsx:87 | when no rule's query is the default, the default is chosen exactly when no rule's keyword occurs |
| ImageQuery.DefaultQueryWhenNoKeyword | client/src/components/EnhancedAIChatButton.tsx:70-87 | a title gets `productivity task` exactly when it contains none of the keywords, ignoring case |
| ImageQuery.KeywordsMatchInsideWords | client/src/components/EnhancedAIChatButton.tsx:72 | keywords match inside words: "Build the API" gets the design photo because of the `ui` in "Build" |
| PlanReply.Label | client/src/components/EnhancedAIChatButton.tsx:355 | a suggestion reads as Solo exactly when it is `solo`, so `both` reads as Team |
| PlanReply.DiffersFromMode | client/src/components/EnhancedAIChatButton.tsx:352 | `both` always differs from the host's mode; `solo` and `team` differ exactly when their label is not the host's mode |
| PlanReply.Enrich | client/src/components/EnhancedAIChatButton.tsx:450-456 | the pending batch has one entry per draft, in order, each with the fixed schedule and the batch's suggested mode |
| PlanReply.Scheduled | client/src/components/EnhancedAIChatButton.tsx:469-475 | auto-created tasks are the drafts in order, with the fixed schedule and image and no suggested mode |
| PlanReply.WithImages | client/src/components/EnhancedAIChatButton.tsx:361-368 | adding the image keeps the batch's length and order, one created task per pending task |
| PlanReply.WithImagesRoundTrip | client/src/components/EnhancedAIChatButton.tsx:378-385 | every pending task can be read back unchanged from the task created from it, and every created task has the stock image |
| PlanReply.PromptFor | client/src/components/EnhancedAIChatButton.tsx:435-447 | each of the four confirmation questions is asked exactly when its condition holds and no earlier one does |
| PlanReply.AsksAboutWorkload | client/src/components/EnhancedAIChatButton.tsx:484 | a message that mentions `workload` asks about workload; one that mentions `team` asks about it and is a team message; any message that asks about workload is a team message or mentions `workload` |
| PlanReply.PlanReaction | client/src/components/EnhancedAIChatButton.tsx:425-510 | a batch is proposed exactly when there are drafts and confirmation is needed; tasks are created at once exactly when there are drafts, no confirmation is needed and the host can create; the workload analysis is given exactly when there are no drafts, the message asks about workload, the mode is Team and the host has tasks; the help text exactly when there are no drafts and the message does not ask about workload |
| PlanReply.ReplyReaction | client/src/components/EnhancedAIChatButton.tsx:416-523 | only the Plan persona proposes or creates anything; the other personas get their canned reply, and with no persona selected the reply is the default one |
| PlanReply.PlanReactionAsWritten | client/src/components/EnhancedAIChatButton.tsx:437-481 | as written, the Plan reply throws exactly when drafts are found; otherwise it answers with the workload or help text |
| PlanReply.ReactionKeepsEveryDraft | client/src/components/EnhancedAIChatButton.tsx:425-482 | a message with drafts either stores all of them, in order, and shows a confirmation prompt listing them (when confirmation is needed), or creates all of them at once (when the host can create), or lists them; no draft is lost |
| PlanReply.SoloAutoCreationIsOwnTasks | client/src/components/EnhancedAIChatButton.tsx:466-479 | in Solo mode, tasks are created without asking only when there are one to five, all assigned to `You` |
| PlanReply.TeamAutoCreationIsTeamTasks | client/src/components/EnhancedAIChatButton.tsx:466-479 | in Team mode, tasks are created without asking only when there are one to five, none assigned to `You` |
| PlanReply.FallbackBatchOffersNoSwitch | client/src/components/EnhancedAIChatButton.tsx:449-456 | a proposed batch has no suggested mode, so no switch button is shown, exactly when all its drafts are pending, i.e. came from the fallback pass |
| Dialogue.PendingCommitsRemove | client/src/components/EnhancedAIChatButton.tsx:360 | running a queued callback removes its deferred commit from the count, if it is one, and no other |
| Dialogue.UserText | client/src/components/EnhancedAIChatButton.tsx:405-408 | the user's turn is the message itself, or the message followed by a note when files are attached |
| Dialogue.SwitchApplies | client/src/components/EnhancedAIChatButton.tsx:352 | the switch buttons apply only to a batch with a suggested mode; `both` always applies, `solo` and `team` exactly when their label differs from the host's mode |
| Dialogue.ReactTo | client/src/components/EnhancedAIChatButton.tsx:413-523 | the reply callback's decision is the corrected reaction `ReplyReaction` (see Findings; as written the callback throws whenever drafts are found); a stored batch is non-empty with one suggested mode; an immediate creation is non-empty |
| Dialogue.PlanChat.constructor | client/src/components/EnhancedAIChatButton.tsx:306-313 | the component starts with no persona, an empty transcript, no pending batch and no host calls |
| Dialogue.PlanChat.SetHostProps | client/src/components/EnhancedAIChatButton.tsx:306 | new props change only the host's mode, task flag and the presence of the two callbacks; replies already queued keep the `onCreateTasks` they captured |
| Dialogue.PlanChat.SelectMode | client/src/components/EnhancedAIChatButton.tsx:316-327 | picking a persona starts the transcript with its greeting, the team greeting exactly for Plan in Team mode; a pending batch is kept |
| Dialogue.PlanChat.Send | client/src/components/EnhancedAIChatButton.tsx:402-413 | a blank message without attachments changes nothing; otherwise the user's turn is appended and exactly one reply is queued, capturing the message, persona, props and `onCreateTasks` of that moment |
| Dialogue.PlanChat.PostMessage | client/src/components/EnhancedAIChatButton.tsx:405-413 | the user's turn, with the attachment note when files are attached, is appended, and one reply is queued with the message, persona, props and `onCreateTasks` of that moment; nothing else changes |
| Dialogue.PlanChat.Confirm | client/src/components/EnhancedAIChatButton.tsx:346-400 | the pending batch is always dropped. A confirmed batch is either created at once with images, or, when a switch is asked for and applies, the host is asked once to switch and the creation is queued with the batch's own copy. Anything else is a cancellation that calls no host callback |
| Dialogue.PlanChat.Reset | client/src/components/EnhancedAIChatButton.tsx:675-680 | the reset button returns to the persona picker with an empty transcript and no pending batch; queued callbacks survive |
| Dialogue.PlanChat.Fire | client/src/components/EnhancedAIChatButton.tsx:360-375 | running a queued reply applies the corrected reaction to the message and the `onCreateTasks` it captured; running a deferred commit creates exactly the captured batch and reports it in the target mode; no mode switch is requested |
| Dialogue.PlanChat.RunCommit | client/src/components/EnhancedAIChatButton.tsx:360-375 | the deferred commit calls `onCreateTasks` with the captured batch plus images and reports the count in the switched-to mode |
| Dialogue.PlanChat.RunReply | client/src/components/EnhancedAIChatButton.tsx:413-527 | a reply appends its bot turn, stores a proposed batch, or logs one creation call, and touches nothing else |
| Dialogue.PlanChat.ConfirmSwitchThenSettle | client/src/components/EnhancedAIChatButton.tsx:352-375 | confirming with a switch, then letting the deferred commit run, requests exactly one switch and creates exactly the batch that was pending, although that batch was dropped at confirmation |
| Scenario.PlantsParse | client/src/components/EnhancedAIChatButton.tsx:91-304 | for "I need to water the plants" in Solo mode the extractor returns one solo draft, the fallback draft of `water the plants`, no team draft, no suggested mode and no confirmation |
| Scenario.PrimaryPassesEmpty | client/src/components/EnhancedAIChatButton.tsx:151-237 | neither primary pattern matches that message, as it contains no auxiliary |
| Scenario.FallbackScan | client/src/components/EnhancedAIChatButton.tsx:253-257 | the fallback pattern matches that message once, from `need to` to its end |
| Scenario.PlantsScenario | client/src/components/EnhancedAIChatButton.tsx:265-284 | that draft is titled `Water the plants`, Personal, pending and assigned to `You` |
| Scenario.PlantsThrowAsWritten | client/src/components/EnhancedAIChatButton.tsx:437-481 | for that message the Plan reply as written throws, while the corrected reply creates the one task at once |
| Scenario.SingleDraftThrows | client/src/components/EnhancedAIChatButton.tsx:437-481 | any single draft that needs no confirmation makes the reply as written throw and the corrected reply create it |

Every `PlanChat` method also keeps the class invariant `Valid`:

- A pending batch is non-empty and has one suggested mode.
- No creation call is empty.
- Every mode-switch call is matched by exactly one deferred commit, either already run or still
  queued.

## Left out

- The JSX rendering, animations, the floating button, the file picker (`handleFileUpload`,
  `removeFile`) and the input box are left out. The model keeps only what the state and the host
  callbacks see: the attachment count, and the condition under which the switch buttons are shown
  (line 712, `Dialogue.SwitchApplies`).
- Clearing the input box and the attachment list (`setMessage('')`, `setAttachedFiles([])`) is not
  modelled. The model has no input-box state.
- Timer durations (800 ms, 1000 ms) are not modelled. The callbacks are a queue, and any queued
  callback may run next.
- `await Promise.all` over synchronous mappers is treated as atomic.
- Bot turns are structured `Reply` values. The rendered wording, emoji, plural suffixes and the
  numbered task list in the text are not modelled; the replies carry the drafts they list.
- The greeting and canned texts of the Gamer, Coach and Mentor personas are not modelled. Only
  which one is shown is kept.
- The team workload analysis (lines 486-503) becomes the single reply `WorkloadAnalysis`. Its
  capacity figures use `Math.random`.
- Text.LowerStr: case mapping covers ASCII letters only. This is exactly the matching of the
  regular expressions' `i` flag, but it approximates `toLowerCase` and `toUpperCase` outside ASCII.
- Strings are sequences of Unicode scalar values, one `char` each, where JavaScript counts UTF-16
  code units: a character outside the Basic Multilingual Plane (an emoji, say) has length 1 in the
  model and 2 in the source. The lines below name the members whose results depend on that.
- Drafts.MakeTitle: the 60-character bound and the cut to 57 characters plus `...` count scalar
  values, not UTF-16 units. A phrase with characters outside the BMP may be cut in the source but
  not in the model, and the source's cut can split a surrogate pair, which the model cannot express.
- Drafts.ContextWindow: the radius of 50 or 30 counts scalar values, so next to characters outside
  the BMP the model's window reaches further than the source's.
- Drafts.PersonStatus: decided on the ±50 window, counted in scalar values, so the status can
  differ from the source's when characters outside the BMP lie near the match.
- Drafts.SelfStatus: decided on the ±30 window, counted in scalar values, with the same
  difference.
- Drafts.FallbackPhrases: the keep test "trimmed phrase longer than three characters" counts scalar
  values. "I need to 😀😀" has a phrase of length 4 in the source, which keeps it as one pending
  draft, but of length 2 in the model, which drops it. The difference reaches `FallbackFrom`,
  `Extraction.Parse` and `Extraction.ParseTasksFromMessage`, and through them the Plan reply, which
  then gives the help text.
- Dialogue.ReactTo: `PlanChat` runs the corrected Plan reply. As written, the callback throws
  whenever drafts are found, so no batch is ever stored and `confirmTaskCreation` always finds
  `pendingTasksToCreate` empty. That behaviour is stated by `PlanReply.PlanReactionAsWritten` and
  `Scenario.PlantsThrowAsWritten`, not by the class.
- ImageQuery.TaskImageQuery: `getTaskImageQuery` is never called inside the component. It is
  modelled on its own, and its properties are stated by the lemmas beside it.
- The server files and the rest of the client are not part of this model.
- Where the extractor is read literally:
  - The status window of an attributed match is 50 characters each side and may include text of
    neighbouring clauses. "Alice has completed X; Bob is working on Y" marks both drafts
    completed.
  - Each pass has its own business-keyword list.
  - The first-person pattern has no word boundary, so an `i` inside a word starts a match.
  - The phrase captured by a primary pass is not length-checked, so a title can be empty.

## Findings

| source | as written | input that shows it | evidently intended | confidence | as-written member | corrected member |
|---|---|---|---|---|---|---|
| client/src/components/EnhancedAIChatButton.tsx:437-481 | when the extractor returns drafts, every branch reads `parsedTasks`, which no scope declares, so the reply callback throws a `ReferenceError`. No prompt is shown, no batch is stored and nothing is created | "I need to water the plants" in Plan mode: the fallback pass yields the draft "Water the plants", and the callback throws before replying | use `allParsedTasks` (line 425), the drafts of both buckets | not executed | Scenario.PlantsThrowAsWritten | PlanReply.ReactionKeepsEveryDraft |
