# Notification pipeline: a model and its proofs

An alert delivery is classified against its stored row, one pure decision plans what happens to the
cards showing it, the store applies the plan in one transaction, and workers that own lanes of the
queue carry the effects out on Discord. This project models that pipeline as state machines and
proves what its comments promise over whole runs.

| file | what it holds |
|---|---|
| `Dispatch.dfy`, `Dispatcher.dfy`, `Pacing.dfy` | one card, its queue rows, its message and the worker of its lane, one await at a time; the worker as it is written; and how long a failed effect is left alone |
| `Seals.dfy`, `SealTraces.dfy` | the post of a card that resolved: archived, locked, and how it comes to stay open |
| `Controls.dfy`, `ControlTraces.dfy` | the controls under a card: when they are gone, and the runs that lose them or bring them back |
| `Decide.dfy`, `CardFacts.dfy`, `UpdateOrder.dfy` | the decision, what it does to one card, and the order in which its effects are reached |
| `Cards.dfy`, `CardStore.dfy`, `CardRuns.dfy`, `CardKeys.dfy`, `CardChains.dfy` | the notifications table and its invariants over runs |
| `NewCards.dfy`, `Acknowledgements.dfy`, `Resolutions.dfy` | cards created and posted, acknowledged, and dated when they resolve |
| `CardLimits.dfy`, `Replacements.dfy`, `Orphans.dfy` | where they end: decisions that conflict, cards replaced twice, cards whose message is gone |
| `MergedCards.dfy` | several alerts behind one card |
| `Outbox.dfy`, `Effects.dfy` | the queue: folding, claims, leases, lanes, conservation |
| `Alerts.dfy`, `Suppression.dfy`, `Flaps.dfy`, `Reconciler.dfy` | ingestion, what each arrival is reported as, flap counting, and the poll |
| `States.dfy`, `DedupeKeys.dfy`, `Identity.dfy`, `Labels.dfy`, `Hashing.dfy`, `Texts.dfy` | the state table, keys, identities and the bytes under them |
| `Routing.dfy`, `Storm.dfy`, `Explain.dfy` | the resolver, the storm counter, and the decision read backwards |
| `Matchers.dfy`, `PrintedLists.dfy`, `CustomIds.dfy`, `Rendering.dfy` | codecs and bounded text |

Code that computes is modelled by functions; loops and objects that change in place are methods and
classes proved equal to a specification function, and the properties are lemmas about that function.
Times are microseconds, as `int`. Regex compilation, the renderer's hash and route matchers are
parameters, so the results hold for every choice of them.

## Findings

Where a promise is false of the code, the code is modelled as it is, the exact condition is proved
where there is one, and a lemma exhibits the far side:

- Two resolved, unmuted routes that deliver one firing alert to one channel under one key lose every
  card for it: the whole decision conflicts, each time (`CardLimits.DecisionsConflictWhen`, exhibited
  by `CardLimits.TwoRoutesLoseTheCard`).
- On a storming route an outlived card is replaced under the digest key and keeps its own, so it is
  replaced again after the storm (`Replacements.PredecessorsRetireWhen`, exhibited by
  `Replacements.StormsReplaceTwice`); while the digest card is itself outlived, the insert conflicts.
- A matcher's printed form quotes nothing, so a list reads back from it exactly when each matcher alone
  would and each value but the last leaves no quote open (`PrintedLists.PrintedListReadsBackWhen`).
- A decision taken before its card was orphaned revives it exactly when it moves the card
  (`Orphans.StaleDecisionsReviveOrphans`); decided from the current table, an orphan stays one
  (`Orphans.OrphansStay`).
- A resolved card's post is archived by its route only until there is news: an update that leaves the card
  resolved opens the post to carry the edit and queues nothing to close it again
  (`Seals.DrainedPostsAreSealedWhen`, exhibited by `SealTraces.LateNewsLeavesThePostOpen`).
- An edit whose lease is lost before it is recorded, followed by a revert, drains to a stale post
  (`Dispatch.LostLeaseLeavesThePostStale`).
- A live card can drain without its controls, in exactly two ways (`Controls.LiveControlsAreGoneWhen`):
  the strip ran after the card was back (`ControlTraces.LateStripHitsALiveCard`), or it ran on time and
  the redraw was skipped on an equal hash, because the hash does not cover a strip. The second happens
  to a card that several alerts share by group or digest: one resolves, and another, unchanged, brings
  the card back (`ControlTraces.SkippedEditKeepsTheStrip`). An alert that itself fires again is drawn
  with another flap count, so its card is redrawn and keeps its controls, unless the count stays as it
  was (`ControlTraces.RefiresBringTheControlsBack`, `Flaps.RefiresMoveTheCount`). A strip that spares
  messages showing a live card would avoid both (`Controls.GuardedStripsKeepControls`).
- Lanes exclude by key, not by card (`Outbox.TwoKeysTwoWorkers`), and a key retired twice loses its
  scope (`DedupeKeys.TwoRetirementsHideTheScope`).
- The description suffix is one unit longer than its reservation, and the "Truncated" marker is pushed
  without another look at the budget (`Rendering.ShortenedDescriptionFitsWhen`,
  `Rendering.OverflowsWhen`, exhibited by `Rendering.MarkerCanOverflow`).
- `resolve_missing` compares with the start of the poll two answered polls back, where the comments on
  `reconcile` and `firing_not_in` say the previous one; the code's reading is the one modelled, and it
  is the stronger (`Reconciler.GivenUpMeansForgotten`).

## Model

| member | source | states |
|---|---|---|
| `Dispatch.LiveCardsStayOpen` | crates/discord-alertmanager-runtime/src/dispatch.rs:262-297 | In every interleaving of decisions, claims, late reads, Discord calls (clean, ambiguous or refused), retries, reclaims, crashes and records for one card of forum routes in one worker's lane, a live card's post is open with no seal on its way, or an opening is still queued, or an opening was given up since the card last came back |
| `Dispatch.DrainedCardsShowTheirRow` | crates/discord-alertmanager-runtime/src/dispatch.rs:421-476 | On a route of any kind, and in every such interleaving: once the queue is empty and no edit is owed or was given up, a posted card's message shows its current row if no change to the message went unrecorded; the stored hash is that of the current row either way |
| `Dispatch.DrainedPostsAreOpen` | crates/discord-alertmanager-runtime/src/dispatch.rs:262-297 | A drained live card's forum post is open unless an opening was given up |
| `Seals.DrainedPostsAreSealedWhen` | crates/discord-alertmanager-engine/src/decide.rs:443-484 | The converse, over every interleaving on forum routes that archive what resolves: a drained resolved card's post is archived, and locked as its route asks, if and only if since the card last resolved, and since its post was last closed, no seal was given up on the open post and nothing opened it |
| `Seals.OpenRoutesNeverArchive` | crates/discord-alertmanager-engine/src/decide.rs:443-484 | On routes that leave what resolves open, no interleaving archives a post |
| `Seals.PostsAreLockedOnlyWhileArchived` | crates/discord-alertmanager-engine/src/decide.rs:457-460 | In every interleaving, whatever the routes ask for, a post is locked only while it is archived |
| `Seals.NextClosesAsPromised` | crates/discord-alertmanager-engine/src/decide.rs:443-484 | One step of any kind keeps "a resolved card has a seal on its way, is sealed, or is known not to be and why" |
| `SealTraces.LateNewsLeavesThePostOpen` | crates/discord-alertmanager-engine/src/decide.rs:383-395 | Where "archived on resolve" ends, exhibited: news of an alert that stays resolved opens the archived post of its card; the queue drains with nothing given up, and nothing closes it again |
| `Dispatch.ForumRunsStayOpen` | crates/discord-alertmanager-runtime/src/dispatch.rs:262-297 | Every run of changes decided for forum routes keeps "a live post is open or about to be opened" and "a plan that revives brings an opening" |
| `Dispatch.EveryRunKeeps` | crates/discord-alertmanager-runtime/src/dispatch.rs:193-246 | Every run of steps, on routes of any kind, keeps the invariants behind the drained statement |
| `Dispatch.NextKeepsItOpen` | crates/discord-alertmanager-runtime/src/dispatch.rs:262-297 | One step of any kind keeps "a live post is open or about to be opened" |
| `Dispatch.PlansOpenWhatTheyRevive` | crates/discord-alertmanager-engine/src/decide.rs:383-395 | A decision that brings a card back from resolved leaves an opening in the queue that no running item can consume unseen |
| `Dispatch.CallsKeepItOpen` | crates/discord-alertmanager-runtime/src/dispatch.rs:1053-1083 | Only a seal closes a post, and one that lands on a live card leaves the later opening queued |
| `Dispatch.NextStaysOnItsWay` | crates/discord-alertmanager-runtime/src/dispatch.rs:421-476 | One step of any kind keeps "the latest change is queued, being drawn from an unchanged reading, or recorded as shown" |
| `Dispatch.PlansQueueARedraw` | crates/discord-alertmanager-engine/src/decide.rs:401-407 | Every applied decision leaves a waiting edit that no worker has read for yet |
| `Dispatch.NextStaysHonest` | crates/discord-alertmanager-store-sqlite/src/store/outbox.rs:313-348 | The stored hash is that of the post until a change to the post goes unrecorded, and again after the next recorded draw |
| `Dispatch.SettledTouchesOneRow` | crates/discord-alertmanager-runtime/src/dispatch.rs:193-246 | Recording an outcome needs the claim, touches only the worker's own row, and puts it back exactly when the failure is worth another attempt and fewer than ten were made |
| `Dispatch.BackoffDoublesToTheCap` | crates/discord-alertmanager-runtime/src/dispatch.rs:1253-1259 | The wait doubles with each attempt and stays at 300 seconds from the ninth |
| `Pacing.RecordingWaitsItsTurn` | crates/discord-alertmanager-runtime/src/dispatch.rs:215-231 | A failed row leaves the queue exactly after ten attempts, and otherwise waits for the larger of what the failure asked and its doubling turn |
| `Pacing.UnreadCardsWaitTheirTurn` | crates/discord-alertmanager-runtime/src/dispatch.rs:1018-1028 | A card that cannot be read is tried again no sooner than five seconds later, nor than its turn |
| `Pacing.TriesAreSpaced` | crates/discord-alertmanager-runtime/src/dispatch.rs:226-228 | Over any run: between the claim that begins the n-th try of an effect and the next claim of it lie at least 2^n seconds, 300 from the ninth on, or the lease, if nothing folds into the row meanwhile |
| `Dispatch.EqualHashSkipsTheEdit` | crates/discord-alertmanager-runtime/src/dispatch.rs:435-442 | An edit whose card already has the hash of its current view drains without touching the post |
| `Dispatch.LostLeaseLeavesThePostStale` | crates/discord-alertmanager-runtime/src/dispatch.rs:232-246 | Where the drained promise ends: an edit goes through, its lease is lost before that is recorded, and the alert reverts; the queue drains on a post that shows something else |
| `Controls.ControlsAreGoneWhen` | crates/discord-alertmanager-runtime/src/dispatch.rs:302-315 | Over any run, a message is without its controls exactly when the last strip to reach it came after the last redraw to reach it |
| `Controls.DrainedControlsAreGoneWhen` | crates/discord-alertmanager-runtime/src/dispatch.rs:302-315 | For a drained card with nothing unrecorded, the same, and then the message already showed, at the strip, what the card shows in the end |
| `Controls.LiveControlsAreGoneWhen` | crates/discord-alertmanager-runtime/src/dispatch.rs:302-315 | A drained live card is without its controls in exactly two ways: the last strip was carried out once the card was live again, or it was carried out on time and a later edit was skipped on an equal hash, with no redraw after the strip in either case |
| `Controls.RevivedCardsSkip` | crates/discord-alertmanager-runtime/src/dispatch.rs:435-442 | A card that comes back and drains without a redraw had an edit skipped on the way |
| `Controls.GuardedStripsKeepControls` | crates/discord-alertmanager-runtime/src/dispatch.rs:302-315 | A check the caller could make before the call: if strips only reach messages that show a resolved card, a drained live card shows its row with its controls |
| `ControlTraces.LateStripHitsALiveCard` | crates/discord-alertmanager-runtime/src/dispatch.rs:302-315 | The first way exhibited, from any live card at rest off a forum: it resolves, its strip is refused and put back, the card comes back and is redrawn, and then the strip goes through on the live card; the queue drains |
| `ControlTraces.SkippedEditKeepsTheStrip` | crates/discord-alertmanager-runtime/src/dispatch.rs:435-442 | The second way exhibited, on any live card at rest off a forum that several alerts share by group or digest: another of its alerts resolves and the card is stripped at once, and before the redraw is due an update of the alert it showed, to nothing that is drawn, brings it back; the redraw finds the hash equal and is dropped |
| `ControlTraces.StrippedAndBack` | crates/discord-alertmanager-runtime/src/dispatch.rs:435-442 | The exact condition: stripped on time and brought back by the alert it showed, a card drains without its controls if and only if that alert is drawn as it was before |
| `ControlTraces.RefiresBringTheControlsBack` | crates/discord-alertmanager-discord/src/render.rs:225-234 | A card whose own alert resolves and fires again gets its controls back, through ingestion as the store does it, whenever the flap count moves |
| `Dispatcher.Worker.Apply` | crates/discord-alertmanager-runtime/src/dispatch.rs:249-333 | One effect carried out, branch by branch: what it reports, how it fails, and what it leaves on the post and the row, equated with the step relation |
| `Dispatcher.Worker.Conclude` | crates/discord-alertmanager-runtime/src/dispatch.rs:193-246 | What an outcome does to the queue and the card: nothing without the claim; otherwise complete, abandon, or put back, due no sooner than the failure asked, nor than 2^n seconds after the n-th attempt up to the eighth and 300 from the ninth, and exactly at the larger |
| `Dispatcher.Worker.Handle` | crates/discord-alertmanager-runtime/src/dispatch.rs:193-246 | One item run and recorded: card, queue and post end as the composed steps say |
| `Dispatcher.HandlingIsARun` | crates/discord-alertmanager-runtime/src/dispatch.rs:193-246 | An item handled without interruption is a run of the interleaved steps, exhibited, that ends where handling ends; so every promise about runs covers it |
| `Dispatcher.ReachesDiscordWhen` | crates/discord-alertmanager-runtime/src/dispatch.rs:249-333 | For each effect, exactly when it gets as far as Discord |
| `Dispatcher.WhatIsRecorded` | crates/discord-alertmanager-store-sqlite/src/store/outbox.rs:99-151 | A clean answer is written down as it was: message, thread, hash, pin and archiving of the row are those of the post, and the row leaves the queue |
| `Dispatcher.WhatElseIsRecorded` | crates/discord-alertmanager-runtime/src/dispatch.rs:462-476 | A skipped call leaves row and post as they were, a message found deleted releases the card, and neither is tried again |
| `CardFacts.OneChangeHeals` | crates/discord-alertmanager-engine/src/decide.rs:275-303 | From any state of a held card and for any change to an unmuted alert with no live sibling, the card ends open if the alert fires and resolved if not, exactly unless the change's kind contradicts its alert on a card already right |
| `CardFacts.IngestedChangesHeal` | crates/discord-alertmanager-store/src/logic.rs:81-154 | No change that ingestion reports contradicts its alert, so each one heals the card |
| `CardFacts.MutedChanges` | crates/discord-alertmanager-engine/src/decide.rs:281-303 | A muted firing alert turns a firing or acknowledged card quiet and leaves a silenced or resolved one as it was; a muted resolution resolves |
| `CardFacts.SilenceShowsWhen` | crates/discord-alertmanager-engine/src/decide.rs:360-373 | Exactly when an unmuted firing alert leaves its card silenced; coming back from muted is not among the cases |
| `CardFacts.ResolvedSiblingKeepsTheCard` | crates/discord-alertmanager-engine/src/decide.rs:310-358 | While a sibling fires on the route a resolution only changes which alert is shown, and not even that if the shown one still fires |
| `CardFacts.EveryUpdateOwes` | crates/discord-alertmanager-engine/src/decide.rs:383-431 | Every update re-renders its own card and no other, stamps its post flags with the state it lands on, closes a post only on the way to resolved, and opens it again when it brings a forum card back |
| `Seals.UpdatesSetTheRightFlags` | crates/discord-alertmanager-engine/src/decide.rs:443-484 | Every flags item of every update locks exactly what it archives where the route locks, archives only on the way to resolved where the route archives, and gives a week while anything is open and the route's own window after; and a forum card that lands on resolved is owed archive, lock and window as its route says |
| `Seals.UpdatesOweFlagsWhen` | crates/discord-alertmanager-engine/src/decide.rs:383-399 | Exactly which flags items an update carries and when each is due: an opening at once for a post known to be archived, the week taken back behind the debounce for one left open, the seal behind the debounce on resolving |
| `CardFacts.DecorationsWhen` | crates/discord-alertmanager-engine/src/decide.rs:519-592 | Exactly when a post is retagged, noted, pinned or unpinned and stripped, and to what: only a move notes and pins, to what the new state and the severity on show ask for |
| `CardFacts.SharedCardsResolveAtOnce` | crates/discord-alertmanager-engine/src/decide.rs:156-180 | A card of a group or a digest resolves with whichever of its alerts resolves; only the card of the alert itself is kept open by a sibling the route delivers |
| `UpdateOrder.SealsWaitForTheRedraw` | crates/discord-alertmanager-engine/src/decide.rs:443-484 | A post is redrawn before it is sealed: on any queue, and however it is worked afterwards, the card's redraw is taken before the seal an update queued, in an earlier claim or ahead of it in the list of the same claim |
| `UpdateOrder.ReopeningsComeAfterSeals` | crates/discord-alertmanager-engine/src/decide.rs:486-512 | The window a post left open is taken back after every seal still waiting that was due no later than its own debounce, again across claims and inside one |
| `Outbox.EarlierRowsAreTakenFirst` | crates/discord-alertmanager-store-sqlite/src/store/outbox.rs:28-97 | Of two waiting rows with one key, the earlier in claim order is taken first over any run of the queue: in an earlier claim, or ahead of the later in the list of the claim that takes both |
| `CardFacts.CreationMentionsWhen` | crates/discord-alertmanager-engine/src/decide.rs:230-273 | A card is created exactly for an unmuted firing alert, in a state that agrees with it, and mentions exactly on a fire that is not suppressed and that the route mentions for |
| `NewCards.NewAlertsAreAnnounced` | crates/discord-alertmanager-store-sqlite/src/store/notifications.rs:15-64 | From the change to the queue: each route that plans a card leaves a row with the alert and the route of the change and one effect waiting to post it, which mentions exactly when an unsuppressed fire reaches a severity the route mentions for |
| `Decide.DecideForRoute` | crates/discord-alertmanager-engine/src/decide.rs:141-204 | One turn of the loop over routes equals the outcome specified for that route |
| `Decide.DecideDelta` | crates/discord-alertmanager-engine/src/decide.rs:123-204 | The decision loop equals the route-by-route specification |
| `Decide.FindHeld` | crates/discord-alertmanager-engine/src/decide.rs:144-160 | The key search finds the first card that can carry the change and the first one it has outlived |
| `Decide.PlanUpdate` | crates/discord-alertmanager-engine/src/decide.rs:330-436 | The pushed effects equal the specification of what a card is owed |
| `Decide.StillFiring` | crates/discord-alertmanager-engine/src/decide.rs:310-326 | The answer is a live sibling, and none only when there is none |
| `CardChains.OneChainAPlace` | crates/discord-alertmanager-engine/src/decide.rs:211-273 | At any channel and key, over every run in which no storm reaches that key, no message of its cards is deleted, and the changes that could create a card there wait at least the regroup window and come in time order: its cards form one chain, each replacing the one before, so of any two the later was created, and mentioned, more than a regroup window after the earlier resolved; whatever happens at other places |
| `CardChains.OrdinaryRunsChain` | crates/discord-alertmanager-engine/src/decide.rs:66-70 | So the chain holds at every channel and key while no route storms, and at the key of an alert or of a group through every storm |
| `CardChains.RunsAreOrderly` | crates/discord-alertmanager-engine/src/decide.rs:141-180 | The invariant behind it, channel and key by channel and key: links join neighbours, only the newest card holds the key, links span more than the regroup window, and ids follow the order of creation |
| `CardRuns.CardsAreReplacedInOrder` | crates/discord-alertmanager-engine/src/decide.rs:211-273 | Over every run with no storm, deleted messages included: one card per channel and key, a replacement younger than what it replaces and in its channel, no card replaced twice, and a replacement more than a regroup window after its predecessor resolved |
| `Resolutions.ResolutionsAreDated` | crates/discord-alertmanager-store-sqlite/src/store/notifications.rs:473-498 | Over every run a card has a time of resolution exactly while it is resolved, orphans apart, so the wait for a replacement starts anew each time it resolves |
| `Resolutions.ChangesDate` | crates/discord-alertmanager-store-sqlite/src/store/notifications.rs:473-498 | A card that a change resolves gets the instant of that change, and one that stays resolved keeps its own |
| `CardRuns.RunsStaySound` | crates/discord-alertmanager-store/src/lib.rs:144-158 | The same as an invariant over any number of changes, orphanings, acknowledgements and recorded effects |
| `CardRuns.DecidingIsSound` | crates/discord-alertmanager-engine/src/decide.rs:123-204 | Every planned card is keyed live and takes over only from a long resolved card holding that key in that channel; every update is for a card with a live key |
| `CardRuns.DecisionsStaySound` | crates/discord-alertmanager-store-sqlite/src/store/notifications.rs:15-64 | Applying a whole decision keeps the table sound |
| `CardRuns.OvertakenMeansConflict` | crates/discord-alertmanager-store-sqlite/src/store/notifications.rs:454-470 | A card overtaken earlier in the same decision cannot be taken over again: the insert meets the unique index |
| `CardRuns.RetiringIsFresh` | crates/discord-alertmanager-store-sqlite/src/store/notifications.rs:230-306 | The key a card is given when it gives its own up is no other card's |
| `CardLimits.DecisionsConflictWhen` | crates/discord-alertmanager-store-sqlite/src/store/notifications.rs:15-64 | A decision taken from the store as it stands is refused exactly when the alert fires and two of its resolved routes, both unmuted, deliver to one channel under one key that no card holds or whose card the alert has outlived; the refusal is of the whole decision |
| `CardLimits.RoutesCreateWhen` | crates/discord-alertmanager-engine/src/decide.rs:141-204 | A quiet route plans a card exactly for a firing, unmuted alert whose channel and key no card holds, or only an outlived one |
| `CardLimits.TwoRoutesLoseTheCard` | crates/discord-alertmanager-store-sqlite/src/store/notifications.rs:19-44 | The far side exhibited: for any firing alert and any route that takes it, a second copy of the route makes the first decision on an empty store conflict |
| `Replacements.PredecessorsRetireWhen` | crates/discord-alertmanager-engine/src/decide.rs:144-180 | In any store, storming or not, a planned replacement leaves its predecessor its live key exactly when the route storms, is not a digest, and the outlived card is the one under the configured key, which is exactly when the two keys differ; and the insert is refused exactly when that other key is taken |
| `Replacements.StormsReplaceWithoutRetiring` | crates/discord-alertmanager-engine/src/decide.rs:144-180 | A storm replaces an outlived card and leaves its row as it was |
| `Replacements.StormsReplaceTwice` | crates/discord-alertmanager-store-sqlite/src/store/notifications.rs:454-470 | Where "replaced once" ends, exhibited: a change during a storm and a later one after it, of any alerts that come under one configured key on the route, leave two cards that supersede the same one, on per-alert and per-group routes alike |
| `Orphans.StaleDecisionsReviveOrphans` | crates/discord-alertmanager-store-sqlite/src/store/notifications.rs:473-498 | An update applied after its card was orphaned takes it out of orphaned exactly when it carries a state, and the card then has that state, no message and no key |
| `Orphans.OrphansStay` | crates/discord-alertmanager-store-sqlite/src/store/notifications.rs:266-290 | In every run whose decisions are taken from the table they are applied to, storms included, an orphan stays orphaned, and without a message until an effect records one for it |
| `Orphans.OrphansFreeTheirPlace` | crates/discord-alertmanager-store-sqlite/src/store/notifications.rs:266-290 | An orphaned card keeps its history without message, pin or key, reads as orphaned from the key it held, and leaves its channel and key free |
| `CardStore.CardTableStore.Decide` | crates/discord-alertmanager-store-sqlite/src/store/notifications.rs:15-64 | A decision is applied whole or not at all, with its conflicts and missing cards as errors |
| `CardStore.CardTableStore.InsertCards` | crates/discord-alertmanager-store-sqlite/src/store/notifications.rs:19-44 | The insertion loop: each card retires its predecessor's key if it still holds it, and the first conflict ends the decision |
| `CardStore.CardTableStore.UpdateCards` | crates/discord-alertmanager-store-sqlite/src/store/notifications.rs:46-60 | The update loop: alert, state and effects of each card, and the first missing card ends the decision |
| `CardStore.CardTableStore.OrphanNotification` | crates/discord-alertmanager-store-sqlite/src/store/notifications.rs:266-290 | The row keeps its history and gives up its key and message |
| `CardStore.CardTableStore.Acknowledge` | crates/discord-alertmanager-store-sqlite/src/store/notifications.rs:66-151 | Every card showing the alert, or keyed by it, moves as the state table says, and only when the acknowledgement changed something |
| `Acknowledgements.HeldAlertsStayAnswered` | crates/discord-alertmanager-core/src/state.rs:185-202 | An alert that flaps does not drop its acknowledgement: over any run in which it stays held and its card is its own, resolved, silenced, muted and back any number of times, the card never shows it unanswered |
| `Acknowledgements.CardsComeBackAckedWhen` | crates/discord-alertmanager-runtime/src/service.rs:143-161 | Any decision on any table: a card brought back from resolved, silenced or muted is acked if and only if somebody holds the alert or a card looked up for it is acked |
| `Acknowledgements.FiringAlertsLeaveTheCard` | crates/discord-alertmanager-core/src/state.rs:172-206 | Where an unmuted firing alert leaves its card, from each state |
| `Acknowledgements.AcknowledgingAnswers` | crates/discord-alertmanager-store-sqlite/src/store/notifications.rs:66-151 | Acknowledging moves exactly the firing cards of the alert to acked, once |
| `Acknowledgements.RevokingUnanswers` | crates/discord-alertmanager-store-sqlite/src/store/notifications.rs:66-151 | Revoking moves exactly the acked cards of the alert back to firing |
| `Acknowledgements.RevokingUndoesWhen` | crates/discord-alertmanager-store-sqlite/src/store/notifications.rs:66-151 | Revoking undoes an acknowledgement if and only if no card it reaches was acked before |
| `MergedCards.CardsFollowTheirAlerts` | crates/discord-alertmanager-runtime/src/service.rs:124-220 | Whenever every accepted change has been decided, a merged identity's card on an unmuted, quiet per-alert route is open exactly when some alert of the identity fires, and an open card shows one that does; routes may share channels as long as no two deliver one alert under one key there |
| `MergedCards.StepsMerge` | crates/discord-alertmanager-runtime/src/service.rs:124-220 | One delivery, one decided change, one acknowledgement or one recorded effect keeps the invariant, including changes to alerts outside the group and duplicates within a batch |
| `MergedCards.ResolvedMembersSettle` | crates/discord-alertmanager-engine/src/decide.rs:310-358 | A resolved member keeps an open card open for a live sibling, resolves it otherwise, and leaves a resolved card resolved |
| `MergedCards.SiblingsAreFiringMembers` | crates/discord-alertmanager-engine/src/decide.rs:684-697 | The siblings read for a resolution are exactly the other firing members, and the route takes all of them |
| `MergedCards.DecisionActsOnceAtAPlace` | crates/discord-alertmanager-engine/src/decide.rs:123-204 | A decision does at one channel and key what the one route delivering there decides, and nothing else |
| `Explain.NothingIsUnexplained` | crates/discord-alertmanager-engine/src/explain.rs:143-257 | For any two cards of any store reached by decisions, through storms and changing windows, whatever became of alerts, routes and policy since, the answer is never "unexplained" |
| `CardKeys.RunsKeepKeys` | crates/discord-alertmanager-store/src/lib.rs:144-158 | The invariant behind it: in every store, storms included, each row is keyed live or retired, an orphan is keyed retired, and no two rows of a channel share a key |
| `Explain.AnswersAreTrue` | crates/discord-alertmanager-engine/src/explain.rs:143-257 | For any two cards with live keys every answer is so: what it says of their channels, links, strategies, identities, groups, routes and windows is what made their keys |
| `CardKeys.ChangesShareAKeyWhen` | crates/discord-alertmanager-engine/src/decide.rs:624-660 | Two changes on a route go to one card exactly when their alerts count as one, name one group, or fall in one window, as its strategy has it |
| `CardKeys.StormsSpareHeldCards` | crates/discord-alertmanager-engine/src/decide.rs:640-660 | In a storm too, a card of the alert that can carry the change gets it; only an alert without one goes under the digest |
| `Explain.ReplacementIsTheTruth` | crates/discord-alertmanager-engine/src/explain.rs:169-184 | An answer of replacement names a real link: more than a regroup window apart, and nothing else took the older card's place |
| `Explain.IdentitiesDifferByALabel` | crates/discord-alertmanager-engine/src/explain.rs:193-208 | When fingerprints are hashes of the labels, the differences listed are exactly the counted labels on which the alerts differ, and there is at least one |
| `Outbox.EveryEffectIsAccountedFor` | crates/discord-alertmanager-store/src/lib.rs:175-221 | In every run each enqueued effect has exactly one fate (waiting, folded, done, abandoned) and each row is the one that exactly one effect waits in |
| `Outbox.FatesAreFinal` | crates/discord-alertmanager-store-sqlite/src/store/outbox.rs:99-187 | A fate other than waiting never changes |
| `Outbox.LostClaimsStayLost` | crates/discord-alertmanager-store-sqlite/src/store/outbox.rs:288-310 | A worker that does not hold a row can neither complete nor fail it until it claims it again |
| `Outbox.ReclaimTakesTheRowBack` | crates/discord-alertmanager-store-sqlite/src/store/outbox.rs:189-205 | An expired claim no longer settles anything |
| `Outbox.WaitingRowsLeaveThroughAClaim` | crates/discord-alertmanager-store-sqlite/src/store/outbox.rs:207-285 | An effect folded into a waiting row leaves the queue only through a claim made after the fold, and is never put off meanwhile |
| `Outbox.EnqueueNeverPostpones` | crates/discord-alertmanager-store-sqlite/src/store/outbox.rs:232-280 | Folding adds no row, postpones none, and leaves the effect waiting no later than asked |
| `Outbox.ItemsFoldWhen` | crates/discord-alertmanager-store-sqlite/src/store/outbox.rs:232-285 | Exactly when an item folds, into which rows and to what time, and otherwise is one new row |
| `Outbox.ClaimsTakeTheEarliest` | crates/discord-alertmanager-store-sqlite/src/store/outbox.rs:28-97 | A claim takes its fill, and leaves no row of its lane behind that was due before one it took, nor one due as early and queued before it |
| `Outbox.WorkersNeverShareAKey` | crates/discord-alertmanager/src/main.rs:184-197 | Two workers of one lane-owning pool never hold effects with the same dedupe key |
| `Outbox.TwoKeysTwoWorkers` | crates/discord-alertmanager-core/src/alert.rs:603-611 | Exclusion is by key and not by card: whenever a card's live key and its superseded form fall to different workers, both can hold effects of the card at once |
| `Outbox.NewLaneAssignment` | crates/discord-alertmanager-store/src/outbox.rs:385-393 | A worker's slice is always one of its pool's slices, whatever it is asked for |
| `Outbox.OutboxStore.EnqueueEffect` | crates/discord-alertmanager-store-sqlite/src/store/outbox.rs:232-285 | Enqueue with folding, equated with its specification |
| `Outbox.OutboxStore.EnqueueEffects` | crates/discord-alertmanager-store-sqlite/src/store/outbox.rs:14-26 | A batch is enqueued item by item, in order, in one transaction |
| `Outbox.OutboxStore.ClaimOutbox` | crates/discord-alertmanager-store-sqlite/src/store/outbox.rs:28-97 | The claim takes the first claimable rows of the lane in claim order, at most the limit, and counts an attempt |
| `Outbox.OutboxStore.CompleteOutbox` | crates/discord-alertmanager-store-sqlite/src/store/outbox.rs:99-151 | Completion removes the row exactly when the worker still holds it |
| `Outbox.OutboxStore.FailOutbox` | crates/discord-alertmanager-store-sqlite/src/store/outbox.rs:153-187 | Failure puts back or abandons the row exactly when the worker still holds it |
| `Outbox.OutboxStore.ReclaimExpired` | crates/discord-alertmanager-store-sqlite/src/store/outbox.rs:189-205 | The row-by-row sweep: counts the expired claims, frees exactly those rows and makes them due at once; a holder can no longer settle a row exactly when its claim had expired |
| `Alerts.RedeliveryChangesNothing` | crates/discord-alertmanager-store/src/logic.rs:81-154 | Redelivering a batch of distinct alerts yields no change, however much later; only the last sighting moves |
| `Alerts.IngestKeepsRowsValid` | crates/discord-alertmanager-store/src/logic.rs:171-180 | A row has a resolution time exactly when it is resolved |
| `Alerts.GroupKeySurvives` | crates/discord-alertmanager-store/src/logic.rs:186-192 | A row that names a group goes on naming one, and the same one if no delivery names another |
| `Alerts.DeltasCarryTheRows` | crates/discord-alertmanager-store-sqlite/src/store/alerts.rs:61-117 | The last accepted change to an alert carries the row as stored, and a row with none is as it was |
| `Alerts.DeltaKindsAgree` | crates/discord-alertmanager-store/src/logic.rs:81-154 | The kind of a reported change agrees with the status of its alert |
| `Suppression.ArrivalsAreRightlyReported` | crates/discord-alertmanager-store/src/logic.rs:81-154 | Each kind of report by what the row said and what the delivery says, suppression both ways included; nothing is reported exactly when nothing material is new |
| `Suppression.BatchesAreRightlyReported` | crates/discord-alertmanager-store-sqlite/src/store/alerts.rs:61-117 | Over any table and batch, each report is right about the row as its alert met it |
| `Suppression.ArrivalsAreStored` | crates/discord-alertmanager-store-sqlite/src/store/alerts.rs:61-117 | What arrives is stored whole, under its own group, the batch's or the one on record, with its sightings, and goes unreported only when it equals what is stored |
| `Suppression.SuppressionReachesTheCard` | crates/discord-alertmanager-store/src/logic.rs:135-146 | End to end through ingestion and the decision: a delivery silences an unmuted open card exactly when it suppresses an alert known to fire unsuppressed, and a silenced one comes back, acked if held, exactly when it lifts a known suppression |
| `Alerts.AlertStore.IngestBatch` | crates/discord-alertmanager-store-sqlite/src/store/alerts.rs:61-117 | One batch in one transaction, equated with its specification; changes and duplicates add up to the batch |
| `Flaps.FlapCountMeansRefires` | crates/discord-alertmanager-store/src/logic.rs:110-135 | The flap count is the number of re-fires since the last quiet gap longer than the regroup window, up to saturation |
| `Flaps.RowsAreTheirHistory` | crates/discord-alertmanager-store-sqlite/src/store/alerts.rs:61-117 | Whatever batches arrived and whatever else was in them, the stored row of an alert is the one its own deliveries leave |
| `Flaps.StoredCountMeansRefires` | crates/discord-alertmanager-store-sqlite/src/store/alerts.rs:61-117 | So the flap count in the store is the number of re-fires since the last long quiet gap in the batches received |
| `Flaps.RowFollowsHistory` | crates/discord-alertmanager-store/src/logic.rs:81-154 | The row's status and resolution time follow from the deliveries alone |
| `Flaps.RefiresMoveTheCount` | crates/discord-alertmanager-store/src/logic.rs:110-135 | An alert that resolves and fires again leaves the flap count as it was exactly when it had none and the quiet gap was longer than the regroup window, or the gap was within it and the count is saturated |
| `States.CrossingNeedsItsTrigger` | crates/discord-alertmanager-core/src/state.rs:172-206 | Over any run of triggers a card leaves resolved only by a fire, enters it only by a resolution, and is orphaned only by a lost message, for good |
| `DedupeKeys.ScopeUndoesTheConstructors` | crates/discord-alertmanager-core/src/alert.rs:571-595 | The scope undoes all three constructors, also through one retirement |
| `DedupeKeys.KeysNeverCollide` | crates/discord-alertmanager-core/src/alert.rs:522-538 | Keys of different kinds or contents never collide |
| `DedupeKeys.RetiredKeysNeverCollide` | crates/discord-alertmanager-store-sqlite/src/store/notifications.rs:454-470 | Retired keys of different cards never collide |
| `DedupeKeys.TwoRetirementsHideTheScope` | crates/discord-alertmanager-core/src/alert.rs:571-595 | A card replaced and then orphaned has a key whose scope is no longer recognised |
| `DedupeKeys.DigestKeysFollowTheWindow` | crates/discord-alertmanager-engine/src/decide.rs:700-708 | Two instants share a route's digest key exactly when they fall in the same window |
| `Identity.IdentityPolicy.ComputeIdentity` | crates/discord-alertmanager-core/src/identity.rs:73-94 | The hashing loop, equated with the identity of the counted labels |
| `Identity.IdentityPolicy.IdentityHashesTheCountedLabels` | crates/discord-alertmanager-core/src/identity.rs:15-18 | If fingerprints hash the labels, an identity hashes the counted ones whether or not an ignored one is present |
| `Identity.IdentityPolicy.SameIdentityMeansSameCountedLabels` | crates/discord-alertmanager-core/src/identity.rs:73-94 | Without a hash collision two alerts share an identity exactly when they answer every counted label alike |
| `Labels.StreamIsInjective` | crates/discord-alertmanager-core/src/identity.rs:73-94 | The separated byte stream that is hashed is uniquely decodable |
| `Labels.Fnv1a` | crates/discord-alertmanager-core/src/labels.rs:322-328 | The FNV-1a loop, equated with its fold |
| `Hashing.PublishedAnswers` | crates/discord-alertmanager-core/src/labels.rs:312-328 | The published 64-bit FNV-1a answers for the empty string, "a" and "foobar" |
| `Hashing.LastBytesPartByThePrime` | crates/discord-alertmanager-core/src/labels.rs:322-328 | Two streams that part at the last byte hash as far apart, modulo 2^64, as the prime times what the byte made of the low byte |
| `Hashing.LastBytesNeverCollide` | crates/discord-alertmanager-core/src/labels.rs:322-328 | So they never collide |
| `Hashing.LanesAreRemainders` | crates/discord-alertmanager-core/src/alert.rs:603-611 | A lane is the remainder of a key's hash, on a published answer |
| `Hashing.EmptyFingerprint` | crates/discord-alertmanager-core/src/labels.rs:216-223 | The fingerprint of no labels is the offset in sixteen lower-case digits |
| `Labels.LookupsDetermineLabels` | crates/discord-alertmanager-core/src/labels.rs:106-108 | Two ordered label sets that answer every lookup alike are the same |
| `Routing.RoutingSnapshot.ResolveRoutes` | crates/discord-alertmanager-engine/src/routing.rs:85-100 | The one-pass resolver equals the declarative rule |
| `Routing.ResolveKeepsExactlyTheWinners` | crates/discord-alertmanager-engine/src/routing.rs:85-100 | A route is delivered to exactly when it accepts and no earlier accepting route of its guild stops it, in order |
| `Routing.GuildsResolveApart` | crates/discord-alertmanager-engine/src/routing.rs:85-100 | Each guild's share of the answer is what its own routes answer alone |
| `Routing.ResolutionIgnoresInputOrder` | crates/discord-alertmanager-engine/src/routing.rs:56-80 | The answer is the same for every order of input routes with distinct ids |
| `Routing.MutingEndsWhen` | crates/discord-alertmanager-store/src/routing.rs:458-466 | A rule mutes alike until the instant it expires, and no longer from then on |
| `Routing.MutingStaysInPlace` | crates/discord-alertmanager-store/src/routing.rs:464-470 | A rule of a channel mutes there and nowhere else, one of the guild alike everywhere, and none outside its guild |
| `Storm.StormCounter.Observe` | crates/discord-alertmanager-engine/src/storm.rs:62-73 | Records an arrival and keeps the deque equal to the end of the log |
| `Storm.StormCounter.Snapshot` | crates/discord-alertmanager-engine/src/storm.rs:77-98 | The published verdict equals the verdict of the unbounded log when times do not go back |
| `Storm.CountIsBoundedWindow` | crates/discord-alertmanager-engine/src/storm.rs:62-98 | Every interleaving reports the lesser of the cap and the arrivals inside the window |
| `Storm.SameVerdictAsTheLog` | crates/discord-alertmanager-engine/src/storm.rs:143-165 | The bounded deque storms exactly when the whole arrival log does, for both thresholds |
| `Storm.MemoryIsBounded` | crates/discord-alertmanager-engine/src/storm.rs:62-73 | A route's deque never exceeds the cap |
| `Storm.LateStampIsOvercounted` | crates/discord-alertmanager-engine/src/storm.rs:77-98 | Times that go back break it: an arrival outside the window is still counted |
| `Reconciler.Poller.Reconcile` | crates/discord-alertmanager-runtime/src/service.rs:378-427 | A poll, answered or not, equated with its specification; an unanswered one changes nothing |
| `Reconciler.ResolvingIsPointwise` | crates/discord-alertmanager-runtime/src/service.rs:431-470 | Reporting the missing rows as one more batch resolves exactly those rows, in whatever order the store lists them |
| `Reconciler.GivesUpWhen` | crates/discord-alertmanager-runtime/src/service.rs:431-470 | A poll gives an alert up exactly when the store is up, two polls were answered before it, the answer leaves the alert out, and the row was last seen before the earlier of the two began |
| `Reconciler.GivenUpAlertsEnd` | crates/discord-alertmanager-runtime/src/service.rs:431-470 | An alert given up is resolved as of its own end, or of the poll if it named none, and every other row is as the answer left it |
| `Reconciler.GivenUpMeansForgotten` | crates/discord-alertmanager-runtime/src/service.rs:378-427 | An alert given up was in none of the last two answers, nor in this one, nor in any delivery since the earlier of them |
| `Reconciler.FourthPollGivesUp` | crates/discord-alertmanager-runtime/src/service.rs:378-470 | With polls a second or more apart and the store up, a forgotten alert is resolved by the fourth answered poll after its last sighting |
| `Reconciler.ClocksHoldTheLastTwoPolls` | crates/discord-alertmanager-runtime/src/service.rs:420-425 | The two clocks hold the second the last two answered polls started in, and zero before that |
| `Matchers.SplitTopLevel` | crates/discord-alertmanager-core/src/matcher.rs:287-311 | The splitting loop, equated with its scan |
| `Matchers.PartsRejoin` | crates/discord-alertmanager-core/src/matcher.rs:287-311 | The parts rejoin with commas to the input |
| `Matchers.OperatorIsTheFirst` | crates/discord-alertmanager-core/src/matcher.rs:314-335 | The operator is the longest one at the first place where any starts |
| `Matchers.UnquoteValue` | crates/discord-alertmanager-core/src/matcher.rs:342-359 | The unescaping loop, equated with its specification |
| `Matchers.Parse` | crates/discord-alertmanager-core/src/matcher.rs:222-239 | The parsing loop, equated with its specification, first error first |
| `Matchers.ReadParts` | crates/discord-alertmanager-core/src/matcher.rs:230-236 | The loop over parts: blank parts are skipped and the first error wins |
| `Matchers.Display` | crates/discord-alertmanager-core/src/matcher.rs:269-282 | The printing loop, equated with the joined texts |
| `Matchers.QuotedFormReadsBack` | crates/discord-alertmanager-core/src/matcher.rs:222-239 | Any list of valid matchers, whatever their values, parses back from its quoted and escaped form |
| `Matchers.PrintedFormReadsBack` | crates/discord-alertmanager-core/src/matcher.rs:269-282 | A printed list of valid matchers parses back when every value keeps its commas inside balanced quotes, has no outer space, is not wrapped in quotes and does not turn `=` into `=~` |
| `PrintedLists.PrintedListReadsBackWhen` | crates/discord-alertmanager-core/src/matcher.rs:269-282 | The exact condition for a list: its printed form parses back to it if and only if each matcher alone would, and each value but the last leaves no quote open |
| `Matchers.PlainValuesReadBack` | crates/discord-alertmanager-core/src/matcher.rs:269-282 | In particular when no value holds a comma or a quote |
| `Matchers.PrintedMatcherReadsBackWhen` | crates/discord-alertmanager-core/src/matcher.rs:168-171 | For one matcher those conditions are exact |
| `CustomIds.EncodeBase32` | crates/discord-alertmanager-discord/src/custom_id.rs:262-275 | The encoding loop, equated with the shortest form |
| `CustomIds.DecodeBase32` | crates/discord-alertmanager-discord/src/custom_id.rs:278-290 | Checked decoding accepts exactly one to thirteen alphabet characters whose value is below 2^64, and returns that value |
| `CustomIds.KeysRoundTrip` | crates/discord-alertmanager-discord/src/custom_id.rs:262-290 | Every 64-bit key is written in at most thirteen characters and read back |
| `CustomIds.ShortestIsCanonical` | crates/discord-alertmanager-discord/src/custom_id.rs:262-275 | A key without needless zeros is the shortest form of its value |
| `CustomIds.EncodedDecodes` | crates/discord-alertmanager-discord/src/custom_id.rs:156-209 | Every identifier that encodes decodes to itself and fits 100 bytes; exactly when it encodes; one with no argument always does |
| `Rendering.Truncate` | crates/discord-alertmanager-discord/src/render.rs:593-613 | The answer is the string, or its longest whole-character prefix within the limit less the marker, and the marker |
| `Rendering.TruncationFits` | crates/discord-alertmanager-discord/src/render.rs:593-613 | It fits its limit in UTF-16 units exactly when the limit is at least one or the string is empty |
| `Rendering.TruncationKeepsMost` | crates/discord-alertmanager-discord/src/render.rs:593-613 | No longer prefix would have fitted beside the marker |
| `Rendering.ShortenedDescriptionFitsWhen` | crates/discord-alertmanager-discord/src/render.rs:202-211 | Exactly when a shortened description keeps its budget: the suffix is one unit longer than what is set aside for it |
| `Rendering.Embed.Budget` | crates/discord-alertmanager-discord/src/render.rs:496-519 | The loop never underflows and keeps the most fields that fit, then marks what was dropped if the list has room |
| `Rendering.BudgetHolds` | crates/discord-alertmanager-discord/src/render.rs:496-519 | What is kept is a prefix of at most 25 entries with the marker, and before the marker within 6000 units or without fields |
| `Rendering.OverflowsWhen` | crates/discord-alertmanager-discord/src/render.rs:496-519 | The embed sent is over budget exactly when some field among the first 25 is the first to cross the budget with fewer than 65 units left before it, or when there were no fields to drop; and exactly 25 remaining fields get no marker |
| `Rendering.MarkerCanOverflow` | crates/discord-alertmanager-discord/src/render.rs:512-518 | Two fields for which telling the reader that one was dropped breaks the budget |

## Left out

Assumptions of the runs, each needed because the stronger claim is false of the code:

- MergedCards.CardsFollowTheirAlerts: changes are decided one at a time, every alert of the identity resolves to the route and shares an alert name, no two routes deliver one alert to one channel under one key, the alerts are not muted, and the card's message is not deleted; concurrent deciders may lose updates.
- CardRuns.CardsAreReplacedInOrder: no route is over its storm threshold and changes are applied one at a time.
- CardChains.OneChainAPlace: at the place itself, changes are decided in the order of time and wait at least the regroup window, no route under storm could create there, and no message is deleted; after a deletion the next card starts a chain of its own.
- Explain.NothingIsUnexplained: route ids fit 64 bits, as their column does, times are in the range the program's clock type holds, and decisions and writes to the table are whole transactions.
- Dispatch.LiveCardsStayOpen: every change is decided for a forum route, one decider and one worker for the card, no manual change to the post, no archiving by Discord itself, and no rows written before post flags carried the state they were planned for; a deleted message ends the promise.
- Pacing.TriesAreSpaced: clocks do not go back, and nothing is folded into the row between the two claims; an edit folded into one that waits is due at the earlier of their times, so a redraw that was refused may be tried again sooner.
- Acknowledgements.HeldAlertsStayAnswered: only the changes of the alert update the card, and nothing else it answers to is revoked; a card is never born answered, so one created while the alert is held shows it unanswered until it is put away.
- UpdateOrder.SealsWaitForTheRedraw: what is queued for a card that holds its key is queued under that key, as every producer does; and it is the first claim of the seal that is meant, as a redraw that was claimed and put back for another attempt may follow it.
- Dispatch.DrainedCardsShowTheirRow: the renderer's hash does not collide; what a view draws besides its row and its alert is one number whose every change counts as a change owed an edit.
- Reconciler.FourthPollGivesUp: the store is up at each of the four polls.
- Storm.SameVerdictAsTheLog: times do not go back.

What the repository does that is not modelled:

- The SQL of either backend, connection pools and row decoding: each transaction is a function on tables. The queue's lane column is derived from the key.
- Pruning of alerts and cards, so a card's row is never missing.
- Other cards' rows in the queue: claims take any part of the claimable rows of one card, which covers every batch limit.
- Forum tags: which tags a post carries, tag creation, its retry backoff and the tag hash skip, modelled as a call that may be skipped.
- Pins beyond the planned flag: the pin a post is born with and pin counting, best effort by design.
- The text of thread notes, escalation mentions and silences; the escalation sweep, whose safety is one conditional update.
- The severity of an alert is a field of it; parsing the label is a four-way table.
- Regex matching itself, template and link rendering, UTF-8 decoding.
- A batch of claimed items is handled one by one by `Dispatcher.Worker.Handle`; the outer claim-and-sleep loop, metrics and tracing are left out.
- Gateway handlers, slash commands, HTTP endpoints, configuration, the deadman notice, and silence synchronisation beyond the effects and changes it queues.
