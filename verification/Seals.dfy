/** A forum post once its card has resolved: archived as its route asks, and locked only with that. */
module Seals {
  import opened Wrappers
  import opened States
  import opened Labels
  import opened DedupeKeys
  import opened Alerts
  import opened Routing
  import opened Effects
  import opened Decide
  import opened Cards
  import opened CardFacts
  import Outbox
  import opened Dispatch
  import opened Controls

  // ---- What one update asks of the post

  // The inactivity window of the route itself, in minutes.
  function OwnWindow(route: Route, settings: DecisionSettings): nat {
    match route.target
    case Forum(_, policy) => policy.autoArchiveMinutes
    case Text(_, minutes) => minutes
    case _ => settings.archiveAfterMinutes
  }

  // Flags as a card that landed at `landed` may be given them: archived only where the route archives what
  // resolved, locked exactly where it locks what it archives, and a week's window while anything is open.
  predicate RightFlags(effect: Effect, route: Route, landed: NotificationState, settings: DecisionSettings) {
    effect.SetFlags? ==>
      && (effect.archived ==> landed.Resolved? && route.target.Forum? && route.target.policy.archiveOnResolve)
      && (effect.locked <==> effect.archived && route.target.policy.lockOnResolve)
      && effect.autoArchiveMinutes == (if landed.HoldsThreadOpen() then 7 * 24 * 60 else OwnWindow(route, settings))
  }

  // The flags a forum post is left with when its card resolves.
  function SealOf(route: Route, card: CardId): Effect
    requires route.target.Forum?
  {
    var policy := route.target.policy;
    SetFlags(card, policy.archiveOnResolve, policy.archiveOnResolve && policy.lockOnResolve, policy.autoArchiveMinutes,
             Some(NotificationState.Resolved))
  }

  lemma UpdatesSetTheRightFlags(
    delta: AlertDelta, route: Route, card: Notification, ignored: bool, acknowledged: bool, siblings: seq<Alert>,
    settings: DecisionSettings, now: int)
    requires !card.state.Orphaned?
    ensures
      var update := UpdateFor(delta, route, card, ignored, acknowledged, siblings, settings, now);
      && update.Some?
      && (forall item :: item in update.value.effects ==>
            RightFlags(item.effect, route, Landed(card, update.value), settings))
      && (route.target.Forum? && !card.state.Resolved? && Landed(card, update.value).Resolved? ==>
            exists item :: item in update.value.effects && item.effect == SealOf(route, card.id))
  {
    var (shown, state) := Move(delta, route, card, ignored, acknowledged, siblings);
    var effects := UpdateEffects(delta, route, card, state, shown, settings, now);
    EffectsSetTheRightFlags(delta, route, card, state, shown, settings, now);
    if state == Some(NotificationState.Resolved) && route.target.Forum? {
      ResolvingSeals(delta, route, card, state, shown, settings, now);
    }
  }

  lemma EffectsSetTheRightFlags(
    delta: AlertDelta, route: Route, card: Notification, state: Option<NotificationState>, shown: Alert,
    settings: DecisionSettings, now: int)
    ensures forall item :: item in UpdateEffects(delta, route, card, state, shown, settings, now) ==>
      RightFlags(item.effect, route, state.UnwrapOr(card.state), settings)
  {
    var decoration := Decoration(delta, route, card, state.UnwrapOr(card.state), state, shown, now);
    assert forall item :: item in decoration ==> !item.effect.SetFlags?;
  }

  lemma ResolvingSeals(
    delta: AlertDelta, route: Route, card: Notification, state: Option<NotificationState>, shown: Alert,
    settings: DecisionSettings, now: int)
    requires state == Some(NotificationState.Resolved) && route.target.Forum?
    ensures exists item ::
      item in UpdateEffects(delta, route, card, state, shown, settings, now) && item.effect == SealOf(route, card.id)
  {
    var effects := UpdateEffects(delta, route, card, state, shown, settings, now);
    var policy := route.target.policy;
    if !policy.archiveOnResolve && card.archived {
      var opening := Opening(route, card, NotificationState.Resolved, settings, now)[0];
      assert opening in effects && opening.effect == SealOf(route, card.id);
    } else {
      var seal := ResolvedPostFlags(route, policy, card, settings, now)[0];
      assert seal in Seal(route, card, state, settings, now);
      assert seal in effects && seal.effect == SealOf(route, card.id);
    }
  }

  // Each item that sets flags: a post known to be archived is opened at once, one left open takes its week back
  // behind the debounce when its card comes back, and one whose card resolves is sealed behind it.
  predicate IsFlagsItem(
    item: NewOutboxItem, route: Route, card: Notification, state: Option<NotificationState>, settings: DecisionSettings, now: int)
  {
    var landed := state.UnwrapOr(card.state);
    var minutes := if landed.HoldsThreadOpen() then 7 * 24 * 60 else OwnWindow(route, settings);
    var open := SetFlags(card.id, false, false, minutes, Some(landed));
    || (card.archived && item == NewOutboxItem(open, card.dedupeKey, now))
    || (route.target.Forum? && !card.archived && card.state.Resolved? && landed.HoldsThreadOpen()
        && item == NewOutboxItem(open, card.dedupeKey, now + settings.debounce))
    || (route.target.Forum? && state == Some(NotificationState.Resolved)
        && (route.target.policy.archiveOnResolve || !card.archived)
        && item == NewOutboxItem(SealOf(route, card.id), card.dedupeKey, now + settings.debounce))
  }

  lemma UpdatesOweFlagsWhen(
    delta: AlertDelta, route: Route, card: Notification, ignored: bool, acknowledged: bool, siblings: seq<Alert>,
    settings: DecisionSettings, now: int)
    requires !card.state.Orphaned?
    ensures
      var update := UpdateFor(delta, route, card, ignored, acknowledged, siblings, settings, now);
      && update.Some?
      && forall item ::
           item in update.value.effects && item.effect.SetFlags? <==>
           IsFlagsItem(item, route, card, update.value.state, settings, now)
  {
    var (shown, state) := Move(delta, route, card, ignored, acknowledged, siblings);
    EffectsOweFlagsWhen(delta, route, card, state, shown, settings, now);
  }

  lemma EffectsOweFlagsWhen(
    delta: AlertDelta, route: Route, card: Notification, state: Option<NotificationState>, shown: Alert,
    settings: DecisionSettings, now: int)
    ensures forall item ::
      item in UpdateEffects(delta, route, card, state, shown, settings, now) && item.effect.SetFlags? <==>
      IsFlagsItem(item, route, card, state, settings, now)
  {
    var effective := state.UnwrapOr(card.state);
    var decoration := Decoration(delta, route, card, effective, state, shown, now);
    assert forall item :: item in decoration ==> !item.effect.SetFlags?;
    FlagsPartsAre(route, card, state, settings, now);
  }

  lemma FlagsPartsAre(
    route: Route, card: Notification, state: Option<NotificationState>, settings: DecisionSettings, now: int)
    ensures forall item ::
      || item in Opening(route, card, state.UnwrapOr(card.state), settings, now)
      || item in Window(route, card, state.UnwrapOr(card.state), settings, now)
      || item in Seal(route, card, state, settings, now)
      <==> IsFlagsItem(item, route, card, state, settings, now)
  {
  }

  // ---- Only such flags are ever on their way

  // Archived and locked, as flags set them.
  type Flags = (bool, bool)

  const ANY_FLAGS: set<Flags> := {(false, false), (true, false), (true, true)}

  function FlagsOf(policy: ForumPolicy): set<Flags> {
    {(false, false)} + if policy.archiveOnResolve then {(true, policy.lockOnResolve)} else {}
  }

  predicate Sets(effect: Effect, flags: set<Flags>) {
    effect.SetFlags? ==> (effect.archived, effect.locked) in flags
  }

  // Every change in the run is decided for a route that sets only these flags.
  predicate PlansWithin(step: Step, flags: set<Flags>) {
    step.Planned? && step.route.target.Forum? ==> FlagsOf(step.route.target.policy) <= flags
  }

  ghost predicate FlagsWithin(w: World, flags: set<Flags>) {
    && (false, false) in flags
    && (forall id :: id in w.queue.rows ==> Sets(w.queue.rows[id].effect, flags))
    && (w.plan.Some? ==> forall item :: item in w.plan.value.update.effects ==> Sets(item.effect, flags))
    && (w.post.Posted? ==> (w.post.archived, w.post.locked) in flags)
  }

  lemma RightFlagsAreWithin(effect: Effect, route: Route, landed: NotificationState, settings: DecisionSettings, flags: set<Flags>)
    requires RightFlags(effect, route, landed, settings) && (false, false) in flags
    requires route.target.Forum? ==> FlagsOf(route.target.policy) <= flags
    ensures Sets(effect, flags)
  {
    if effect.SetFlags? && effect.archived {
      assert (true, route.target.policy.lockOnResolve) in FlagsOf(route.target.policy);
    }
  }

  lemma UpdatesStayWithin(
    delta: AlertDelta, route: Route, card: Notification, ignored: bool, acknowledged: bool, siblings: seq<Alert>,
    settings: DecisionSettings, now: int, flags: set<Flags>)
    requires !card.state.Orphaned? && (false, false) in flags
    requires route.target.Forum? ==> FlagsOf(route.target.policy) <= flags
    ensures
      var update := UpdateFor(delta, route, card, ignored, acknowledged, siblings, settings, now);
      update.Some? && forall item :: item in update.value.effects ==> Sets(item.effect, flags)
  {
    UpdatesSetTheRightFlags(delta, route, card, ignored, acknowledged, siblings, settings, now);
    var update := UpdateFor(delta, route, card, ignored, acknowledged, siblings, settings, now).value;
    forall item | item in update.effects ensures Sets(item.effect, flags) {
      RightFlagsAreWithin(item.effect, route, Landed(card, update), settings, flags);
    }
  }

  lemma PlansStayWithin(h: RenderHash, w: World, step: Step, flags: set<Flags>)
    requires FlagsWithin(w, flags) && step.Planned? && Can(w, step) && PlansWithin(step, flags)
    ensures FlagsWithin(Next(h, w, step), flags)
  {
    UpdatesStayWithin(
      step.delta, step.route, w.card, step.ignored, step.acknowledged, step.siblings, step.settings, step.now, flags);
  }

  lemma ItemsStayWithin(q: Outbox.Queue, items: seq<NewOutboxItem>, flags: set<Flags>)
    requires q.Valid() && forall id :: id in q.rows ==> Sets(q.rows[id].effect, flags)
    requires forall item :: item in items ==> Sets(item.effect, flags)
    ensures forall id :: id in Outbox.EnqueueAll(q, items).rows ==> Sets(Outbox.EnqueueAll(q, items).rows[id].effect, flags)
  {
    EnqueueAllExtends(q, items);
    forall id | id in Outbox.EnqueueAll(q, items).rows ensures Sets(Outbox.EnqueueAll(q, items).rows[id].effect, flags) {
      if id !in q.rows {
        var i := NewRowsAreItems(q, items, id);
        assert items[i] in items;
      }
    }
  }

  lemma CallsStayWithin(h: RenderHash, w: World, answer: Answer, flags: set<Flags>)
    requires Sound(w) && FlagsWithin(w, flags) && Can(w, Called(answer))
    ensures FlagsWithin(Call(h, w, answer), flags)
  {
    assert Sets(w.job.value.item.effect, flags);
  }

  lemma RecordsStayWithin(w: World, now: int, flags: set<Flags>)
    requires Sound(w) && FlagsWithin(w, flags) && Can(w, Recorded(now))
    ensures FlagsWithin(Record(w, now), flags)
  {
    SettledTouchesOneRow(w.queue, w.worker, w.job.value, now);
    RecordKeepsTheRest(w, now);
  }

  lemma NextStaysWithin(h: RenderHash, w: World, step: Step, flags: set<Flags>)
    requires Sound(w) && FlagsWithin(w, flags) && Can(w, step) && PlansWithin(step, flags)
    ensures FlagsWithin(Next(h, w, step), flags)
  {
    match step
    case Planned(_, _, _, _, _, _, _) => PlansStayWithin(h, w, step, flags);
    case Decided(at) => ItemsStayWithin(w.queue, w.plan.value.update.effects, flags);
    case Asked(item) => EnqueueExtends(w.queue, item);
    case Called(answer) => CallsStayWithin(h, w, answer, flags);
    case Recorded(now) => RecordsStayWithin(w, now, flags);
    case _ =>
  }

  lemma {:induction false} RunsStayWithin(h: RenderHash, w: World, steps: seq<Step>, end: World, flags: set<Flags>)
    requires Sound(w) && FlagsWithin(w, flags) && Reaches(h, w, steps, end)
    requires forall s :: s in steps ==> PlansWithin(s, flags)
    ensures FlagsWithin(end, flags)
    decreases steps
  {
    if steps != [] {
      assert steps[0] in steps;
      NextIsSound(h, w, steps[0]);
      NextStaysWithin(h, w, steps[0], flags);
      RunsStayWithin(h, Next(h, w, steps[0]), steps[1..], end, flags);
    }
  }

  // In every interleaving, and whatever the routes ask for: a post is locked only while it is archived, so
  // that reopening it is all it takes to write to it again.
  lemma PostsAreLockedOnlyWhileArchived(h: RenderHash, w: World, mention: bool, steps: seq<Step>, end: World)
    requires Start(w, mention) && Reaches(h, w, steps, end)
    ensures end.post.Posted? && end.post.locked ==> end.post.archived
  {
    StartIsSound(w, mention);
    RunsStayWithin(h, w, steps, end, ANY_FLAGS);
  }

  // ---- A resolved card's post is archived, or it is known why not

  predicate Seals(effect: Effect, card: CardId) {
    && effect.SetFlags? && effect.card == card && effect.archived
    && effect.plannedFor == Some(NotificationState.Resolved)
  }

  // The call answered at this step closes the post, or leaves it open: by its flags, as a new post, or
  // because the post was found archived and reopened to let the call through.
  predicate ClosesNow(w: World, step: Step) {
    Lands(w, step) && w.job.value.item.effect.SetFlags? && w.job.value.item.effect.archived && w.post.Posted?
  }

  predicate OpensNow(w: World, step: Step) {
    && step.Called? && w.job.Some? && w.job.value.phase.Calling?
    && var effect := w.job.value.item.effect;
    || (Lands(w, step) && effect.SetFlags? && !effect.archived)
    || (Lands(w, step) && effect.PostCard? && w.job.value.phase.view.Some?)
    || (!effect.SetFlags? && (step.answer.Done? || step.answer.Failed?) && step.answer.reopened)
  }

  lemma PostsMove(h: RenderHash, w: World, step: Step)
    requires Can(w, step)
    ensures Next(h, w, step).post.Archived() <==> ClosesNow(w, step) || (w.post.Archived() && !OpensNow(w, step))
  {
  }

  // A seal leaves the queue without having been carried out.
  predicate GivesASealUp(w: World, step: Step) {
    && step.Recorded? && w.job.Some? && w.job.value.phase.Refused? && Seals(w.job.value.item.effect, w.card.id)
    && var settled := Dispatch.Settled(w.queue, w.worker, w.job.value, step.now);
    settled.Some? && w.job.value.id !in settled.value.rows
  }

  // Since the card last resolved, and since its post was last closed: a seal was given up while the post was
  // open, or the post was opened.
  datatype Closing = Closing(missed: bool, undone: bool)

  predicate Resolves(w: World, step: Step) {
    step.Decided? && w.plan.Some? && !w.card.state.Resolved? && ApplyPlan(w, step.at).card.state.Resolved?
  }

  function NextClosing(w: World, step: Step, c: Closing): Closing {
    if Resolves(w, step) || ClosesNow(w, step) then Closing(false, false)
    else Closing(c.missed || (GivesASealUp(w, step) && !w.post.Archived()), c.undone || OpensNow(w, step))
  }

  ghost function ClosingAfter(h: RenderHash, w: World, steps: seq<Step>, c: Closing): Closing
    decreases |steps|
  {
    if steps == [] || !Can(w, steps[0]) then c
    else ClosingAfter(h, Next(h, w, steps[0]), steps[1..], NextClosing(w, steps[0], c))
  }

  predicate WillSeal(w: World, id: nat) {
    && id in w.queue.rows && Seals(w.queue.rows[id].effect, w.card.id)
    && !(w.job.Some? && w.job.value.id == id && w.job.value.phase.Finished?)
  }

  ghost predicate SealQueued(w: World) {
    exists id :: WillSeal(w, id)
  }

  // A plan that resolves the card brings a seal with it.
  ghost predicate PlanSeals(w: World) {
    w.plan.Some? ==>
      var before, update := w.plan.value.before, w.plan.value.update;
      !before.state.Resolved? && Landed(before, update).Resolved? ==>
        exists item :: item in update.effects && Seals(item.effect, w.card.id)
  }

  // A thread is one that was seen with a message.
  ghost predicate Threaded(w: World) {
    !w.gone ==>
      && (w.card.thread.Some? ==> w.post.Posted?)
      && (w.job.Some? ==>
            match w.job.value.phase
            case Calling(seen, _) => w.job.value.item.effect.OpenThread? ==> seen.message.Some?
            case Finished(report) => report.thread.Some? ==> w.post.Posted?
            case _ => true)
  }

  ghost predicate ClosedAsPromised(w: World, c: Closing) {
    && (w.card.state.Resolved? && !w.gone ==> c.missed || c.undone || SealQueued(w) || w.post.Archived())
    && (w.post.Archived() ==> !c.missed && !c.undone)
  }

  // Every change is decided for a forum route that archives what resolves.
  predicate ArchivingStep(step: Step) {
    step.Planned? ==> step.route.target.Forum? && step.route.target.policy.archiveOnResolve
  }

  lemma NextPlansSeal(h: RenderHash, w: World, step: Step)
    requires Sound(w) && PlanSeals(w) && Can(w, step) && ArchivingStep(step)
    ensures PlanSeals(Next(h, w, step))
  {
    if step.Planned? {
      UpdatesSetTheRightFlags(
        step.delta, step.route, w.card, step.ignored, step.acknowledged, step.siblings, step.settings, step.now);
    } else {
      assert Next(h, w, step).plan == w.plan || Next(h, w, step).plan.None?;
      assert Next(h, w, step).card.id == w.card.id;
    }
  }

  lemma CallsAreThreaded(h: RenderHash, w: World, answer: Answer)
    requires Sound(w) && Honest(h, w) && Threaded(w) && Can(w, Called(answer))
    ensures Threaded(Call(h, w, answer))
  {
  }

  lemma RecordsAreThreaded(w: World, now: int)
    requires Threaded(w) && Can(w, Recorded(now))
    ensures Threaded(Record(w, now))
  {
  }

  lemma NextIsThreaded(h: RenderHash, w: World, step: Step)
    requires Sound(w) && Honest(h, w) && Threaded(w) && Can(w, step)
    ensures Threaded(Next(h, w, step))
  {
    match step
    case Called(answer) => CallsAreThreaded(h, w, answer);
    case Recorded(now) => RecordsAreThreaded(w, now);
    case _ =>
  }

  lemma SealsStay(w: World, after: World)
    requires SealQueued(w) && after.card.id == w.card.id
    requires forall id :: id in w.queue.rows ==>
      id in after.queue.rows && after.queue.rows[id].effect == w.queue.rows[id].effect
    requires after.job == w.job || after.job.None? || !after.job.value.phase.Finished?
    ensures SealQueued(after)
  {
    var id :| WillSeal(w, id);
    assert WillSeal(after, id);
  }

  lemma PlansSealWhatTheyResolve(h: RenderHash, w: World, at: int, c: Closing)
    requires Sound(w) && PlanSeals(w) && ClosedAsPromised(w, c) && Can(w, Decided(at))
    ensures ClosedAsPromised(ApplyPlan(w, at), NextClosing(w, Decided(at), c))
  {
    var after, update := ApplyPlan(w, at), w.plan.value.update;
    EnqueueAllExtends(w.queue, update.effects);
    if after.card.state.Resolved? && !after.gone {
      if w.card.state.Resolved? {
        if SealQueued(w) {
          SealsStay(w, after);
        }
      } else {
        var item :| item in update.effects && Seals(item.effect, w.card.id);
        var i :| 0 <= i < |update.effects| && update.effects[i] == item;
        ItemsAreQueued(w.queue, update.effects, i);
        var id :| id in after.queue.rows && id >= w.queue.next && after.queue.rows[id].effect == item.effect;
        assert WillSeal(after, id);
      }
    }
  }

  lemma CallsCloseAsPromised(h: RenderHash, w: World, answer: Answer, c: Closing)
    requires Sound(w) && Threaded(w) && ClosedAsPromised(w, c) && Can(w, Called(answer))
    ensures ClosedAsPromised(Call(h, w, answer), NextClosing(w, Called(answer), c))
  {
    var after := Call(h, w, answer);
    PostsMove(h, w, Called(answer));
    CallsKeepTheRest(h, w, answer);
    if SealQueued(w) && !after.gone {
      var id :| WillSeal(w, id);
      assert id != w.job.value.id || answer.Failed? ==> WillSeal(after, id);
    }
  }

  lemma RecordsCloseAsPromised(w: World, now: int, c: Closing)
    requires Sound(w) && ClosedAsPromised(w, c) && Can(w, Recorded(now))
    ensures ClosedAsPromised(Record(w, now), NextClosing(w, Recorded(now), c))
  {
    var after := Record(w, now);
    SettledTouchesOneRow(w.queue, w.worker, w.job.value, now);
    RecordKeepsTheRest(w, now);
    if SealQueued(w) {
      var id :| WillSeal(w, id);
      assert id in after.queue.rows ==> WillSeal(after, id);
      assert id !in after.queue.rows ==> GivesASealUp(w, Recorded(now));
    }
  }

  lemma ReadsCloseAsPromised(h: RenderHash, w: World, step: Step, c: Closing)
    requires Sound(w) && ClosedAsPromised(w, c) && Can(w, step) && (step.Read? || step.ReadFailed? || step.Drew?)
    ensures ClosedAsPromised(Next(h, w, step), c)
  {
    var after := Next(h, w, step);
    if SealQueued(w) && after.card.state.Resolved? {
      var id :| WillSeal(w, id);
      assert WillSeal(after, id);
    }
  }

  lemma OthersCloseAsPromised(h: RenderHash, w: World, step: Step, c: Closing)
    requires Sound(w) && ClosedAsPromised(w, c) && Can(w, step)
    requires step.Planned? || step.Acked? || step.Touched? || step.Asked? || step.Claimed? || step.Begun?
      || step.Unrecorded? || step.Reclaimed? || step.Crashed?
    ensures ClosedAsPromised(Next(h, w, step), c)
  {
    var after := Next(h, w, step);
    if step.Asked? {
      EnqueueExtends(w.queue, step.item);
    }
    if SealQueued(w) {
      SealsStay(w, after);
    }
  }

  // Only what is decided, called or recorded moves the account.
  lemma OthersLeaveTheAccount(w: World, step: Step, c: Closing)
    requires !step.Decided? && !step.Called? && !step.Recorded?
    ensures NextClosing(w, step, c) == c
  {
  }

  lemma NextClosesAsPromised(h: RenderHash, w: World, step: Step, c: Closing)
    requires Sound(w) && Threaded(w) && PlanSeals(w) && ClosedAsPromised(w, c) && Can(w, step)
    ensures ClosedAsPromised(Next(h, w, step), NextClosing(w, step, c))
  {
    if !step.Decided? && !step.Called? && !step.Recorded? {
      OthersLeaveTheAccount(w, step, c);
    }
    match step
    case Decided(at) => PlansSealWhatTheyResolve(h, w, at, c);
    case Called(answer) => CallsCloseAsPromised(h, w, answer, c);
    case Recorded(now) => RecordsCloseAsPromised(w, now, c);
    case Read => ReadsCloseAsPromised(h, w, step, c);
    case ReadFailed => ReadsCloseAsPromised(h, w, step, c);
    case Drew => ReadsCloseAsPromised(h, w, step, c);
    case _ => OthersCloseAsPromised(h, w, step, c);
  }

  lemma {:induction false} RunsCloseAsPromised(h: RenderHash, w: World, steps: seq<Step>, end: World, c: Closing)
    requires Kept(h, w) && Threaded(w) && PlanSeals(w) && ClosedAsPromised(w, c)
    requires Reaches(h, w, steps, end) && forall s :: s in steps ==> ArchivingStep(s)
    ensures ClosedAsPromised(end, ClosingAfter(h, w, steps, c))
    decreases steps
  {
    if steps != [] {
      var step := steps[0];
      assert step in steps;
      NextIsKept(h, w, step);
      NextIsThreaded(h, w, step);
      NextPlansSeal(h, w, step);
      NextClosesAsPromised(h, w, step, c);
      RunsCloseAsPromised(h, Next(h, w, step), steps[1..], end, NextClosing(w, step, c));
    }
  }

  // The converse of the live case. On a route that archives what resolves, a drained resolved card's post is
  // archived, and locked as the route asks, unless since it resolved a seal was given up on the open post or
  // the post was opened again, and it was not closed after that.
  lemma DrainedPostsAreSealedWhen(
    h: RenderHash, w: World, mention: bool, steps: seq<Step>, end: World, locks: bool, c: Closing)
    requires Start(w, mention) && Reaches(h, w, steps, end) && c == ClosingAfter(h, w, steps, Closing(false, false))
    requires forall s :: s in steps ==>
      ArchivingStep(s) && (s.Planned? ==> s.route.target.policy.lockOnResolve == locks)
    requires Drained(end) && end.card.state.Resolved?
    ensures end.post.Archived() <==> !c.missed && !c.undone
    ensures end.post.Archived() ==> end.post.locked == locks
  {
    StartIsSound(w, mention);
    RunsCloseAsPromised(h, w, steps, end, Closing(false, false));
    RunsStayWithin(h, w, steps, end, {(false, false), (true, locks)});
  }

  // A route that leaves what resolves open never archives a post.
  lemma OpenRoutesNeverArchive(h: RenderHash, w: World, mention: bool, steps: seq<Step>, end: World)
    requires Start(w, mention) && Reaches(h, w, steps, end)
    requires forall s :: s in steps && s.Planned? && s.route.target.Forum? ==> !s.route.target.policy.archiveOnResolve
    ensures !end.post.Archived()
  {
    StartIsSound(w, mention);
    RunsStayWithin(h, w, steps, end, {(false, false)});
  }
}
