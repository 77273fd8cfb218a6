/** The worker as it is written: one item at a time, read, draw, call, record. */
module Dispatcher {
  import opened Wrappers
  import opened States
  import opened Labels
  import DedupeKeys
  import opened Effects
  import Decide
  import opened Cards
  import Outbox
  import opened Dispatch

  // ---- One item with nobody in between, as steps of the whole

  function ThenRecord(h: RenderHash, w: World, answer: Answer, now: int): World
    requires w.job.Some? && !w.job.value.phase.Fresh? && !w.job.value.phase.SawCard?
  {
    if w.job.value.phase.Calling? then Record(Call(h, w, answer), now) else Record(w, now)
  }

  // Where reading and drawing leave an item, when the card does not change in between.
  function Reached(h: RenderHash, effect: Effect, card: Notification, view: Option<View>): (phase: Phase)
    ensures !phase.Fresh? && !phase.SawCard?
  {
    var read := AfterRead(effect, card);
    if read.SawCard? then AfterDraw(h, effect, card, view) else read
  }

  function Handled(h: RenderHash, w: World, answer: Answer, now: int): World
    requires w.job.Some? && w.job.value.phase.Fresh?
  {
    ThenRecord(h, WithPhase(w, Reached(h, w.job.value.item.effect, w.card, w.Current())), answer, now)
  }

  predicate Answers(answer: Answer, effect: Effect) {
    && (answer.Skipped? ==> effect.SetTags? || effect.SetPinned?)
    && (answer.UnknownMessage? ==> effect.EditCard? || effect.ResyncCard?)
    && (answer.Done? && effect.OpenThread? ==> answer.thread.Some?)
  }

  // Reading and drawing as steps: one of them, or both.
  lemma ReachingIsARun(h: RenderHash, w: World) returns (steps: seq<Step>)
    requires w.job.Some? && w.job.value.phase.Fresh?
    ensures Reaches(h, w, steps, WithPhase(w, Reached(h, w.job.value.item.effect, w.card, w.Current())))
  {
    var effect := w.job.value.item.effect;
    var reached := WithPhase(w, Reached(h, effect, w.card, w.Current()));
    if AfterRead(effect, w.card).SawCard? {
      var read := WithPhase(w, SawCard(w.card));
      assert Next(h, w, Step.Read) == read && Next(h, read, Drew) == reached;
      OneMoreStep(h, read, Drew, [], reached);
      OneMoreStep(h, w, Step.Read, [Drew], reached);
      steps := [Step.Read] + [Drew];
    } else {
      OneMoreStep(h, w, Step.Read, [], reached);
      steps := [Step.Read] + [];
    }
  }

  // Calling, when there is a call to make, and writing the outcome down.
  lemma RecordingIsARun(h: RenderHash, w: World, answer: Answer, now: int) returns (steps: seq<Step>)
    requires w.job.Some? && !w.job.value.phase.Fresh? && !w.job.value.phase.SawCard?
    requires Answers(answer, w.job.value.item.effect)
    ensures Reaches(h, w, steps, ThenRecord(h, w, answer, now))
  {
    var end := ThenRecord(h, w, answer, now);
    if w.job.value.phase.Calling? {
      var called := Call(h, w, answer);
      CallsKeepTheRest(h, w, answer);
      OneMoreStep(h, called, Recorded(now), [], end);
      OneMoreStep(h, w, Called(answer), [Recorded(now)], end);
      steps := [Called(answer)] + [Recorded(now)];
    } else {
      OneMoreStep(h, w, Recorded(now), [], end);
      steps := [Recorded(now)] + [];
    }
  }

  // An item handled without interruption is a run of the steps of the whole, so every promise about
  // runs is one about it.
  lemma HandlingIsARun(h: RenderHash, w: World, answer: Answer, now: int) returns (steps: seq<Step>)
    requires w.job.Some? && w.job.value.phase.Fresh? && Answers(answer, w.job.value.item.effect)
    ensures Reaches(h, w, steps, Handled(h, w, answer, now))
    ensures Kept(h, w) ==> Kept(h, Handled(h, w, answer, now))
  {
    var reached := WithPhase(w, Reached(h, w.job.value.item.effect, w.card, w.Current()));
    var first := ReachingIsARun(h, w);
    var second := RecordingIsARun(h, reached, answer, now);
    RunsJoin(h, w, first, reached, second, Handled(h, w, answer, now));
    steps := first + second;
    if Kept(h, w) {
      EveryRunKeeps(h, w, steps, Handled(h, w, answer, now));
    }
  }

  // ---- What an effect comes to

  // An effect gets as far as Discord exactly when what it needs is there, what it would show is news, and,
  // for flags, the card has not crossed between live and resolved since they were planned.
  lemma ReachesDiscordWhen(h: RenderHash, effect: Effect, card: Notification, view: Option<View>)
    ensures
      Reached(h, effect, card, view).Calling? <==>
      match effect
      case PostCard(_, _) => view.Some? && card.message.None?
      case EditCard(_) => view.Some? && card.message.Some? && card.renderHash != Some(h(view.value))
      case ResyncCard(_) => view.Some? && card.message.Some?
      case SetFlags(_, _, _, _, planned) =>
        && card.thread.Some?
        && (planned.Some? ==>
              ((planned.value.Resolved? || planned.value.Orphaned?) <==> (card.state.Resolved? || card.state.Orphaned?)))
      case SetTags(_) => card.thread.Some?
      case SetPinned(_, _) => card.thread.Some?
      case ThreadNote(_, _, _, _) => card.thread.Some?
      case OpenThread(_) => card.message.Some?
      case DisableComponents(_) => card.message.Some?
      case Escalate(_) => card.state.Firing?
      case _ => true
  {
  }

  // The card once a clean answer to an effect is on record.
  function Answered(h: RenderHash, card: Notification, effect: Effect, view: Option<View>, answer: Answer): Notification
    requires answer.Done?
  {
    match effect
    case PostCard(_, _) =>
      card.(message := Some(answer.message), thread := if answer.thread.Some? then answer.thread else card.thread,
            renderHash := if view.Some? then Some(h(view.value)) else card.renderHash)
    case SetFlags(_, archived, _, _, _) => card.(archived := archived)
    case SetPinned(_, pinned) => card.(pinned := pinned)
    case OpenThread(_) => card.(thread := if answer.thread.Some? then answer.thread else card.thread)
    case _ =>
      card.(archived := card.archived && !answer.reopened,
            renderHash := if (effect.EditCard? || effect.ResyncCard?) && view.Some? then Some(h(view.value)) else card.renderHash)
  }

  lemma ReportsSayWhatWasDone(h: RenderHash, card: Notification, effect: Effect, view: Option<View>, answer: Answer)
    requires answer.Done?
    ensures Written(card, ReportOf(h, effect, view, answer)) == Answered(h, card, effect, view, answer)
  {
  }

  lemma ArchivingIsNoted(
    h: RenderHash, card: Notification, post: Post, effect: Effect, view: Option<View>, answer: Answer)
    requires answer.Done? && post.Posted? && card.archived == post.archived && !effect.PostCard?
    requires answer.reopened ==> !effect.SetPinned? && !effect.OpenThread?
    ensures
      var after := Sent(post, effect, view, answer.reopened);
      after.Posted? && Answered(h, card, effect, view, answer).archived == after.archived
  {
  }

  // What is written down is what was done: the card's row says where its message is, what it shows, whether
  // it is pinned and whether its post is archived, and the row of the queue is gone.
  lemma WhatIsRecorded(h: RenderHash, w: World, answer: Answer, now: int)
    requires w.job.Some? && w.job.value.phase.Calling? && answer.Done?
    requires var id := w.job.value.id; id in w.queue.rows && w.queue.rows[id].HeldBy(w.worker)
    ensures
      var effect, view := w.job.value.item.effect, w.job.value.phase.view;
      var after := Record(Call(h, w, answer), now);
      && after.card == Answered(h, w.card, effect, view, answer) && w.job.value.id !in after.queue.rows
      && (w.post.Posted? && w.card.archived == w.post.archived && !effect.PostCard?
          && (answer.reopened ==> !effect.SetPinned? && !effect.OpenThread?) ==>
            after.post.Posted? && after.card.archived == after.post.archived)
  {
    var effect, view := w.job.value.item.effect, w.job.value.phase.view;
    ReportsSayWhatWasDone(h, w.card, effect, view, answer);
    if w.post.Posted? && w.card.archived == w.post.archived && !effect.PostCard?
      && (answer.reopened ==> !effect.SetPinned? && !effect.OpenThread?) {
      ArchivingIsNoted(h, w.card, w.post, effect, view, answer);
    }
    assert Record(Call(h, w, answer), now).post == Sent(w.post, effect, view, answer.reopened);
  }

  // And what went otherwise: a skip leaves the row and the post as they were, a deleted message releases the
  // card once it is found, and neither is tried again.
  lemma WhatElseIsRecorded(h: RenderHash, w: World, answer: Answer, now: int)
    requires w.job.Some? && w.job.value.phase.Calling? && (answer.Skipped? || answer.UnknownMessage?)
    requires var id := w.job.value.id; id in w.queue.rows && w.queue.rows[id].HeldBy(w.worker)
    ensures
      var after := Record(Call(h, w, answer), now);
      && after.post == w.post && w.job.value.id !in after.queue.rows
      && (answer.Skipped? ==> after.card == w.card)
      && (answer.UnknownMessage? ==>
            if answer.released
            then after.card == w.card.(state := NotificationState.Orphaned, message := None, pinned := false,
                                       dedupeKey := DedupeKeys.OrphanedKey(w.card.id, w.card.dedupeKey))
            else after.card == w.card)
  {
    assert Written(w.card, NOTHING) == w.card;
  }

  // ---- The worker

  // The store's rows and Discord's post, as one worker changes them.
  class Worker {
    const name: Outbox.WorkerId
    const hash: RenderHash
    var card: Notification
    var queue: Outbox.Queue
    var post: Post
    var alerts: map<Fingerprint, int>
    var extra: int

    constructor (name: Outbox.WorkerId, hash: RenderHash, card: Notification, queue: Outbox.Queue, alerts: map<Fingerprint, int>, extra: int)
      ensures this.name == name && this.hash == hash && this.card == card && this.queue == queue
      ensures this.alerts == alerts && this.extra == extra && post == Absent
    {
      this.name, this.hash, this.card, this.queue := name, hash, card, queue;
      this.post, this.alerts, this.extra := Absent, alerts, extra;
    }

    // The world around one item just begun.
    function Holding(id: nat, item: Outbox.Row): World
      reads this
    {
      World(card, queue, post, alerts, extra, None, name, [], Some(Job(id, item, Fresh)),
            false, false, false, false, false)
    }

    function View(): Option<View>
      reads this
    {
      if card.fingerprint in alerts
      then Some(Dispatch.View(card.state, card.fingerprint, alerts[card.fingerprint], extra))
      else None
    }

    // Carries out one effect. `answer` is what Discord would answer if it is asked.
    method Apply(effect: Effect, answer: Answer) returns (report: Report, failure: Option<Failure>)
      modifies this
      ensures unchanged(`queue) && unchanged(`alerts) && unchanged(`extra)
      ensures
        match Reached(hash, effect, old(card), old(View()))
        case Calling(_, view) =>
          (match answer
           case Done(reopened, _, _) =>
             && report == ReportOf(hash, effect, view, answer) && failure == None
             && post == Sent(old(post), effect, view, reopened) && card == old(card)
           case Skipped => report == NOTHING && failure == None && post == old(post) && card == old(card)
           case Failed(reason, happened, reopened) =>
             && failure == Some(reason) && card == old(card)
             && post == if happened then Sent(old(post), effect, view, reopened) else Reopened(old(post), effect, reopened)
           case UnknownMessage(released) =>
             && failure == Some(Drop) && post == old(post)
             && card == if released then Orphan(old(card)) else old(card))
        case Finished(r) => report == r && failure == None && post == old(post) && card == old(card)
        case Refused(reason, _) => failure == Some(reason) && post == old(post) && card == old(card)
        case _ => false
    {
      report, failure := NOTHING, None;
      var view := None;
      if effect.PostCard? {
        view := View();
        if view.None? || card.IsPosted() {
          failure := Some(Drop);
          return;
        }
      } else if effect.EditCard? {
        view := View();
        if view.None? || card.message.None? {
          failure := Some(Drop);
          return;
        }
        if !card.NeedsEdit(hash(view.value)) {
          return;
        }
      } else if effect.ResyncCard? {
        view := View();
        if view.None? || card.message.None? {
          failure := Some(Drop);
          return;
        }
      } else if effect.SetFlags? {
        if effect.plannedFor.Some? && effect.plannedFor.value.HoldsThreadOpen() != card.state.HoldsThreadOpen() {
          return;
        }
        if card.thread.None? {
          failure := Some(Drop);
          return;
        }
      } else if effect.SetTags? || effect.SetPinned? || effect.ThreadNote? {
        if card.thread.None? {
          failure := Some(Drop);
          return;
        }
      } else if effect.OpenThread? || effect.DisableComponents? {
        if card.message.None? {
          failure := Some(Drop);
          return;
        }
      } else if effect.Escalate? {
        if !card.state.Firing? {
          failure := Some(Drop);
          return;
        }
      }
      match answer
      case Done(reopened, _, _) =>
        report := ReportOf(hash, effect, view, answer);
        post := Sent(post, effect, view, reopened);
      case Skipped =>
      case Failed(reason, happened, reopened) =>
        failure := Some(reason);
        post := if happened then Sent(post, effect, view, reopened) else Reopened(post, effect, reopened);
      case UnknownMessage(released) =>
        failure := Some(Drop);
        if released {
          card := Orphan(card);
        }
    }

    // Writes one item's outcome down, if the item is still this worker's.
    method Conclude(id: nat, item: Outbox.Row, report: Report, failure: Option<Failure>, now: int)
      modifies this`queue, this`card
      ensures
        var job := Job(id, item, if failure.None? then Finished(report) else Refused(failure.value, true));
        var settled := Settled(old(queue), name, job, now);
        && queue == settled.UnwrapOr(old(queue))
        && card == if settled.Some? && failure.None? then Written(old(card), report) else old(card)
      ensures
        old(id in queue.rows && queue.rows[id].HeldBy(name)) && failure.Some? && failure.value.Retry?
          && item.attempts < MAX_ATTEMPTS ==>
            && id in queue.rows && queue.rows[id].claim.None?
            && WaitsItsTurn(queue.rows[id].notBefore - now, item.attempts, failure.value.after)
    {
      if !(id in queue.rows && queue.rows[id].HeldBy(name)) {
        return;
      }
      match failure
      case None =>
        queue := queue.(rows := queue.rows - {id});
        card := Written(card, report);
      case Some(Drop) =>
        queue := queue.(rows := queue.rows - {id});
      case Some(Retry(after)) =>
        if item.attempts >= MAX_ATTEMPTS {
          queue := queue.(rows := queue.rows - {id});
        } else {
          var delay := Max(after, BackoffSecs(item.attempts));
          RetriesWaitTheirTurn(after, item.attempts);
          queue := queue.(rows := queue.rows[id := queue.rows[id].(claim := None, notBefore := now + delay * Decide.SECOND)]);
        }
    }

    // A held row from its call to the end of its claim: completed, postponed or given up.
    method Handle(id: nat, item: Outbox.Row, answer: Answer, now: int)
      modifies this
      ensures unchanged(`alerts) && unchanged(`extra)
      ensures
        var after := Handled(hash, old(Holding(id, item)), answer, now);
        card == after.card && queue == after.queue && post == after.post
    {
      var report, failure := Apply(item.effect, answer);
      Conclude(id, item, report, failure, now);
    }
  }
}
