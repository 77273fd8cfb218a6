/** The controls under a card: taken away on resolving, and drawn again with the card. */
module Controls {
  import opened Wrappers
  import opened States
  import opened Labels
  import opened DedupeKeys
  import opened Alerts
  import opened Routing
  import opened Effects
  import opened Decide
  import opened Cards
  import Outbox
  import opened Dispatch

  predicate Stripped(post: Post) {
    post.Posted? && post.stripped
  }

  // The call answered at this step has reached the message.
  predicate Lands(w: World, step: Step) {
    && step.Called? && w.job.Some? && w.job.value.phase.Calling?
    && (step.answer.Done? || (step.answer.Failed? && step.answer.happened))
  }

  predicate StripsNow(w: World, step: Step) {
    Lands(w, step) && w.job.value.item.effect.DisableComponents? && w.post.Posted?
  }

  predicate DrawsNow(w: World, step: Step) {
    && Lands(w, step) && Draws(w.job.value.item.effect) && w.job.value.phase.view.Some?
    && (w.job.value.item.effect.PostCard? || w.post.Posted?)
  }

  // An edit dropped because the stored hash is that of what it would draw.
  predicate SkipsNow(h: RenderHash, w: World, step: Step) {
    && step.Drew? && w.job.Some? && w.job.value.phase.SawCard? && w.job.value.item.effect.EditCard?
    && var seen := w.job.value.phase.card;
    && var view := w.Draw(seen);
    view.Some? && seen.message.Some? && !seen.NeedsEdit(h(view.value))
  }

  // Nothing else touches the controls or what a message shows.
  lemma ControlsMove(h: RenderHash, w: World, step: Step)
    requires Can(w, step)
    ensures
      var after := Next(h, w, step);
      && (Stripped(after.post) <==> StripsNow(w, step) || (Stripped(w.post) && !DrawsNow(w, step)))
      && (w.post.Posted? && !DrawsNow(w, step) ==> after.post.Posted? && after.post.shown == w.post.shown)
  {
  }

  // ---- Positions in a run

  // The world before step `k`.
  ghost function WorldAt(h: RenderHash, w: World, steps: seq<Step>, k: nat): World
    decreases k
  {
    if k == 0 || steps == [] || !Can(w, steps[0]) then w
    else WorldAt(h, Next(h, w, steps[0]), steps[1..], k - 1)
  }

  ghost predicate StripAt(h: RenderHash, w: World, steps: seq<Step>, k: nat) {
    k < |steps| && StripsNow(WorldAt(h, w, steps, k), steps[k])
  }

  ghost predicate DrawAt(h: RenderHash, w: World, steps: seq<Step>, k: nat) {
    k < |steps| && DrawsNow(WorldAt(h, w, steps, k), steps[k])
  }

  ghost predicate SkipAt(h: RenderHash, w: World, steps: seq<Step>, k: nat) {
    k < |steps| && SkipsNow(h, WorldAt(h, w, steps, k), steps[k])
  }

  // A strip that no redraw comes after.
  ghost predicate LastStrip(h: RenderHash, w: World, steps: seq<Step>, k: nat) {
    StripAt(h, w, steps, k) && forall j: nat :: k < j ==> !DrawAt(h, w, steps, j)
  }

  // What happens at a position happens there too when the run is entered later.
  lemma {:induction false} WorldsShift(h: RenderHash, w: World, steps: seq<Step>, end: World, k: nat)
    requires Reaches(h, w, steps, end) && k <= |steps|
    ensures Reaches(h, WorldAt(h, w, steps, k), steps[k..], end)
    ensures forall j: nat :: WorldAt(h, w, steps, k + j) == WorldAt(h, WorldAt(h, w, steps, k), steps[k..], j)
    decreases k
  {
    if k == 0 {
      assert steps[0..] == steps;
    } else {
      WorldsShift(h, Next(h, w, steps[0]), steps[1..], end, k - 1);
      assert steps[1..][k - 1..] == steps[k..];
    }
  }

  lemma PositionsShift(h: RenderHash, w: World, steps: seq<Step>, end: World, k: nat)
    requires Reaches(h, w, steps, end) && k <= |steps|
    ensures Reaches(h, WorldAt(h, w, steps, k), steps[k..], end)
    ensures forall j: nat :: WorldAt(h, w, steps, k + j) == WorldAt(h, WorldAt(h, w, steps, k), steps[k..], j)
    ensures forall j: nat :: StripAt(h, w, steps, k + j) <==> StripAt(h, WorldAt(h, w, steps, k), steps[k..], j)
    ensures forall j: nat :: DrawAt(h, w, steps, k + j) <==> DrawAt(h, WorldAt(h, w, steps, k), steps[k..], j)
    ensures forall j: nat :: SkipAt(h, w, steps, k + j) <==> SkipAt(h, WorldAt(h, w, steps, k), steps[k..], j)
  {
    WorldsShift(h, w, steps, end, k);
  }

  // No redraw comes at any position.
  ghost predicate NeverDrawn(h: RenderHash, w: World, steps: seq<Step>) {
    forall j: nat :: !DrawAt(h, w, steps, j)
  }

  lemma NeverDrawnShifts(h: RenderHash, w: World, steps: seq<Step>, end: World)
    requires Reaches(h, w, steps, end) && steps != []
    ensures NeverDrawn(h, w, steps) <==> !DrawsNow(w, steps[0]) && NeverDrawn(h, Next(h, w, steps[0]), steps[1..])
  {
    var next, rest := Next(h, w, steps[0]), steps[1..];
    PositionsShift(h, w, steps, end, 1);
    assert WorldAt(h, w, steps, 1) == next;
    assert DrawAt(h, w, steps, 0) <==> DrawsNow(w, steps[0]);
    if NeverDrawn(h, w, steps) {
      forall j: nat ensures !DrawAt(h, next, rest, j) {
        assert !DrawAt(h, w, steps, 1 + j);
      }
    }
    if !DrawsNow(w, steps[0]) && NeverDrawn(h, next, rest) {
      forall j: nat ensures !DrawAt(h, w, steps, j) {
        assert j > 0 ==> !DrawAt(h, next, rest, j - 1) && j == 1 + (j - 1);
      }
    }
  }

  lemma DrawsShift(h: RenderHash, w: World, steps: seq<Step>, end: World, k: nat, j: nat)
    requires Reaches(h, w, steps, end) && k <= |steps|
    ensures DrawAt(h, w, steps, k + j) <==> DrawAt(h, WorldAt(h, w, steps, k), steps[k..], j)
  {
    WorldsShift(h, w, steps, end, k);
    assert WorldAt(h, w, steps, k + j) == WorldAt(h, WorldAt(h, w, steps, k), steps[k..], j);
  }

  lemma LastStripIs(h: RenderHash, w: World, steps: seq<Step>, end: World, k: nat)
    requires Reaches(h, w, steps, end) && k < |steps|
    ensures
      LastStrip(h, w, steps, k) <==>
      StripAt(h, w, steps, k) && NeverDrawn(h, WorldAt(h, w, steps, k + 1), steps[k + 1..])
  {
    var later, rest := WorldAt(h, w, steps, k + 1), steps[k + 1..];
    forall j: nat ensures DrawAt(h, w, steps, k + 1 + j) <==> DrawAt(h, later, rest, j) {
      DrawsShift(h, w, steps, end, k + 1, j);
    }
    if LastStrip(h, w, steps, k) {
      forall j: nat ensures !DrawAt(h, later, rest, j) {
        assert !DrawAt(h, w, steps, k + 1 + j);
      }
    }
    if NeverDrawn(h, later, rest) {
      forall j: nat | k < j ensures !DrawAt(h, w, steps, j) {
        assert !DrawAt(h, later, rest, j - (k + 1)) && j == k + 1 + (j - (k + 1));
      }
    }
  }

  lemma LaterStripsShift(h: RenderHash, w: World, steps: seq<Step>, end: World, k: nat)
    requires Reaches(h, w, steps, end) && steps != [] && k < |steps[1..]|
    ensures LastStrip(h, w, steps, k + 1) <==> LastStrip(h, Next(h, w, steps[0]), steps[1..], k)
  {
    var next, rest := Next(h, w, steps[0]), steps[1..];
    PositionsShift(h, w, steps, end, 1);
    assert WorldAt(h, w, steps, 1) == next;
    assert StripAt(h, w, steps, 1 + k) <==> StripAt(h, next, rest, k);
    assert WorldAt(h, w, steps, 1 + (k + 1)) == WorldAt(h, next, rest, k + 1);
    LastStripIs(h, w, steps, end, k + 1);
    LastStripIs(h, next, rest, end, k);
    assert steps[k + 2..] == rest[k + 1..];
  }

  // Which order of strips and redraws leaves a message without its controls: a last strip with no
  // redraw after it. What is counted is what reached the message, whether or not it was recorded.
  lemma {:induction false} ControlsAreGoneWhen(h: RenderHash, w: World, steps: seq<Step>, end: World)
    requires Reaches(h, w, steps, end)
    ensures
      Stripped(end.post) <==>
      (exists k: nat :: LastStrip(h, w, steps, k)) || (Stripped(w.post) && NeverDrawn(h, w, steps))
    decreases steps
  {
    if steps != [] {
      var next, rest := Next(h, w, steps[0]), steps[1..];
      ControlsMove(h, w, steps[0]);
      NeverDrawnShifts(h, w, steps, end);
      LastStripIs(h, w, steps, end, 0);
      ControlsAreGoneWhen(h, next, rest, end);
      forall k: nat | k < |rest| ensures LastStrip(h, w, steps, k + 1) <==> LastStrip(h, next, rest, k) {
        LaterStripsShift(h, w, steps, end, k);
      }
      if k: nat :| LastStrip(h, w, steps, k) {
        assert k > 0 ==> LastStrip(h, next, rest, k - 1);
      }
    }
  }

  // While nothing is redrawn a message goes on showing what it showed.
  lemma {:induction false} ShownStays(h: RenderHash, w: World, steps: seq<Step>, end: World)
    requires Reaches(h, w, steps, end) && w.post.Posted? && NeverDrawn(h, w, steps)
    ensures end.post.Posted? && end.post.shown == w.post.shown
    decreases steps
  {
    if steps != [] {
      ControlsMove(h, w, steps[0]);
      NeverDrawnShifts(h, w, steps, end);
      ShownStays(h, Next(h, w, steps[0]), steps[1..], end);
    }
  }

  lemma LastStripShows(h: RenderHash, w: World, steps: seq<Step>, end: World, k: nat)
    requires Reaches(h, w, steps, end) && LastStrip(h, w, steps, k)
    ensures WorldAt(h, w, steps, k).post.Posted? && end.post.Posted?
    ensures end.post.shown == WorldAt(h, w, steps, k).post.shown
  {
    PositionsShift(h, w, steps, end, k);
    PositionsShift(h, w, steps, end, k + 1);
    var before := WorldAt(h, w, steps, k);
    assert WorldAt(h, before, steps[k..], 1) == Next(h, before, steps[k]);
    ControlsMove(h, before, steps[k]);
    LastStripIs(h, w, steps, end, k);
    ShownStays(h, Next(h, before, steps[k]), steps[k + 1..], end);
  }

  // ---- Drained cards

  // A drained card has lost its controls exactly when the last strip came after the last redraw, and
  // the message then showed, at the strip, what the card shows in the end.
  lemma DrainedControlsAreGoneWhen(
    h: RenderHash, w: World, mention: bool, steps: seq<Step>, end: World)
    requires Start(w, mention) && Reaches(h, w, steps, end) && CollisionFree(h)
    requires Drained(end) && !end.torn && end.card.IsPosted() && end.Current().Some?
    ensures Stripped(end.post) <==> exists k: nat :: LastStrip(h, w, steps, k)
    ensures forall k: nat :: LastStrip(h, w, steps, k) ==>
      WorldAt(h, w, steps, k).post.Posted? && WorldAt(h, w, steps, k).post.shown == end.Current().value
  {
    ControlsAreGoneWhen(h, w, steps, end);
    DrainedCardsShowTheirRow(h, w, mention, steps, end);
    forall k: nat | LastStrip(h, w, steps, k)
      ensures WorldAt(h, w, steps, k).post.Posted? && WorldAt(h, w, steps, k).post.shown == end.Current().value
    {
      LastStripShows(h, w, steps, end, k);
    }
  }

  // Every strip was called on a message that showed a resolved card.
  ghost predicate StripsAreGuarded(h: RenderHash, w: World, steps: seq<Step>) {
    forall k: nat :: StripAt(h, w, steps, k) ==> !WorldAt(h, w, steps, k).post.shown.state.HoldsThreadOpen()
  }

  // So a strip that looked at what the message shows, and waited while that is a live card, would
  // never leave a live card without its controls.
  lemma GuardedStripsKeepControls(h: RenderHash, w: World, mention: bool, steps: seq<Step>, end: World)
    requires Start(w, mention) && Reaches(h, w, steps, end) && CollisionFree(h)
    requires Drained(end) && !end.torn && end.card.IsPosted() && end.Current().Some?
    requires StripsAreGuarded(h, w, steps) && end.card.state.HoldsThreadOpen()
    ensures end.post.Posted? && end.post.shown == end.Current().value && !end.post.stripped
  {
    DrainedControlsAreGoneWhen(h, w, mention, steps, end);
    DrainedCardsShowTheirRow(h, w, mention, steps, end);
  }

  // ---- The two ways a live card loses its controls

  // The worker holds a reading of the card as it still is, and means to draw from it.
  predicate Reading(w: World) {
    && w.job.Some? && Draws(w.job.value.item.effect)
    && match w.job.value.phase
       case SawCard(seen) =>
         && (w.job.value.item.effect.PostCard? <==> seen.message.None?)
         && seen.state == w.card.state && seen.fingerprint == w.card.fingerprint
       case Calling(_, view) => view == w.Current()
       case _ => false
  }

  // A redraw of the card as it stands is still to come.
  ghost predicate EditOwed(w: World) {
    !w.stale && w.Current().Some? ==> w.lostEdit || RedrawQueued(w) || Reading(w)
  }

  ghost predicate PostedCard(h: RenderHash, w: World) {
    Sound(w) && Honest(h, w) && !w.gone && w.card.message.Some?
  }

  lemma {:induction false} GoneStays(h: RenderHash, w: World, steps: seq<Step>, end: World)
    requires Reaches(h, w, steps, end) && w.gone
    ensures end.gone
    decreases steps
  {
    if steps != [] {
      GoneStays(h, Next(h, w, steps[0]), steps[1..], end);
    }
  }

  lemma PostedStays(h: RenderHash, w: World, step: Step)
    requires PostedCard(h, w) && Can(w, step)
    ensures Next(h, w, step).gone || PostedCard(h, Next(h, w, step))
  {
    NextIsSound(h, w, step);
    NextStaysHonest(h, w, step);
  }

  // A card that still has its message in the end had it all along.
  lemma PostedStepsStay(h: RenderHash, w: World, steps: seq<Step>, end: World)
    requires PostedCard(h, w) && Reaches(h, w, steps, end) && steps != [] && !end.gone
    ensures PostedCard(h, Next(h, w, steps[0]))
  {
    PostedStays(h, w, steps[0]);
    if Next(h, w, steps[0]).gone {
      GoneStays(h, Next(h, w, steps[0]), steps[1..], end);
    }
  }

  lemma FirstStepShift(h: RenderHash, w: World, steps: seq<Step>, j: nat)
    requires steps != [] && Can(w, steps[0]) && SkipAt(h, Next(h, w, steps[0]), steps[1..], j)
    ensures SkipAt(h, w, steps, j + 1)
  {
  }

  lemma AskedStaysOwed(w: World, item: NewOutboxItem)
    requires Sound(w) && EditOwed(w) && Can(w, Asked(item))
    ensures EditOwed(Ask(w, item))
  {
    var after := Ask(w, item);
    EnqueueExtends(w.queue, item);
    if Redraws(item.effect, w.card.id) {
      QueuedEditWillRedraw(after, w.queue, item.effect);
    } else if RedrawQueued(w) {
      RedrawStays(w, after);
    }
  }

  lemma ReadsStayOwed(h: RenderHash, w: World, step: Step)
    requires PostedCard(h, w) && EditOwed(w) && Can(w, step) && !SkipsNow(h, w, step)
    requires step.Read? || step.ReadFailed? || step.Drew?
    ensures EditOwed(Next(h, w, step))
  {
    var after := Next(h, w, step);
    var job := w.job.value;
    if RedrawQueued(w) {
      var id :| WillRedraw(w, id);
      assert id != job.id || !PastReading(after.job.value) || !w.queue.rows[id].HeldBy(w.worker) ==> WillRedraw(after, id);
    }
    if step.ReadFailed? && Redraws(job.item.effect, w.card.id) {
      assert WillRedraw(after, job.id);
    }
  }

  lemma CallsStayOwed(h: RenderHash, w: World, answer: Answer)
    requires PostedCard(h, w) && EditOwed(w) && Can(w, Called(answer)) && !DrawsNow(w, Called(answer))
    ensures Call(h, w, answer).gone || EditOwed(Call(h, w, answer))
  {
    var after := Call(h, w, answer);
    var job := w.job.value;
    CallsKeepTheRest(h, w, answer);
    if RedrawQueued(w) && !after.gone {
      var id :| WillRedraw(w, id);
      assert WillRedraw(after, id);
    }
    if answer.Failed? && Redraws(job.item.effect, w.card.id) {
      assert WillRedraw(after, job.id);
    }
  }

  lemma RecordsStayOwed(h: RenderHash, w: World, now: int)
    requires Sound(w) && EditOwed(w) && Can(w, Recorded(now))
    ensures EditOwed(Record(w, now))
  {
    var after := Record(w, now);
    SettledTouchesOneRow(w.queue, w.worker, w.job.value, now);
    if RedrawQueued(w) {
      var id :| WillRedraw(w, id);
      assert id in after.queue.rows ==> WillRedraw(after, id);
      assert id !in after.queue.rows ==> after.lostEdit;
    }
  }

  lemma RestsStayOwed(h: RenderHash, w: World, step: Step)
    requires PostedCard(h, w) && EditOwed(w) && Can(w, step) && (step.Unrecorded? || step.Crashed?)
    ensures EditOwed(Next(h, w, step))
  {
    var after := Next(h, w, step);
    if RedrawQueued(w) {
      RedrawStays(w, after);
    }
    if w.job.Some? && Redraws(w.job.value.item.effect, w.card.id) {
      assert WillRedraw(after, w.job.value.id);
    }
  }

  lemma ClaimsStayOwed(h: RenderHash, w: World, step: Step)
    requires EditOwed(w) && Can(w, step) && (step.Claimed? || step.Begun?)
    ensures EditOwed(Next(h, w, step))
  {
    assert !Reading(w);
    if RedrawQueued(w) {
      ClaimsKeepRedraws(h, w, step);
    }
  }

  lemma ReclaimsStayOwed(h: RenderHash, w: World, step: Step)
    requires Sound(w) && EditOwed(w) && step.Reclaimed?
    ensures EditOwed(Next(h, w, step))
  {
    if RedrawQueued(w) {
      RedrawStays(w, Next(h, w, step));
    }
  }

  lemma OthersStayOwed(h: RenderHash, w: World, step: Step)
    requires Sound(w) && EditOwed(w) && Can(w, step) && (step.Planned? || step.Acked? || step.Touched?)
    ensures EditOwed(Next(h, w, step))
  {
    if RedrawQueued(w) {
      RedrawStays(w, Next(h, w, step));
    }
  }

  // Only a redraw or a skip can use up the redraw that is owed.
  lemma NextStaysOwed(h: RenderHash, w: World, step: Step)
    requires PostedCard(h, w) && EditOwed(w) && Can(w, step) && !DrawsNow(w, step) && !SkipsNow(h, w, step)
    ensures Next(h, w, step).gone || EditOwed(Next(h, w, step))
  {
    match step
    case Decided(at) => PlansQueueARedraw(h, w, at);
    case Asked(item) => AskedStaysOwed(w, item);
    case Called(answer) => CallsStayOwed(h, w, answer);
    case Recorded(now) => RecordsStayOwed(h, w, now);
    case Read => ReadsStayOwed(h, w, step);
    case ReadFailed => ReadsStayOwed(h, w, step);
    case Drew => ReadsStayOwed(h, w, step);
    case Unrecorded => RestsStayOwed(h, w, step);
    case Crashed(_) => RestsStayOwed(h, w, step);
    case Claimed(_, _, _) => ClaimsStayOwed(h, w, step);
    case Begun => ClaimsStayOwed(h, w, step);
    case Reclaimed(_, _) => ReclaimsStayOwed(h, w, step);
    case _ => OthersStayOwed(h, w, step);
  }

  lemma DrainedOwesNothing(w: World)
    requires Sound(w) && Drained(w) && w.Current().Some?
    ensures !EditOwed(w)
  {
    assert w.job.None?;
  }

  lemma {:induction false} OwedEditsAreSkipped(h: RenderHash, w: World, steps: seq<Step>, end: World) returns (j: nat)
    requires PostedCard(h, w) && EditOwed(w) && Reaches(h, w, steps, end) && NeverDrawn(h, w, steps)
    requires Drained(end) && end.Current().Some?
    ensures SkipAt(h, w, steps, j)
    decreases steps
  {
    assert steps != [] by {
      if steps == [] {
        DrainedOwesNothing(w);
      }
    }
    var next := Next(h, w, steps[0]);
    NeverDrawnShifts(h, w, steps, end);
    if SkipsNow(h, w, steps[0]) {
      j := 0;
    } else {
      NextStaysOwed(h, w, steps[0]);
      PostedStepsStay(h, w, steps, end);
      j := OwedEditsAreSkipped(h, next, steps[1..], end);
      FirstStepShift(h, w, steps, j);
      j := j + 1;
    }
  }

  lemma OnlyPlansRevive(h: RenderHash, w: World, step: Step)
    requires Sound(w) && Can(w, step) && !w.Live()
    ensures Next(h, w, step).Live() ==> step.Decided?
  {
  }

  lemma RevivalsOweAnEdit(h: RenderHash, w: World, step: Step)
    requires Sound(w) && Can(w, step) && !w.Live() && Next(h, w, step).Live()
    ensures EditOwed(Next(h, w, step))
  {
    OnlyPlansRevive(h, w, step);
    PlansQueueARedraw(h, w, step.at);
  }

  // A card that comes back and drains without a redraw had an edit skipped on the way.
  lemma {:induction false} RevivedCardsSkip(h: RenderHash, w: World, steps: seq<Step>, end: World) returns (j: nat)
    requires PostedCard(h, w) && !w.Live() && Reaches(h, w, steps, end) && NeverDrawn(h, w, steps)
    requires Drained(end) && end.Current().Some? && end.Live()
    ensures SkipAt(h, w, steps, j)
    decreases steps
  {
    var next := Next(h, w, steps[0]);
    NeverDrawnShifts(h, w, steps, end);
    PostedStepsStay(h, w, steps, end);
    if next.Live() {
      RevivalsOweAnEdit(h, w, steps[0]);
      j := OwedEditsAreSkipped(h, next, steps[1..], end);
    } else {
      j := RevivedCardsSkip(h, next, steps[1..], end);
    }
    FirstStepShift(h, w, steps, j);
    j := j + 1;
  }

  // Too late: the card was live again when its strip was carried out, and was not redrawn since.
  ghost predicate Late(h: RenderHash, w: World, steps: seq<Step>, k: nat) {
    LastStrip(h, w, steps, k) && WorldAt(h, w, steps, k).Live()
  }

  // On time and for nothing: the card came back, and the edit that should have shown it was skipped.
  ghost predicate NeverShown(h: RenderHash, w: World, steps: seq<Step>, k: nat, j: nat) {
    LastStrip(h, w, steps, k) && !WorldAt(h, w, steps, k).Live() && k < j && SkipAt(h, w, steps, j)
  }

  lemma LastStripOfADrainedCard(h: RenderHash, w: World, mention: bool, steps: seq<Step>, end: World, k: nat)
    requires Start(w, mention) && Reaches(h, w, steps, end) && LastStrip(h, w, steps, k) && !end.gone
    ensures k < |steps| && PostedCard(h, WorldAt(h, w, steps, k + 1))
    ensures !WorldAt(h, w, steps, k).Live() ==> !WorldAt(h, w, steps, k + 1).Live()
  {
    var before := WorldAt(h, w, steps, k);
    StartIsSound(w, mention);
    PositionsShift(h, w, steps, end, k);
    PositionsShift(h, w, steps, end, k + 1);
    RunsReachTheirMiddle(h, w, steps, end, k);
    EveryRunKeeps(h, w, steps[..k], before);
    assert WorldAt(h, before, steps[k..], 1) == Next(h, before, steps[k]);
    if before.gone {
      GoneStays(h, before, steps[k..], end);
    }
    PostedStays(h, before, steps[k]);
    if Next(h, before, steps[k]).gone {
      GoneStays(h, Next(h, before, steps[k]), steps[k + 1..], end);
    }
  }

  lemma {:induction false} RunsReachTheirMiddle(h: RenderHash, w: World, steps: seq<Step>, end: World, k: nat)
    requires Reaches(h, w, steps, end) && k <= |steps|
    ensures Reaches(h, w, steps[..k], WorldAt(h, w, steps, k))
    decreases k
  {
    if k > 0 {
      RunsReachTheirMiddle(h, Next(h, w, steps[0]), steps[1..], end, k - 1);
      assert steps[..k][1..] == steps[1..][..k - 1];
    }
  }

  lemma SkipsShift(h: RenderHash, w: World, steps: seq<Step>, end: World, k: nat, j: nat)
    requires Reaches(h, w, steps, end) && k <= |steps| && SkipAt(h, WorldAt(h, w, steps, k), steps[k..], j)
    ensures SkipAt(h, w, steps, k + j)
  {
    WorldsShift(h, w, steps, end, k);
    assert WorldAt(h, w, steps, k + j) == WorldAt(h, WorldAt(h, w, steps, k), steps[k..], j);
  }

  lemma LastStripEndsTheDrawing(h: RenderHash, w: World, steps: seq<Step>, end: World, k: nat)
    requires Reaches(h, w, steps, end) && LastStrip(h, w, steps, k)
    ensures k < |steps|
    ensures Reaches(h, WorldAt(h, w, steps, k + 1), steps[k + 1..], end)
    ensures NeverDrawn(h, WorldAt(h, w, steps, k + 1), steps[k + 1..])
  {
    WorldsShift(h, w, steps, end, k + 1);
    LastStripIs(h, w, steps, end, k);
  }

  lemma LastStripsAreOfTwoKinds(h: RenderHash, w: World, mention: bool, steps: seq<Step>, end: World, k: nat)
    requires Start(w, mention) && Reaches(h, w, steps, end) && LastStrip(h, w, steps, k)
    requires Drained(end) && end.Current().Some? && end.Live()
    ensures Late(h, w, steps, k) || exists j: nat :: NeverShown(h, w, steps, k, j)
  {
    LastStripOfADrainedCard(h, w, mention, steps, end, k);
    LastStripEndsTheDrawing(h, w, steps, end, k);
    if !WorldAt(h, w, steps, k).Live() {
      var j := RevivedCardsSkip(h, WorldAt(h, w, steps, k + 1), steps[k + 1..], end);
      LaterSkipsCount(h, w, steps, end, k, j);
    }
  }

  lemma LaterSkipsCount(h: RenderHash, w: World, steps: seq<Step>, end: World, k: nat, j: nat)
    requires Reaches(h, w, steps, end) && LastStrip(h, w, steps, k) && !WorldAt(h, w, steps, k).Live()
    requires k < |steps| && SkipAt(h, WorldAt(h, w, steps, k + 1), steps[k + 1..], j)
    ensures NeverShown(h, w, steps, k, k + 1 + j)
  {
    SkipsShift(h, w, steps, end, k + 1, j);
  }

  // A live card drains without its controls in these two ways and no other.
  lemma LiveControlsAreGoneWhen(h: RenderHash, w: World, mention: bool, steps: seq<Step>, end: World)
    requires Start(w, mention) && Reaches(h, w, steps, end)
    requires Drained(end) && end.card.IsPosted() && end.Current().Some? && end.card.state.HoldsThreadOpen()
    ensures Stripped(end.post) <==>
      || (exists k: nat :: Late(h, w, steps, k))
      || (exists k: nat, j: nat :: NeverShown(h, w, steps, k, j))
  {
    ControlsAreGoneWhen(h, w, steps, end);
    forall k: nat ensures LastStrip(h, w, steps, k) <==> Late(h, w, steps, k) || exists j: nat :: NeverShown(h, w, steps, k, j) {
      if LastStrip(h, w, steps, k) {
        LastStripsAreOfTwoKinds(h, w, mention, steps, end, k);
      }
    }
  }
}
