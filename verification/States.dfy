/** What a card is showing, what happened to its alert, and the table between the two. */
module States {
  import opened Wrappers

  datatype NotificationState = Firing | Acked | Silenced | Ignored | Resolved | Orphaned {
    // The alert behind the card is firing and not muted in Discord.
    predicate IsOpen() {
      Firing? || Acked? || Silenced?
    }

    // Everything short of resolution keeps the thread on Discord's longest window.
    predicate HoldsThreadOpen() {
      !Resolved? && !Orphaned?
    }

    predicate WantsPin() {
      Firing?
    }
  }

  datatype EventKind = Fired | Resolved | Updated | Silenced | Unsilenced

  datatype Trigger =
    | Fired
    | Resolved
    | Acknowledged
    | AckRevoked
    | Silenced
    | Unsilenced
    | Ignored
    | Unignored
    | MessageLost

  // An update re-renders a card without moving it, so it implies no trigger.
  function FromEvent(kind: EventKind): Option<Trigger> {
    match kind
    case Fired => Some(Trigger.Fired)
    case Resolved => Some(Trigger.Resolved)
    case Silenced => Some(Trigger.Silenced)
    case Unsilenced => Some(Trigger.Unsilenced)
    case Updated => None
  }

  function NextState(current: NotificationState, trigger: Trigger, acknowledged: bool): Option<NotificationState> {
    if current.Orphaned? then
      None
    else
      var resume := if acknowledged then NotificationState.Acked else NotificationState.Firing;
      var next :=
        match trigger
        case MessageLost => Some(NotificationState.Orphaned)
        case Fired => if current.Resolved? then Some(resume) else None
        case Resolved => if current.IsOpen() || current.Ignored? then Some(NotificationState.Resolved) else None
        case Acknowledged => if current.Firing? then Some(NotificationState.Acked) else None
        case AckRevoked => if current.Acked? then Some(NotificationState.Firing) else None
        case Silenced => if current.Firing? || current.Acked? then Some(NotificationState.Silenced) else None
        case Unsilenced => if current.Silenced? then Some(resume) else None
        case Ignored => if current.Firing? || current.Acked? then Some(NotificationState.Ignored) else None
        case Unignored => if current.Ignored? then Some(resume) else None;
      if next.Some? && next.value != current then next else None
  }

  // Folds a run of triggers over one card, each with what was known about the acknowledgement.
  function Run(current: NotificationState, triggers: seq<(Trigger, bool)>): NotificationState
    decreases triggers
  {
    if triggers == [] then current
    else Run(NextState(current, triggers[0].0, triggers[0].1).UnwrapOr(current), triggers[1..])
  }

  // Over any run a card leaves resolved only by a `Fired`, and enters it only by a `Resolved`.
  lemma {:induction false} CrossingNeedsItsTrigger(current: NotificationState, triggers: seq<(Trigger, bool)>)
    decreases triggers
    ensures
      var last := Run(current, triggers);
      && (current.Resolved? && last.HoldsThreadOpen() ==> exists t :: t in triggers && t.0.Fired?)
      && (current.HoldsThreadOpen() && last.Resolved? ==> exists t :: t in triggers && t.0.Resolved?)
      && (current.Orphaned? ==> last.Orphaned?)
      && (last.Orphaned? && !current.Orphaned? ==> exists t :: t in triggers && t.0.MessageLost?)
  {
    if triggers != [] {
      assert triggers[0] in triggers;
      var next := NextState(current, triggers[0].0, triggers[0].1).UnwrapOr(current);
      CrossingNeedsItsTrigger(next, triggers[1..]);
    }
  }
}
