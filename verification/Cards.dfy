/** What the store writes to one card's row. */
module Cards {
  import opened Wrappers
  import opened States
  import opened DedupeKeys
  import opened Effects

  // A card that stays resolved keeps its first resolution time; any other state has none.
  function Moved(card: Notification, state: NotificationState, at: int): Notification {
    card.(state := state,
          resolvedAt := if !state.Resolved? then None
                        else if card.resolvedAt.Some? then card.resolvedAt else Some(at))
  }

  // The card as a decision's update leaves it.
  function Shown(card: Notification, update: CardUpdate, at: int): Notification {
    var shown := card.(fingerprint := update.fingerprint);
    if update.state.Some? then Moved(shown, update.state.value, at) else shown
  }

  // The card gives its key up and stays in the table; its message is gone.
  function Orphan(card: Notification): Notification {
    card.(state := NotificationState.Orphaned, message := None, pinned := false,
          dedupeKey := OrphanedKey(card.id, card.dedupeKey))
  }

  // A card gives its key up to the one replacing it, if it still holds it.
  function Retired(card: Notification, key: DedupeKey): Notification {
    if card.dedupeKey == key then card.(dedupeKey := SupersededKey(card.id, key)) else card
  }

  // What a finished effect has to say about its card. A field left out is kept as it was.
  datatype Report = Report(
    message: Option<nat>, thread: Option<nat>, renderHash: Option<int>, pinned: Option<bool>, archived: Option<bool>)

  const NOTHING: Report := Report(None, None, None, None, None)

  function Written(card: Notification, report: Report): Notification {
    card.(message := if report.message.Some? then report.message else card.message,
          thread := if report.thread.Some? then report.thread else card.thread,
          renderHash := if report.renderHash.Some? then report.renderHash else card.renderHash,
          pinned := report.pinned.UnwrapOr(card.pinned),
          archived := report.archived.UnwrapOr(card.archived))
  }
}
