/** Cards, the effects a card can be owed, and what a decision about a card consists of. */
module Effects {
  import opened Wrappers
  import opened States
  import opened Labels
  import opened DedupeKeys

  type CardId = nat

  // A card's row: which alert it shows, in which message, and how far along both are.
  datatype Notification = Notification(
    id: CardId,
    dedupeKey: DedupeKey,
    fingerprint: Fingerprint,
    routeId: int,
    channel: nat,
    message: Option<nat>,
    thread: Option<nat>,
    state: NotificationState,
    renderHash: Option<int>,
    pinned: bool,
    archived: bool,
    supersedes: Option<CardId>,
    resolvedAt: Option<int>,
    createdAt: int)
  {
    predicate IsPosted() {
      message.Some?
    }

    predicate NeedsEdit(hash: int) {
      renderHash != Some(hash)
    }
  }

  datatype EffectKind =
    | Post | Edit | Resync | Open | Note | Tags | Flags | Pin | Disable | Escalation | NewSilence | EndSilence | Notice

  datatype Effect =
    | PostCard(card: CardId, mention: bool)
    | EditCard(card: CardId)
    | ResyncCard(card: CardId)
    | OpenThread(card: CardId)
    | ThreadNote(card: CardId, previous: NotificationState, next: NotificationState, flapCount: nat)
    | SetTags(card: CardId)
    | SetFlags(card: CardId, archived: bool, locked: bool, autoArchiveMinutes: nat, plannedFor: Option<NotificationState>)
    | SetPinned(card: CardId, pinned: bool)
    | DisableComponents(card: CardId)
    | Escalate(card: CardId)
    | CreateSilence(matchers: string)
    | ExpireSilence(silence: string)
    | AdminNotice(channel: nat, text: string)
  {
    // Silences and notices belong to no card.
    function Card(): Option<CardId> {
      match this
      case CreateSilence(_) => None
      case ExpireSilence(_) => None
      case AdminNotice(_, _) => None
      case PostCard(id, _) => Some(id)
      case EditCard(id) => Some(id)
      case ResyncCard(id) => Some(id)
      case OpenThread(id) => Some(id)
      case ThreadNote(id, _, _, _) => Some(id)
      case SetTags(id) => Some(id)
      case SetFlags(id, _, _, _, _) => Some(id)
      case SetPinned(id, _) => Some(id)
      case DisableComponents(id) => Some(id)
      case Escalate(id) => Some(id)
    }

    function Kind(): EffectKind {
      match this
      case PostCard(_, _) => Post
      case EditCard(_) => Edit
      case ResyncCard(_) => Resync
      case OpenThread(_) => Open
      case ThreadNote(_, _, _, _) => Note
      case SetTags(_) => Tags
      case SetFlags(_, _, _, _, _) => Flags
      case SetPinned(_, _) => Pin
      case DisableComponents(_) => Disable
      case Escalate(_) => Escalation
      case CreateSilence(_) => NewSilence
      case ExpireSilence(_) => EndSilence
      case AdminNotice(_, _) => Notice
    }

    // Kinds whose unclaimed row is reused when the same card asks for one again.
    predicate IsCoalescable() {
      EditCard? || ResyncCard? || SetTags?
    }
  }

  datatype NewOutboxItem = NewOutboxItem(effect: Effect, dedupeKey: DedupeKey, notBefore: int)

  // A card to create, before it has an id.
  datatype NewNotification = NewNotification(
    dedupeKey: DedupeKey,
    fingerprint: Fingerprint,
    routeId: int,
    channel: nat,
    state: NotificationState,
    supersedes: Option<CardId>,
    createdAt: int)

  datatype PlannedCard = PlannedCard(card: NewNotification, mention: bool, notBefore: int)

  // The alert the card shows from now on, the state it moves to if any, and what it is owed.
  datatype CardUpdate = CardUpdate(
    id: CardId,
    fingerprint: Fingerprint,
    state: Option<NotificationState>,
    effects: seq<NewOutboxItem>)

  datatype Decision = Decision(newCards: seq<PlannedCard>, updates: seq<CardUpdate>, at: int)
}
