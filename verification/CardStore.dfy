/** The notifications table: decisions, acknowledgements and orphanings, one transaction each. */
module CardStore {
  import opened Wrappers
  import opened States
  import opened Labels
  import opened DedupeKeys
  import opened Effects
  import opened Cards
  import opened Outbox

  type CardTable = map<CardId, Notification>

  // `nextCard` is the id the next card takes; `acks` are the alerts somebody holds.
  datatype Tables = Tables(cards: CardTable, nextCard: CardId, queue: Queue, acks: set<Fingerprint>)

  const NO_TABLES: Tables := Tables(map[], 0, EMPTY, {})

  datatype StoreError = Conflict | NoSuchCard

  // The unique index: what a new card may not share with any row, live or retired.
  predicate Taken(cards: CardTable, channel: nat, key: DedupeKey) {
    exists id :: id in cards && cards[id].channel == channel && cards[id].dedupeKey == key
  }

  function NewCard(id: CardId, card: NewNotification): Notification {
    Notification(id, card.dedupeKey, card.fingerprint, card.routeId, card.channel, None, None, card.state,
                 None, false, false, card.supersedes, None, card.createdAt)
  }

  function Retire(cards: CardTable, replaced: Option<CardId>, key: DedupeKey): CardTable {
    if replaced.Some? && replaced.value in cards
    then cards[replaced.value := Retired(cards[replaced.value], key)]
    else cards
  }

  function AddCard(t: Tables, planned: PlannedCard): Result<Tables, StoreError> {
    var key := planned.card.dedupeKey;
    var cards := Retire(t.cards, planned.card.supersedes, key);
    if Taken(cards, planned.card.channel, key) then Err(Conflict)
    else
      Ok(t.(cards := cards[t.nextCard := NewCard(t.nextCard, planned.card)],
            nextCard := t.nextCard + 1,
            queue := Enqueue(t.queue, NewOutboxItem(PostCard(t.nextCard, planned.mention), key, planned.notBefore))))
  }

  function ApplyUpdate(t: Tables, update: CardUpdate, at: int): Result<Tables, StoreError> {
    if update.id !in t.cards then Err(NoSuchCard)
    else
      Ok(t.(cards := t.cards[update.id := Shown(t.cards[update.id], update, at)],
            queue := EnqueueAll(t.queue, update.effects)))
  }

  function AddCards(t: Tables, planned: seq<PlannedCard>): Result<Tables, StoreError> {
    if planned == [] then Ok(t)
    else
      match AddCards(t, planned[..|planned| - 1])
      case Err(error) => Err(error)
      case Ok(before) => AddCard(before, planned[|planned| - 1])
  }

  function ApplyUpdates(t: Tables, updates: seq<CardUpdate>, at: int): Result<Tables, StoreError> {
    if updates == [] then Ok(t)
    else
      match ApplyUpdates(t, updates[..|updates| - 1], at)
      case Err(error) => Err(error)
      case Ok(before) => ApplyUpdate(before, updates[|updates| - 1], at)
  }

  // The whole decision, or none of it.
  function ApplyDecision(t: Tables, decision: Decision): Result<Tables, StoreError> {
    match AddCards(t, decision.newCards)
    case Err(error) => Err(error)
    case Ok(added) => ApplyUpdates(added, decision.updates, decision.at)
  }

  function OrphanCard(t: Tables, id: CardId): Result<Tables, StoreError> {
    if id in t.cards then Ok(t.(cards := t.cards[id := Orphan(t.cards[id])])) else Err(NoSuchCard)
  }

  // Every card an acknowledgement answers: by the alert it shows, or by its key.
  predicate Answers(card: Notification, fingerprint: Fingerprint) {
    !card.state.Orphaned? && (card.fingerprint == fingerprint || card.dedupeKey == PerAlert(fingerprint))
  }

  function Answered(card: Notification, fingerprint: Fingerprint, trigger: Trigger, held: bool, at: int): Notification {
    if !Answers(card, fingerprint) then card
    else
      var next := NextState(card.state, trigger, held);
      if next.Some? then Moved(card, next.value, at) else card
  }

  // A second acknowledgement of one alert, or a revocation of none, changes nothing.
  function AcknowledgeAlert(t: Tables, fingerprint: Fingerprint, revoke: bool, at: int): Tables {
    if revoke != (fingerprint in t.acks) then t
    else
      var trigger := if revoke then Trigger.AckRevoked else Trigger.Acknowledged;
      t.(acks := if revoke then t.acks - {fingerprint} else t.acks + {fingerprint},
         cards := map id | id in t.cards :: Answered(t.cards[id], fingerprint, trigger, !revoke, at))
  }

  function WriteReport(t: Tables, id: CardId, report: Report): Tables {
    if id in t.cards then t.(cards := t.cards[id := Written(t.cards[id], report)]) else t
  }

  // The table itself.
  class CardTableStore {
    var cards: CardTable
    var nextCard: CardId
    var queue: Queue
    var acks: set<Fingerprint>

    function Contents(): Tables
      reads this
    {
      Tables(cards, nextCard, queue, acks)
    }

    constructor ()
      ensures Contents() == NO_TABLES
    {
      cards, nextCard, queue, acks := map[], 0, EMPTY, {};
    }

    // The new cards first, and then the updates, on a copy that is kept only if both succeed.
    method Decide(decision: Decision) returns (error: Option<StoreError>)
      modifies this
      ensures
        match ApplyDecision(old(Contents()), decision)
        case Ok(after) => error == None && Contents() == after
        case Err(e) => error == Some(e) && Contents() == old(Contents())
    {
      var added := InsertCards(Contents(), decision.newCards);
      if added.Err? {
        return Some(added.error);
      }
      var tx := UpdateCards(added.value, decision.updates, decision.at);
      if tx.Err? {
        return Some(tx.error);
      }
      cards, nextCard, queue, acks := tx.value.cards, tx.value.nextCard, tx.value.queue, tx.value.acks;
      error := None;
    }

    static method InsertCards(before: Tables, planned: seq<PlannedCard>) returns (r: Result<Tables, StoreError>)
      ensures r == AddCards(before, planned)
    {
      var tx := before;
      for i := 0 to |planned|
        invariant AddCards(before, planned[..i]) == Ok(tx)
      {
        assert planned[..i + 1][..i] == planned[..i];
        var card := planned[i].card;
        var rows := tx.cards;
        if card.supersedes.Some? && card.supersedes.value in rows {
          var replaced := rows[card.supersedes.value];
          if replaced.dedupeKey == card.dedupeKey {
            rows := rows[card.supersedes.value :=
              replaced.(dedupeKey := SupersededKey(replaced.id, card.dedupeKey))];
          } else {
            assert rows[card.supersedes.value := replaced] == rows;
          }
        }
        assert rows == Retire(tx.cards, card.supersedes, card.dedupeKey);
        if Taken(rows, card.channel, card.dedupeKey) {
          assert AddCards(before, planned[..i + 1]) == Err(Conflict);
          AddingStopsAtTheFirstError(before, planned, i + 1);
          return Err(Conflict);
        }
        tx := AddCard(tx, planned[i]).value;
      }
      assert planned[..|planned|] == planned;
      r := Ok(tx);
    }

    static method UpdateCards(before: Tables, updates: seq<CardUpdate>, at: int) returns (r: Result<Tables, StoreError>)
      ensures r == ApplyUpdates(before, updates, at)
    {
      var tx := before;
      for i := 0 to |updates|
        invariant ApplyUpdates(before, updates[..i], at) == Ok(tx)
      {
        assert updates[..i + 1][..i] == updates[..i];
        if updates[i].id !in tx.cards {
          assert ApplyUpdates(before, updates[..i + 1], at) == Err(NoSuchCard);
          UpdatingStopsAtTheFirstError(before, updates, at, i + 1);
          return Err(NoSuchCard);
        }
        tx := ApplyUpdate(tx, updates[i], at).value;
      }
      assert updates[..|updates|] == updates;
      r := Ok(tx);
    }

    method OrphanNotification(id: CardId) returns (error: Option<StoreError>)
      modifies this
      ensures
        match OrphanCard(old(Contents()), id)
        case Ok(after) => error == None && Contents() == after
        case Err(e) => error == Some(e) && Contents() == old(Contents())
    {
      if id !in cards {
        return Some(NoSuchCard);
      }
      var card := cards[id];
      cards := cards[id := card.(state := NotificationState.Orphaned, message := None, pinned := false,
                                 dedupeKey := OrphanedKey(card.id, card.dedupeKey))];
      error := None;
    }

    // Answers every card that shows the alert, if the acknowledgement changed anything.
    method Acknowledge(fingerprint: Fingerprint, revoke: bool, at: int) returns (changed: bool)
      requires forall id :: id in cards ==> id < nextCard
      modifies this
      ensures Contents() == AcknowledgeAlert(old(Contents()), fingerprint, revoke, at)
      ensures changed <==> revoke == (fingerprint in old(acks))
    {
      changed := revoke == (fingerprint in acks);
      if !changed {
        return;
      }
      acks := if revoke then acks - {fingerprint} else acks + {fingerprint};
      cards := AnswerAll(cards, nextCard, fingerprint, if revoke then Trigger.AckRevoked else Trigger.Acknowledged, !revoke, at);
    }

    // Row by row, in the order of ids.
    static method AnswerAll(
      before: CardTable, next: CardId, fingerprint: Fingerprint, trigger: Trigger, held: bool, at: int)
      returns (rows: CardTable)
      requires forall id :: id in before ==> id < next
      ensures rows == map id | id in before :: Answered(before[id], fingerprint, trigger, held, at)
    {
      rows := before;
      for id := 0 to next
        invariant rows.Keys == before.Keys
        invariant forall k :: k in rows ==>
          rows[k] == if k < id then Answered(before[k], fingerprint, trigger, held, at) else before[k]
      {
        if id in rows {
          var answered := AnswerOne(rows[id], fingerprint, trigger, held, at);
          rows := rows[id := answered];
        }
      }
    }

    static method AnswerOne(card: Notification, fingerprint: Fingerprint, trigger: Trigger, held: bool, at: int)
      returns (after: Notification)
      ensures after == Answered(card, fingerprint, trigger, held, at)
    {
      after := card;
      if Answers(card, fingerprint) {
        var next := NextState(card.state, trigger, held);
        if next.Some? {
          after := Moved(card, next.value, at);
        }
      }
    }
  }

  lemma {:induction false} AddingStopsAtTheFirstError(t: Tables, planned: seq<PlannedCard>, n: nat)
    requires n <= |planned| && AddCards(t, planned[..n]).Err?
    ensures AddCards(t, planned) == AddCards(t, planned[..n])
    decreases |planned|
  {
    if n < |planned| {
      assert planned[..|planned| - 1][..n] == planned[..n];
      AddingStopsAtTheFirstError(t, planned[..|planned| - 1], n);
    } else {
      assert planned[..n] == planned;
    }
  }

  lemma {:induction false} UpdatingStopsAtTheFirstError(t: Tables, updates: seq<CardUpdate>, at: int, n: nat)
    requires n <= |updates| && ApplyUpdates(t, updates[..n], at).Err?
    ensures ApplyUpdates(t, updates, at) == ApplyUpdates(t, updates[..n], at)
    decreases |updates|
  {
    if n < |updates| {
      assert updates[..|updates| - 1][..n] == updates[..n];
      UpdatingStopsAtTheFirstError(t, updates[..|updates| - 1], at, n);
    } else {
      assert updates[..n] == updates;
    }
  }
}
