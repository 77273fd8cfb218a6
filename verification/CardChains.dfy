/** All the cards of one channel and key: one chain, each replacing the one before. */
module CardChains {
  import opened Wrappers
  import opened States
  import opened Labels
  import opened DedupeKeys
  import opened Alerts
  import opened Routing
  import opened Storm
  import opened Effects
  import opened Decide
  import opened Cards
  import opened CardFacts
  import opened CardStore
  import opened CardRuns
  import opened CardKeys

  // Where a card stands or stood: its channel, and the key it holds or gave up.
  function Place(card: Notification): (nat, DedupeKey) {
    (card.channel, LivePart(card.dedupeKey))
  }

  lemma LiveKeysStand(key: DedupeKey)
    requires LiveKey(key)
    ensures LivePart(key) == key
  {
    var scope :| WellFormed(scope) && key == KeyOf(scope);
    ConstructedKeysAreLive(scope);
  }

  lemma GivingUpAKeyKeepsThePlace(card: Notification, key: DedupeKey)
    requires LiveKey(key) && card.dedupeKey == key
    ensures Place(Retired(card, key)) == Place(card) && !LiveKey(Retired(card, key).dedupeKey)
  {
    LiveKeysStand(key);
    RetiringKeepsTheLivePart(card.id, key);
    if LiveKey(SupersededKey(card.id, key)) {
      LiveKeysAreNotRetired(SupersededKey(card.id, key));
    }
  }

  type Spot = (nat, DedupeKey)

  // What a chain is made of: where a card stands, whether it holds its key, whom it replaced, and when
  // it came and resolved.
  datatype Seat = Seat(spot: Spot, live: bool, supersedes: Option<CardId>, createdAt: int, resolvedAt: Option<int>)

  type Seats = map<CardId, Seat>

  ghost function SeatOf(card: Notification): Seat {
    Seat(Place(card), LiveKey(card.dedupeKey), card.supersedes, card.createdAt,
         if card.state.Resolved? then card.resolvedAt else None)
  }

  ghost function SeatsOf(cards: CardTable): Seats {
    map id | id in cards :: SeatOf(cards[id])
  }

  // The cards of one place.
  function Row(seats: Seats, spot: Spot): Seats {
    map id | id in seats && seats[id].spot == spot :: seats[id]
  }

  predicate Replaces(row: Seats, newer: CardId, older: CardId) {
    newer in row && row[newer].supersedes == Some(older)
  }

  ghost predicate HasSuccessor(row: Seats, id: CardId) {
    exists newer :: Replaces(row, newer, id)
  }

  predicate IsNewest(row: Seats, id: CardId) {
    forall other :: other in row ==> other <= id
  }

  // Two cards with none between them.
  predicate Neighbours(row: Seats, older: CardId, newer: CardId) {
    && older in row && newer in row && older < newer
    && forall other :: other in row ==> other <= older || newer <= other
  }

  // Links join neighbours, and only the newest card holds the key.
  ghost predicate Chained(row: Seats, next: CardId) {
    && (forall id :: id in row ==> id < next)
    && (forall id :: id in row && row[id].live ==> IsNewest(row, id))
    && (forall id :: id in row && !row[id].live ==> HasSuccessor(row, id))
    && (forall newer, older :: Replaces(row, newer, older) ==> Neighbours(row, older, newer))
  }

  // The newer card came more than a regroup window after the older one resolved and gave its key up.
  predicate Follows(row: Seats, older: CardId, newer: Seat, regroup: int) {
    older in row && !row[older].live && row[older].resolvedAt.Some? && newer.createdAt - row[older].resolvedAt.value > regroup
  }

  predicate Spaced(row: Seats, regroup: int) {
    forall id :: id in row && row[id].supersedes.Some? ==> Follows(row, row[id].supersedes.value, row[id], regroup)
  }

  // Ids follow the order of creation, and no card was created after `clock`.
  predicate Dated(row: Seats, clock: int) {
    && (forall a, b :: a in row && b in row && a <= b ==> row[a].createdAt <= row[b].createdAt)
    && (forall id :: id in row ==> row[id].createdAt <= clock)
  }

  ghost predicate Settled(row: Seats, next: CardId, regroup: int, clock: int) {
    Chained(row, next) && Spaced(row, regroup) && Dated(row, clock)
  }

  // A place with a card in it has a holder.
  lemma {:induction false} PlacesAreHeld(row: Seats, next: CardId, id: CardId) returns (holder: CardId)
    requires Chained(row, next) && id in row
    ensures holder in row && row[holder].live
    decreases next - id
  {
    if row[id].live {
      holder := id;
    } else {
      assert HasSuccessor(row, id);
      var newer :| Replaces(row, newer, id);
      assert Neighbours(row, id, newer);
      holder := PlacesAreHeld(row, next, newer);
    }
  }

  lemma SuccessorsStay(row: Seats, after: Seats, id: CardId)
    requires HasSuccessor(row, id) && forall o :: o in row ==> o in after && after[o].supersedes == row[o].supersedes
    ensures HasSuccessor(after, id)
  {
    var newer :| Replaces(row, newer, id);
    assert Replaces(after, newer, id);
  }

  lemma StartingAPlace(row: Seats, next: CardId, seat: Seat, regroup: int, clock: int)
    requires Settled(row, next, regroup, clock) && forall id :: id in row ==> !row[id].live
    requires seat.live && seat.supersedes.None?
    ensures Settled(row[next := seat], next + 1, regroup, seat.createdAt)
  {
    forall id | id in row ensures false {
      var holder := PlacesAreHeld(row, next, id);
    }
  }

  function Continued(row: Seats, next: CardId, seat: Seat, older: CardId): Seats
    requires older in row
  {
    row[older := row[older].(live := false)][next := seat]
  }

  lemma ContinuingAPlace(row: Seats, next: CardId, seat: Seat, older: CardId, regroup: int, clock: int)
    requires Settled(row, next, regroup, clock) && older in row && row[older].live && row[older].resolvedAt.Some?
    requires seat.live && seat.supersedes == Some(older) && clock <= seat.createdAt
    requires seat.createdAt - row[older].resolvedAt.value > regroup
    ensures Settled(Continued(row, next, seat, older), next + 1, regroup, seat.createdAt)
  {
    ContinuedChain(row, next, seat, older);
    ContinuedSpacing(row, next, seat, older, regroup);
    ContinuedDates(row, next, seat, older, clock);
  }

  lemma ContinuedSpacing(row: Seats, next: CardId, seat: Seat, older: CardId, regroup: int)
    requires Spaced(row, regroup) && older in row && row[older].live && row[older].resolvedAt.Some? && next !in row
    requires seat.supersedes == Some(older) && seat.createdAt - row[older].resolvedAt.value > regroup
    ensures Spaced(Continued(row, next, seat, older), regroup)
  {
    var after := Continued(row, next, seat, older);
    forall id | id in after && after[id].supersedes.Some?
      ensures Follows(after, after[id].supersedes.value, after[id], regroup)
    {
      assert id != next ==> Follows(row, row[id].supersedes.value, row[id], regroup);
    }
  }

  lemma ContinuedDates(row: Seats, next: CardId, seat: Seat, older: CardId, clock: int)
    requires Dated(row, clock) && older in row && clock <= seat.createdAt && forall id :: id in row ==> id < next
    ensures Dated(Continued(row, next, seat, older), seat.createdAt)
  {
  }

  lemma ContinuedChain(row: Seats, next: CardId, seat: Seat, older: CardId)
    requires Chained(row, next) && older in row && row[older].live && seat.live && seat.supersedes == Some(older)
    ensures Chained(Continued(row, next, seat, older), next + 1)
  {
    var after := Continued(row, next, seat, older);
    assert IsNewest(row, older);
    forall id | id in after && !after[id].live ensures HasSuccessor(after, id) {
      if id == older {
        assert Replaces(after, next, id);
      } else {
        SuccessorsStay(row, after, id);
      }
    }
    forall newer, before | Replaces(after, newer, before) ensures Neighbours(after, before, newer) {
      assert newer != next ==> Replaces(row, newer, before) && Neighbours(row, before, newer);
    }
  }

  // Rows that agree but for when the holder resolved are settled alike.
  ghost predicate Agree(row: Seats, after: Seats) {
    && after.Keys == row.Keys
    && (forall id :: id in row ==>
          && after[id].live == row[id].live && after[id].supersedes == row[id].supersedes
          && after[id].createdAt == row[id].createdAt && (!row[id].live ==> after[id] == row[id]))
  }

  lemma AgreeingRowsSettle(row: Seats, after: Seats, next: CardId, later: CardId, regroup: int, clock: int)
    requires Settled(row, next, regroup, clock) && Agree(row, after) && next <= later
    ensures Settled(after, later, regroup, clock)
  {
    forall id | id in after && !after[id].live ensures HasSuccessor(after, id) {
      SuccessorsStay(row, after, id);
    }
    forall newer, older | Replaces(after, newer, older) ensures Neighbours(after, older, newer) {
      assert Replaces(row, newer, older) && Neighbours(row, older, newer);
    }
    forall id | id in after && after[id].supersedes.Some?
      ensures Follows(after, after[id].supersedes.value, after[id], regroup)
    {
      assert Follows(row, row[id].supersedes.value, row[id], regroup);
    }
  }

  lemma NextInTheRow(row: Seats, next: CardId, regroup: int, a: CardId, b: CardId) returns (newer: CardId)
    requires Chained(row, next) && Spaced(row, regroup) && a in row && b in row && a < b
    ensures newer in row && row[newer].supersedes == Some(a) && a < newer <= b && Follows(row, a, row[newer], regroup)
  {
    assert !IsNewest(row, a);
    assert HasSuccessor(row, a);
    newer :| Replaces(row, newer, a);
    assert Neighbours(row, a, newer);
  }

  // ---- What holds at a place

  ghost predicate Orderly(t: Tables, spot: Spot, regroup: int, clock: int) {
    KeysSound(t) && LiveKey(spot.1) && Settled(Row(SeatsOf(t.cards), spot), t.nextCard, regroup, clock)
  }

  lemma RowHere(seats: Seats, id: CardId, seat: Seat)
    ensures Row(seats[id := seat], seat.spot) == Row(seats, seat.spot)[id := seat]
  {
  }

  lemma RowElsewhere(seats: Seats, id: CardId, seat: Seat, spot: Spot)
    requires seat.spot != spot && (id in seats ==> seats[id].spot != spot)
    ensures Row(seats[id := seat], spot) == Row(seats, spot)
  {
  }

  lemma SeatOfAHolder(card: Notification)
    requires LiveKey(card.dedupeKey)
    ensures SeatOf(card).spot == (card.channel, card.dedupeKey) && SeatOf(card).live
  {
    LiveKeysStand(card.dedupeKey);
  }

  lemma InsertedSeats(cards: CardTable, card: Notification)
    ensures SeatsOf(cards[card.id := card]) == SeatsOf(cards)[card.id := SeatOf(card)]
  {
  }

  // Retiring takes the key from its holder, and does nothing to a card that has another.
  lemma RetiredSeats(cards: CardTable, older: CardId, key: DedupeKey)
    requires older in cards && LiveKey(key)
    ensures
      SeatsOf(Retire(cards, Some(older), key)) ==
      if cards[older].dedupeKey == key then SeatsOf(cards)[older := SeatOf(cards[older]).(live := false)]
      else SeatsOf(cards)
  {
    if cards[older].dedupeKey == key {
      GivingUpAKeyKeepsThePlace(cards[older], key);
    } else {
      assert Retire(cards, Some(older), key) == cards;
    }
  }

  // ---- One card added

  predicate Stands(planned: PlannedCard, spot: Spot) {
    (planned.card.channel, planned.card.dedupeKey) == spot
  }

  // A plan under a live key, for a channel in which it takes over from a card with a live key if from
  // any. At the place itself it takes over only from the outlived holder of the same key.
  ghost predicate PlannedHere(cards: CardTable, planned: PlannedCard, spot: Spot, regroup: int, at: int) {
    && LiveKey(planned.card.dedupeKey) && planned.card.state.IsOpen()
    && (planned.card.supersedes.Some? ==>
          var older := planned.card.supersedes.value;
          && older in cards && cards[older].channel == planned.card.channel && LiveKey(cards[older].dedupeKey))
    && (Stands(planned, spot) ==> planned.card.createdAt == at)
    && (Stands(planned, spot) && planned.card.supersedes.Some? ==>
          var older := planned.card.supersedes.value;
          && cards[older].dedupeKey == planned.card.dedupeKey && cards[older].state.Resolved?
          && cards[older].resolvedAt.Some? && at - cards[older].resolvedAt.value > regroup)
  }

  predicate SameChannel(cards: CardTable, planned: PlannedCard) {
    planned.card.supersedes.Some? && planned.card.supersedes.value in cards ==>
      cards[planned.card.supersedes.value].channel == planned.card.channel
  }

  lemma AddedSeats(t: Tables, planned: PlannedCard)
    requires AddCard(t, planned).Ok?
    ensures
      SeatsOf(AddCard(t, planned).value.cards)
      == SeatsOf(Retire(t.cards, planned.card.supersedes, planned.card.dedupeKey))[
           t.nextCard := SeatOf(NewCard(t.nextCard, planned.card))]
  {
    InsertedSeats(Retire(t.cards, planned.card.supersedes, planned.card.dedupeKey), NewCard(t.nextCard, planned.card));
  }

  // A card elsewhere leaves the place as it is.
  lemma RetiringElsewhere(cards: CardTable, planned: PlannedCard, spot: Spot)
    requires LiveKey(planned.card.dedupeKey) && !Stands(planned, spot) && SameChannel(cards, planned)
    ensures
      Row(SeatsOf(Retire(cards, planned.card.supersedes, planned.card.dedupeKey)), spot) == Row(SeatsOf(cards), spot)
  {
    if planned.card.supersedes.Some? && planned.card.supersedes.value in cards {
      var older := planned.card.supersedes.value;
      RetiredSeats(cards, older, planned.card.dedupeKey);
      if cards[older].dedupeKey == planned.card.dedupeKey {
        SeatOfAHolder(cards[older]);
        RowElsewhere(SeatsOf(cards), older, SeatOf(cards[older]).(live := false), spot);
      }
    }
  }

  lemma ElsewhereIsOrderly(t: Tables, planned: PlannedCard, spot: Spot, regroup: int, clock: int)
    requires Orderly(t, spot, regroup, clock) && LiveKey(planned.card.dedupeKey) && planned.card.state.IsOpen()
    requires !Stands(planned, spot) && SameChannel(t.cards, planned) && AddCard(t, planned).Ok?
    ensures Orderly(AddCard(t, planned).value, spot, regroup, clock)
  {
    var rows := Retire(t.cards, planned.card.supersedes, planned.card.dedupeKey);
    var card := NewCard(t.nextCard, planned.card);
    AddingKeepsKeys(t, planned);
    AddedSeats(t, planned);
    SeatOfAHolder(card);
    RetiringElsewhere(t.cards, planned, spot);
    assert t.nextCard !in SeatsOf(rows);
    RowElsewhere(SeatsOf(rows), t.nextCard, SeatOf(card), spot);
    AgreeingRowsSettle(Row(SeatsOf(t.cards), spot), Row(SeatsOf(t.cards), spot), t.nextCard, t.nextCard + 1, regroup, clock);
  }

  lemma NobodyHolds(cards: CardTable, spot: Spot)
    requires !Taken(cards, spot.0, spot.1)
    ensures forall id :: id in Row(SeatsOf(cards), spot) ==> !SeatsOf(cards)[id].live
  {
    forall id | id in cards && SeatOf(cards[id]).spot == spot ensures !SeatOf(cards[id]).live {
      if LiveKey(cards[id].dedupeKey) {
        SeatOfAHolder(cards[id]);
      }
    }
  }

  lemma StartIsOrderly(t: Tables, planned: PlannedCard, spot: Spot, regroup: int, clock: int, at: int)
    requires Orderly(t, spot, regroup, clock) && PlannedHere(t.cards, planned, spot, regroup, at)
    requires Stands(planned, spot) && planned.card.supersedes.None? && AddCard(t, planned).Ok?
    ensures Orderly(AddCard(t, planned).value, spot, regroup, at)
  {
    var seat := SeatOf(NewCard(t.nextCard, planned.card));
    AddingKeepsKeys(t, planned);
    AddedSeats(t, planned);
    SeatOfAHolder(NewCard(t.nextCard, planned.card));
    NobodyHolds(t.cards, spot);
    StartingAPlace(Row(SeatsOf(t.cards), spot), t.nextCard, seat, regroup, clock);
    RowHere(SeatsOf(t.cards), t.nextCard, seat);
  }

  lemma ContinuationIsOrderly(t: Tables, planned: PlannedCard, spot: Spot, regroup: int, clock: int, at: int, older: CardId)
    requires Orderly(t, spot, regroup, clock) && PlannedHere(t.cards, planned, spot, regroup, at) && clock <= at
    requires Stands(planned, spot) && planned.card.supersedes == Some(older) && AddCard(t, planned).Ok?
    ensures Orderly(AddCard(t, planned).value, spot, regroup, at)
  {
    var seats, seat := SeatsOf(t.cards), SeatOf(NewCard(t.nextCard, planned.card));
    AddingKeepsKeys(t, planned);
    AddedSeats(t, planned);
    SeatOfAHolder(NewCard(t.nextCard, planned.card));
    SeatOfAHolder(t.cards[older]);
    RetiredSeats(t.cards, older, planned.card.dedupeKey);
    ContinuingAPlace(Row(seats, spot), t.nextCard, seat, older, regroup, clock);
    RowHere(seats, older, seats[older].(live := false));
    RowHere(seats[older := seats[older].(live := false)], t.nextCard, seat);
  }

  // ---- One decision applied

  // Since the decision was taken, a card gave its key up, and somebody else has it.
  ghost predicate GaveUp(card: Notification, after: CardTable) {
    && card.id in after && after[card.id] == card.(dedupeKey := SupersededKey(card.id, card.dedupeKey))
    && Taken(after, card.channel, card.dedupeKey)
  }

  ghost predicate Aged(before: CardTable, after: CardTable) {
    forall id :: id in before ==> id == before[id].id && id in after && (after[id] == before[id] || GaveUp(before[id], after))
  }

  lemma AddingAges(t: Tables, before: Tables, last: PlannedCard, spot: Spot, regroup: int, at: int)
    requires KeysSound(t) && KeysSound(before) && Aged(t.cards, before.cards)
    requires PlannedHere(t.cards, last, spot, regroup, at) && AddCard(before, last).Ok?
    ensures Aged(t.cards, AddCard(before, last).value.cards)
  {
    LiveKeysAreNotRetired(last.card.dedupeKey);
    forall id | id in t.cards
      ensures AddCard(before, last).value.cards[id] == t.cards[id] || GaveUp(t.cards[id], AddCard(before, last).value.cards)
    {
      StillTaken(before, last, t.cards[id].channel, t.cards[id].dedupeKey);
      if last.card.supersedes == Some(id) && before.cards[id].dedupeKey == last.card.dedupeKey {
        assert AddCard(before, last).value.cards[before.nextCard].dedupeKey == last.card.dedupeKey;
      }
    }
  }

  // Whoever gave its key up is not taken over again: by now the key is somebody else's.
  lemma StillTheHolder(t: Tables, before: Tables, last: PlannedCard, spot: Spot, regroup: int, at: int)
    requires KeysSound(t) && Aged(t.cards, before.cards) && PlannedHere(t.cards, last, spot, regroup, at)
    requires Stands(last, spot) && last.card.supersedes.Some? && AddCard(before, last).Ok?
    ensures before.cards[last.card.supersedes.value] == t.cards[last.card.supersedes.value]
  {
    var older := last.card.supersedes.value;
    LiveKeysAreNotRetired(last.card.dedupeKey);
    assert before.cards[older].dedupeKey != last.card.dedupeKey ==>
      Retire(before.cards, Some(older), last.card.dedupeKey) == before.cards;
  }

  ghost predicate Later(clock: int, at: int, planned: PlannedCard, spot: Spot) {
    Stands(planned, spot) ==> clock <= at
  }

  function Latest(a: int, b: int): int {
    if a < b then b else a
  }

  lemma LaterClocksDo(t: Tables, spot: Spot, regroup: int, clock: int, later: int)
    requires Orderly(t, spot, regroup, clock) && clock <= later
    ensures Orderly(t, spot, regroup, later)
  {
    assert Dated(Row(SeatsOf(t.cards), spot), later);
  }

  lemma AddingOneIsOrderly(t: Tables, before: Tables, last: PlannedCard, spot: Spot, regroup: int, clock: int, at: int)
    requires KeysSound(t) && Orderly(before, spot, regroup, clock) && Aged(t.cards, before.cards)
    requires PlannedHere(t.cards, last, spot, regroup, at) && Later(clock, at, last, spot) && AddCard(before, last).Ok?
    ensures Orderly(AddCard(before, last).value, spot, regroup, Latest(clock, at))
  {
    if !Stands(last, spot) {
      ElsewhereIsOrderly(before, last, spot, regroup, clock);
      LaterClocksDo(AddCard(before, last).value, spot, regroup, clock, Latest(clock, at));
    } else if last.card.supersedes.None? {
      StartIsOrderly(before, last, spot, regroup, clock, at);
    } else {
      StillTheHolder(t, before, last, spot, regroup, at);
      ContinuationIsOrderly(before, last, spot, regroup, clock, at, last.card.supersedes.value);
    }
  }

  lemma {:induction false} AddingAllIsOrderly(t: Tables, planned: seq<PlannedCard>, spot: Spot, regroup: int, clock: int, at: int)
    requires Orderly(t, spot, regroup, clock) && AddCards(t, planned).Ok?
    requires forall p :: p in planned ==> PlannedHere(t.cards, p, spot, regroup, at) && Later(clock, at, p, spot)
    ensures Orderly(AddCards(t, planned).value, spot, regroup, Latest(clock, at))
    ensures Aged(t.cards, AddCards(t, planned).value.cards)
    ensures forall id :: id in t.cards && (forall p :: p in planned ==> p.card.supersedes != Some(id)) ==>
      AddCards(t, planned).value.cards[id] == t.cards[id]
  {
    if planned == [] {
      LaterClocksDo(t, spot, regroup, clock, Latest(clock, at));
    } else {
      var rest, last := planned[..|planned| - 1], planned[|planned| - 1];
      assert last in planned;
      AddingAllIsOrderly(t, rest, spot, regroup, clock, at);
      var before := AddCards(t, rest).value;
      AddingAges(t, before, last, spot, regroup, at);
      AddingOneIsOrderly(t, before, last, spot, regroup, Latest(clock, at), at);
      AddingLeavesOthers(before, last);
    }
  }

  lemma AddingLeavesOthers(before: Tables, last: PlannedCard)
    requires KeysSound(before) && AddCard(before, last).Ok?
    ensures forall id :: id in before.cards && last.card.supersedes != Some(id) ==>
      id in AddCard(before, last).value.cards && AddCard(before, last).value.cards[id] == before.cards[id]
  {
  }

  // A write that leaves key, channel, link and date alone.
  predicate SameLinks(was: Notification, now: Notification) {
    && now.dedupeKey == was.dedupeKey && now.channel == was.channel
    && now.supersedes == was.supersedes && now.createdAt == was.createdAt
  }

  predicate SameResolution(was: Notification, now: Notification) {
    (now.state.Resolved? <==> was.state.Resolved?) && (was.state.Resolved? ==> now.resolvedAt == was.resolvedAt)
  }

  lemma SameLinksSameSeat(was: Notification, now: Notification)
    requires SameLinks(was, now)
    ensures SeatOf(now).spot == SeatOf(was).spot && SeatOf(now).live == SeatOf(was).live
    ensures SeatOf(now).supersedes == SeatOf(was).supersedes && SeatOf(now).createdAt == SeatOf(was).createdAt
    ensures SameResolution(was, now) ==> SeatOf(now) == SeatOf(was)
  {
  }

  // Seat by seat: a table whose every seat agrees with what it was.
  lemma SeatsThatAgree(seats: Seats, after: Seats, spot: Spot)
    requires after.Keys == seats.Keys
    requires forall id :: id in seats ==>
      && after[id].spot == seats[id].spot && after[id].live == seats[id].live
      && after[id].supersedes == seats[id].supersedes && after[id].createdAt == seats[id].createdAt
      && (!seats[id].live ==> after[id] == seats[id])
    ensures Agree(Row(seats, spot), Row(after, spot))
  {
  }

  lemma SameLinksAreOrderly(t: Tables, after: Tables, spot: Spot, regroup: int, clock: int)
    requires Orderly(t, spot, regroup, clock) && KeysSound(after)
    requires after.cards.Keys == t.cards.Keys && after.nextCard == t.nextCard
    requires forall id :: id in t.cards ==> SameLinks(t.cards[id], after.cards[id])
    requires forall id :: id in t.cards && !LiveKey(t.cards[id].dedupeKey) ==> SameResolution(t.cards[id], after.cards[id])
    ensures Orderly(after, spot, regroup, clock)
  {
    var seats, now := SeatsOf(t.cards), SeatsOf(after.cards);
    forall id | id in seats
      ensures
        && now[id].spot == seats[id].spot && now[id].live == seats[id].live
        && now[id].supersedes == seats[id].supersedes && now[id].createdAt == seats[id].createdAt
        && (!seats[id].live ==> now[id] == seats[id])
    {
      SameLinksSameSeat(t.cards[id], after.cards[id]);
    }
    SeatsThatAgree(seats, now, spot);
    AgreeingRowsSettle(Row(seats, spot), Row(now, spot), t.nextCard, t.nextCard, regroup, clock);
  }

  lemma {:induction false} UpdatesKeepLinks(t: Tables, updates: seq<CardUpdate>, at: int)
    requires ApplyUpdates(t, updates, at).Ok?
    ensures
      var after := ApplyUpdates(t, updates, at).value;
      && after.cards.Keys == t.cards.Keys && after.nextCard == t.nextCard
      && (forall id :: id in t.cards ==> SameLinks(t.cards[id], after.cards[id]))
      && forall id :: id in t.cards && (forall u :: u in updates ==> u.id != id) ==> after.cards[id] == t.cards[id]
  {
    if updates != [] {
      var rest, last := updates[..|updates| - 1], updates[|updates| - 1];
      assert last in updates;
      UpdatesKeepLinks(t, rest, at);
    }
  }

  // What one decision may ask of the store, as far as the place goes.
  ghost predicate DecidedHere(cards: CardTable, d: Decision, spot: Spot, regroup: int, clock: int) {
    && KeyedDecision(cards, d)
    && (forall p :: p in d.newCards ==> PlannedHere(cards, p, spot, regroup, d.at) && Later(clock, d.at, p, spot))
    && (forall p, u :: p in d.newCards && u in d.updates ==> p.card.supersedes != Some(u.id))
  }

  // Updates of cards that hold their keys leave the others as they are.
  lemma UpdatesAreOrderly(added: Tables, updates: seq<CardUpdate>, at: int, spot: Spot, regroup: int, clock: int)
    requires Orderly(added, spot, regroup, clock) && ApplyUpdates(added, updates, at).Ok?
    requires forall u :: u in updates ==> UpdatesSoundly(added.cards, u)
    ensures Orderly(ApplyUpdates(added, updates, at).value, spot, regroup, clock)
  {
    var after := ApplyUpdates(added, updates, at).value;
    UpdatingKeepsKeys(added, updates, at);
    UpdatesKeepLinks(added, updates, at);
    forall id | id in added.cards && !LiveKey(added.cards[id].dedupeKey) ensures after.cards[id] == added.cards[id] {
      assert forall u :: u in updates ==> u.id != id;
    }
    SameLinksAreOrderly(added, after, spot, regroup, clock);
  }

  lemma DecisionsAreOrderly(t: Tables, d: Decision, spot: Spot, regroup: int, clock: int)
    requires Orderly(t, spot, regroup, clock) && DecidedHere(t.cards, d, spot, regroup, clock) && ApplyDecision(t, d).Ok?
    ensures Orderly(ApplyDecision(t, d).value, spot, regroup, Latest(clock, d.at))
  {
    AddingAllIsOrderly(t, d.newCards, spot, regroup, clock, d.at);
    var added := AddCards(t, d.newCards).value;
    forall u | u in d.updates ensures UpdatesSoundly(added.cards, u) {
      assert UpdatesSoundly(t.cards, u);
      assert forall p :: p in d.newCards ==> p.card.supersedes != Some(u.id);
    }
    UpdatesAreOrderly(added, d.updates, d.at, spot, regroup, Latest(clock, d.at));
  }

  // ---- What a route decides at the place

  // A route that could create a card at the place looks for no other key there, waits at least the
  // regroup window, and does not go back in time. A storm puts a route's cards under a digest key, so
  // it never makes a route of one alert or one group create a card under that alert's or group's key.
  predicate QuietRoute(
    alert: Alert, route: Route, storm: StormState, settings: DecisionSettings, now: int, spot: Spot, regroup: int, clock: int)
  {
    var keys := DedupeKeysFor(alert, route, storm, settings, now);
    (route.DeliveryChannel(), keys[|keys| - 1]) == spot ==>
      keys == [spot.1] && regroup <= settings.regroupWindow && clock <= now
  }

  ghost predicate OutcomeHere(
    cards: CardTable, outcome: Outcome, alert: Alert, settings: DecisionSettings, now: int, spot: Spot, regroup: int, clock: int)
  {
    match outcome
    case Nothing => true
    case Create(p) =>
      && PlannedHere(cards, p, spot, regroup, now) && Later(clock, now, p, spot)
      && (p.card.supersedes.Some? ==> Outlived(cards[p.card.supersedes.value], alert, settings, now))
    case Update(u) => UpdatesSoundly(cards, u) && !Outlived(cards[u.id], alert, settings, now)
  }

  lemma CreationsAreHere(
    t: Tables, delta: AlertDelta, route: Route, snapshot: RoutingSnapshot, storm: StormState,
    context: AlertContext, settings: DecisionSettings, now: int, spot: Spot, regroup: int, clock: int)
    requires KeysSound(t) && Fits([route], settings, now)
    requires QuietRoute(delta.alert, route, storm, settings, now, spot, regroup, clock)
    requires DecideRoute(delta, route, snapshot, storm, Existing(t.cards), context, settings, now).Create?
    ensures
      OutcomeHere(t.cards, DecideRoute(delta, route, snapshot, storm, Existing(t.cards), context, settings, now),
                  delta.alert, settings, now, spot, regroup, clock)
  {
    ConfiguredKeysAreLive(delta.alert, route, settings, now);
    PlannedKeyIsTheLast(delta, route, snapshot, storm, Existing(t.cards), context, settings, now);
    HeldIsFound(DedupeKeysFor(delta.alert, route, storm, settings, now), route.DeliveryChannel(), t, delta.alert, settings, now);
  }

  lemma UpdatesAreHere(
    t: Tables, delta: AlertDelta, route: Route, snapshot: RoutingSnapshot, storm: StormState,
    context: AlertContext, settings: DecisionSettings, now: int, spot: Spot, regroup: int, clock: int)
    requires KeysSound(t) && Fits([route], settings, now)
    requires DecideRoute(delta, route, snapshot, storm, Existing(t.cards), context, settings, now).Update?
    ensures
      OutcomeHere(t.cards, DecideRoute(delta, route, snapshot, storm, Existing(t.cards), context, settings, now),
                  delta.alert, settings, now, spot, regroup, clock)
  {
    var keys := DedupeKeysFor(delta.alert, route, storm, settings, now);
    RoutesDecideKeyed(t, delta, route, snapshot, storm, context, settings, now);
    HeldIsFound(keys, route.DeliveryChannel(), t, delta.alert, settings, now);
    UpdatesAreForTheHeld(delta, route, snapshot, storm, Existing(t.cards), context, settings, now);
  }

  lemma UpdatesAreForTheHeld(
    delta: AlertDelta, route: Route, snapshot: RoutingSnapshot, storm: StormState, existing: ExistingCards,
    context: AlertContext, settings: DecisionSettings, now: int)
    requires DecideRoute(delta, route, snapshot, storm, existing, context, settings, now).Update?
    ensures
      var keys := DedupeKeysFor(delta.alert, route, storm, settings, now);
      var held := Held(keys, route.DeliveryChannel(), existing, delta.alert, settings, now).0;
      held.Some? && DecideRoute(delta, route, snapshot, storm, existing, context, settings, now).update.id == held.value.id
  {
  }

  ghost predicate OutcomesHere(
    cards: CardTable, d: Decision, alert: Alert, settings: DecisionSettings, now: int, spot: Spot, regroup: int, clock: int)
  {
    && (forall p :: p in d.newCards ==> OutcomeHere(cards, Create(p), alert, settings, now, spot, regroup, clock))
    && (forall u :: u in d.updates ==> OutcomeHere(cards, Update(u), alert, settings, now, spot, regroup, clock))
  }

  lemma OneMoreHere(
    cards: CardTable, d: Decision, outcome: Outcome, alert: Alert, settings: DecisionSettings, now: int, spot: Spot,
    regroup: int, clock: int)
    requires OutcomesHere(cards, d, alert, settings, now, spot, regroup, clock)
    requires OutcomeHere(cards, outcome, alert, settings, now, spot, regroup, clock)
    ensures OutcomesHere(cards, Extended(d, outcome), alert, settings, now, spot, regroup, clock)
  {
  }

  lemma {:induction false} DecidingIsHere(
    t: Tables, delta: AlertDelta, routes: seq<Route>, snapshot: RoutingSnapshot, storm: StormState,
    context: AlertContext, settings: DecisionSettings, now: int, spot: Spot, regroup: int, clock: int)
    requires KeysSound(t) && Fits(routes, settings, now)
    requires forall r :: r in routes ==> QuietRoute(delta.alert, r, storm, settings, now, spot, regroup, clock)
    ensures
      var d := DecideRoutes(delta, routes, snapshot, storm, Existing(t.cards), context, settings, now);
      d.at == now && OutcomesHere(t.cards, d, delta.alert, settings, now, spot, regroup, clock)
  {
    if routes != [] {
      var rest, last := routes[..|routes| - 1], routes[|routes| - 1];
      DecidingIsHere(t, delta, rest, snapshot, storm, context, settings, now, spot, regroup, clock);
      assert last in routes;
      var outcome := DecideRoute(delta, last, snapshot, storm, Existing(t.cards), context, settings, now);
      if outcome.Create? {
        CreationsAreHere(t, delta, last, snapshot, storm, context, settings, now, spot, regroup, clock);
      } else if outcome.Update? {
        UpdatesAreHere(t, delta, last, snapshot, storm, context, settings, now, spot, regroup, clock);
      }
      OneMoreHere(
        t.cards, DecideRoutes(delta, rest, snapshot, storm, Existing(t.cards), context, settings, now), outcome,
        delta.alert, settings, now, spot, regroup, clock);
    }
  }

  lemma OutcomesAreDecidedHere(
    cards: CardTable, d: Decision, alert: Alert, settings: DecisionSettings, spot: Spot, regroup: int, clock: int)
    requires OutcomesHere(cards, d, alert, settings, d.at, spot, regroup, clock)
    ensures DecidedHere(cards, d, spot, regroup, clock)
  {
    forall p | p in d.newCards ensures PlannedHere(cards, p, spot, regroup, d.at) && Later(clock, d.at, p, spot) {
      assert OutcomeHere(cards, Create(p), alert, settings, d.at, spot, regroup, clock);
    }
    forall u | u in d.updates ensures UpdatesSoundly(cards, u) {
      assert OutcomeHere(cards, Update(u), alert, settings, d.at, spot, regroup, clock);
    }
    forall p, u | p in d.newCards && u in d.updates ensures p.card.supersedes != Some(u.id) {
      assert OutcomeHere(cards, Create(p), alert, settings, d.at, spot, regroup, clock);
      assert OutcomeHere(cards, Update(u), alert, settings, d.at, spot, regroup, clock);
    }
  }

  // ---- Whole runs

  function ClockAfter(step: CardStep, clock: int): int {
    if step.Changed? then Latest(clock, step.now) else clock
  }

  // A step that leaves the place alone, or creates there only as it should: no card of the place
  // loses its message, and no storm reaches the key.
  ghost predicate QuietHere(t: Tables, step: CardStep, spot: Spot, regroup: int, clock: int) {
    match step
    case Changed(delta, snapshot, storm, _, settings, now) =>
      && Fitting(step)
      && forall r :: r in Resolve(snapshot.routes, delta.alert.labels, delta.alert.severity) ==>
           QuietRoute(delta.alert, r, storm, settings, now, spot, regroup, clock)
    case MessageGone(id) => id in t.cards ==> Place(t.cards[id]) != spot
    case _ => true
  }

  ghost predicate Undisturbed(t: Tables, steps: seq<CardStep>, spot: Spot, regroup: int, clock: int)
    decreases |steps|
  {
    steps == []
    || (OneCardPerKey(t.cards) && QuietHere(t, steps[0], spot, regroup, clock)
        && Undisturbed(NextTables(t, steps[0]), steps[1..], spot, regroup, ClockAfter(steps[0], clock)))
  }

  lemma ChangesAreOrderly(t: Tables, step: CardStep, spot: Spot, regroup: int, clock: int)
    requires step.Changed? && Orderly(t, spot, regroup, clock) && QuietHere(t, step, spot, regroup, clock)
    ensures Orderly(NextTables(t, step), spot, regroup, Latest(clock, step.now))
  {
    var d := DecisionAt(t, step);
    DecidingIsHere(
      t, step.delta, Resolve(step.snapshot.routes, step.delta.alert.labels, step.delta.alert.severity), step.snapshot,
      step.storm, step.context, step.settings, step.now, spot, regroup, clock);
    OutcomesAreDecidedHere(t.cards, d, step.delta.alert, step.settings, spot, regroup, clock);
    if ApplyDecision(t, d).Ok? {
      DecisionsAreOrderly(t, d, spot, regroup, clock);
    } else {
      LaterClocksDo(t, spot, regroup, clock, Latest(clock, step.now));
    }
  }

  lemma AnsweringKeepsLinks(card: Notification, fingerprint: Fingerprint, revoke: bool, at: int)
    ensures
      var now := Answered(card, fingerprint, if revoke then Trigger.AckRevoked else Trigger.Acknowledged, !revoke, at);
      SameLinks(card, now) && SameResolution(card, now)
  {
  }

  lemma AcksAreOrderly(t: Tables, fingerprint: Fingerprint, revoke: bool, at: int, spot: Spot, regroup: int, clock: int)
    requires Orderly(t, spot, regroup, clock)
    ensures Orderly(AcknowledgeAlert(t, fingerprint, revoke, at), spot, regroup, clock)
  {
    var after := AcknowledgeAlert(t, fingerprint, revoke, at);
    AcksKeepKeys(t, fingerprint, revoke, at);
    forall id | id in t.cards ensures SameLinks(t.cards[id], after.cards[id]) && SameResolution(t.cards[id], after.cards[id]) {
      AnsweringKeepsLinks(t.cards[id], fingerprint, revoke, at);
    }
    SameLinksAreOrderly(t, after, spot, regroup, clock);
  }

  lemma WritingKeepsLinks(card: Notification, report: Report)
    ensures SameLinks(card, Written(card, report)) && SameResolution(card, Written(card, report))
  {
  }

  lemma ReportsAreOrderly(t: Tables, id: CardId, report: Report, spot: Spot, regroup: int, clock: int)
    requires Orderly(t, spot, regroup, clock)
    ensures Orderly(WriteReport(t, id, report), spot, regroup, clock)
  {
    var after := WriteReport(t, id, report);
    forall other | other in t.cards
      ensures SameLinks(t.cards[other], after.cards[other]) && SameResolution(t.cards[other], after.cards[other])
    {
      if other == id {
        WritingKeepsLinks(t.cards[id], report);
      }
    }
    SameLinksAreOrderly(t, after, spot, regroup, clock);
  }

  // A card that loses its message elsewhere does not come to the place.
  lemma OrphansStayAway(card: Notification, spot: Spot)
    requires LiveKey(card.dedupeKey) || RetiredKey(card)
    requires Place(card) != spot && LiveKey(spot.1)
    ensures Place(Orphan(card)) != spot
  {
    RetiringKeepsTheLivePart(card.id, card.dedupeKey);
    if LiveKey(card.dedupeKey) {
      LiveKeysStand(card.dedupeKey);
    } else {
      RetiredKeyIsNotLive(card);
    }
  }

  lemma RetiredKeyIsNotLive(card: Notification)
    requires RetiredKey(card)
    ensures !LiveKey(card.dedupeKey)
  {
    if LiveKey(card.dedupeKey) {
      LiveKeysAreNotRetired(card.dedupeKey);
    }
  }

  lemma OrphaningIsOrderly(t: Tables, id: CardId, spot: Spot, regroup: int, clock: int)
    requires Orderly(t, spot, regroup, clock) && id in t.cards && Place(t.cards[id]) != spot
    ensures Orderly(OrphanCard(t, id).value, spot, regroup, clock)
  {
    OrphaningKeepsKeys(t, id);
    OrphansStayAway(t.cards[id], spot);
    InsertedSeats(t.cards, Orphan(t.cards[id]));
    RowElsewhere(SeatsOf(t.cards), id, SeatOf(Orphan(t.cards[id])), spot);
  }

  lemma StepsAreOrderly(t: Tables, step: CardStep, spot: Spot, regroup: int, clock: int)
    requires Orderly(t, spot, regroup, clock) && QuietHere(t, step, spot, regroup, clock)
    ensures Orderly(NextTables(t, step), spot, regroup, ClockAfter(step, clock))
  {
    match step
    case Changed(_, _, _, _, _, _) => ChangesAreOrderly(t, step, spot, regroup, clock);
    case MessageGone(id) =>
      if id in t.cards {
        OrphaningIsOrderly(t, id, spot, regroup, clock);
      }
    case AckMoved(fingerprint, revoke, at) => AcksAreOrderly(t, fingerprint, revoke, at, spot, regroup, clock);
    case EffectDone(id, report) => ReportsAreOrderly(t, id, report, spot, regroup, clock);
  }

  lemma {:induction false} RunsAreOrderly(t: Tables, steps: seq<CardStep>, end: Tables, spot: Spot, regroup: int, clock: int)
    returns (late: int)
    requires Orderly(t, spot, regroup, clock) && Reaches(t, steps, end) && Undisturbed(t, steps, spot, regroup, clock)
    ensures Orderly(end, spot, regroup, late)
    decreases steps
  {
    if steps == [] {
      late := clock;
    } else {
      StepsAreOrderly(t, steps[0], spot, regroup, clock);
      late := RunsAreOrderly(NextTables(t, steps[0]), steps[1..], end, spot, regroup, ClockAfter(steps[0], clock));
    }
  }

  // `b` replaced `a`, directly or through cards that each replaced the one before.
  ghost predicate Descends(cards: CardTable, a: CardId, b: CardId)
    decreases b - a
  {
    exists newer: CardId ::
      && newer in cards && cards[newer].supersedes == Some(a) && a < newer <= b
      && (newer == b || Descends(cards, newer, b))
  }

  lemma {:induction false} PlacesAreChains(t: Tables, spot: Spot, regroup: int, clock: int, a: CardId, b: CardId)
    requires Orderly(t, spot, regroup, clock)
    requires a in t.cards && b in t.cards && a < b && Place(t.cards[a]) == spot == Place(t.cards[b])
    ensures Descends(t.cards, a, b)
    ensures t.cards[a].resolvedAt.Some? && t.cards[b].createdAt - t.cards[a].resolvedAt.value > regroup
    decreases b - a
  {
    var newer := NextOfItsPlace(t, spot, regroup, clock, a, b);
    if newer != b {
      PlacesAreChains(t, spot, regroup, clock, newer, b);
    }
  }

  lemma NextOfItsPlace(t: Tables, spot: Spot, regroup: int, clock: int, a: CardId, b: CardId) returns (newer: CardId)
    requires Orderly(t, spot, regroup, clock)
    requires a in t.cards && b in t.cards && a < b && Place(t.cards[a]) == spot == Place(t.cards[b])
    ensures newer in t.cards && t.cards[newer].supersedes == Some(a) && a < newer <= b && Place(t.cards[newer]) == spot
    ensures t.cards[a].resolvedAt.Some? && t.cards[newer].createdAt - t.cards[a].resolvedAt.value > regroup
    ensures t.cards[newer].createdAt <= t.cards[b].createdAt
  {
    newer := NextInTheRow(Row(SeatsOf(t.cards), spot), t.nextCard, regroup, a, b);
  }

  lemma NothingIsOrderly(spot: Spot, regroup: int, clock: int)
    requires LiveKey(spot.1)
    ensures Orderly(NO_TABLES, spot, regroup, clock)
  {
    assert SeatsOf(NO_TABLES.cards) == map[] && Row(map[], spot) == map[];
  }

  // The cards one channel has had under one key form a single chain, each replacing the one before,
  // whatever storms and deletions happen elsewhere. So of any two the later was created, and its post
  // mentioned whoever it did, more than a regroup window after the earlier one resolved.
  lemma OneChainAPlace(
    steps: seq<CardStep>, end: Tables, spot: Spot, regroup: int, clock: int, a: CardId, b: CardId)
    requires Reaches(NO_TABLES, steps, end) && Undisturbed(NO_TABLES, steps, spot, regroup, clock) && LiveKey(spot.1)
    requires a in end.cards && b in end.cards && a < b && Place(end.cards[a]) == spot == Place(end.cards[b])
    ensures Descends(end.cards, a, b)
    ensures end.cards[a].resolvedAt.Some? && end.cards[b].createdAt - end.cards[a].resolvedAt.value > regroup
  {
    NothingIsOrderly(spot, regroup, clock);
    var late := RunsAreOrderly(NO_TABLES, steps, end, spot, regroup, clock);
    PlacesAreChains(end, spot, regroup, late, a, b);
  }

  // ---- Runs that disturb no place

  // The key of one alert or of one group, which no storm reaches.
  predicate IsOwn(key: DedupeKey) {
    "a:" <= key || "g:" <= key
  }

  // Changes that fit, wait the regroup window and keep to the order of time; no message is deleted.
  ghost predicate Ordinary(steps: seq<CardStep>, regroup: int, clock: int)
    decreases |steps|
  {
    steps == []
    || (!steps[0].MessageGone? && Fitting(steps[0])
        && (steps[0].Changed? ==> regroup <= steps[0].settings.regroupWindow && clock <= steps[0].now)
        && Ordinary(steps[1..], regroup, ClockAfter(steps[0], clock)))
  }

  lemma StormsSpareOwnKeys(
    alert: Alert, route: Route, storm: StormState, settings: DecisionSettings, now: int, spot: Spot, regroup: int, clock: int)
    requires IsOwn(spot.1) && regroup <= settings.regroupWindow && clock <= now
    ensures QuietRoute(alert, route, storm, settings, now, spot, regroup, clock)
  {
    assert DigestKeyAt(route, settings, now)[0] == 'd';
    assert spot.1[0] in {'a', 'g'};
  }

  lemma CalmRoutesAreQuiet(
    alert: Alert, route: Route, storm: StormState, settings: DecisionSettings, now: int, spot: Spot, regroup: int, clock: int)
    requires Quiet([route], storm, settings, now) && regroup <= settings.regroupWindow && clock <= now
    ensures QuietRoute(alert, route, storm, settings, now, spot, regroup, clock)
  {
    QuietRoutesHaveOneLiveKey(alert, route, storm, settings, now);
  }

  // No storm, or a key out of its reach.
  ghost predicate OutOfReach(steps: seq<CardStep>, spot: Spot, regroup: int) {
    IsOwn(spot.1) || forall s :: s in steps ==> Calm(s, regroup)
  }

  lemma {:induction false} OrdinaryRunsAreUndisturbed(
    t: Tables, steps: seq<CardStep>, end: Tables, spot: Spot, regroup: int, clock: int)
    requires Reaches(t, steps, end) && Ordinary(steps, regroup, clock) && OutOfReach(steps, spot, regroup)
    ensures Undisturbed(t, steps, spot, regroup, clock)
    decreases steps
  {
    if steps != [] {
      var step := steps[0];
      if step.Changed? {
        forall r | r in Resolve(step.snapshot.routes, step.delta.alert.labels, step.delta.alert.severity)
          ensures QuietRoute(step.delta.alert, r, step.storm, step.settings, step.now, spot, regroup, clock)
        {
          if IsOwn(spot.1) {
            StormsSpareOwnKeys(step.delta.alert, r, step.storm, step.settings, step.now, spot, regroup, clock);
          } else {
            assert Calm(step, regroup);
            CalmRoutesAreQuiet(step.delta.alert, r, step.storm, step.settings, step.now, spot, regroup, clock);
          }
        }
      }
      OrdinaryRunsAreUndisturbed(NextTables(t, step), steps[1..], end, spot, regroup, ClockAfter(step, clock));
    }
  }

  // So the chain holds at every place while no route storms, and for the key of an alert or of a group
  // through every storm.
  lemma OrdinaryRunsChain(
    steps: seq<CardStep>, end: Tables, spot: Spot, regroup: int, clock: int, a: CardId, b: CardId)
    requires Reaches(NO_TABLES, steps, end) && Ordinary(steps, regroup, clock) && OutOfReach(steps, spot, regroup)
    requires LiveKey(spot.1)
    requires a in end.cards && b in end.cards && a < b && Place(end.cards[a]) == spot == Place(end.cards[b])
    ensures Descends(end.cards, a, b)
    ensures end.cards[a].resolvedAt.Some? && end.cards[b].createdAt - end.cards[a].resolvedAt.value > regroup
  {
    OrdinaryRunsAreUndisturbed(NO_TABLES, steps, end, spot, regroup, clock);
    OneChainAPlace(steps, end, spot, regroup, clock, a, b);
  }
}
