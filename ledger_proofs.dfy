/**
 * Properties of the ledger that relate several calls or hold across all of
 * them: the invariant every endpoint preserves, what the queries agree on,
 * the resale cap's rounding, and the end-to-end scenarios of the canister.
 */
module LedgerProofs {
  import opened Types
  import opened Ledger

  // ------------------------------------------------------------ invariant

  lemma EmptyStoreValid()
    ensures Valid(EmptyStore())
  {
  }

  /** Creating an event under a fresh id keeps the invariant. */
  lemma CreateEventPreservesValid(
    s: Store, caller: Principal, now: U64,
    name: string, date: U64, location: string,
    ticketPrice: nat, totalTickets: nat,
    maxResaleMultiplier: Option<Multiplier>, whitelist: Option<seq<Principal>>,
    randomId: Option<EventId>)
    requires Valid(s)
    requires randomId.Some? ==> randomId.value !in s.events
    ensures Valid(CreateEvent(s, caller, now, name, date, location, ticketPrice, totalTickets,
                              maxResaleMultiplier, whitelist, randomId).store)
  {
    var r := CreateEvent(s, caller, now, name, date, location, ticketPrice, totalTickets,
                         maxResaleMultiplier, whitelist, randomId);
    if r.result.Ok? {
      var s' := r.store;
      forall k | k in s'.tickets ensures TicketValid(k, s'.tickets[k], s'.events) {
        assert TicketValid(k, s.tickets[k], s.events);
        assert s.tickets[k].metadata.eventId != randomId.value;
      }
    }
  }

  /** A purchase keeps the invariant, in particular `tickets_sold <= total_tickets`. */
  lemma PurchasePreservesValid(s: Store, buyer: Principal, now: U64, eventId: EventId, paid: bool)
    requires Valid(s)
    ensures Valid(Purchase(s, buyer, now, eventId, paid).store)
  {
    var r := Purchase(s, buyer, now, eventId, paid);
    if r.result.Ok? {
      var s' := r.store;
      var e, e' := s.events[eventId], s'.events[eventId];
      assert EventValid(eventId, e);
      FundsAfterSale(e.fundsCollected, e.ticketsSold, e.ticketPrice);
      forall x | x in s'.events ensures EventValid(x, s'.events[x]) {
        if x != eventId { assert EventValid(x, s.events[x]); }
      }
      forall k | k in s'.tickets ensures TicketValid(k, s'.tickets[k], s'.events) {
        if k != r.result.value { assert TicketValid(k, s.tickets[k], s.events); }
      }
    }
  }

  lemma FundsAfterSale(funds: nat, sold: nat, price: nat)
    requires funds <= sold * price
    ensures funds + price <= (sold + 1) * price
  {
    assert (sold + 1) * price == sold * price + price;
  }

  /** A transfer keeps the invariant: the history still ends with the owner. */
  lemma TransferPreservesValid(
    s: Store, sender: Principal, now: U64,
    ticketId: nat, newOwner: Principal, salePrice: Option<nat>, paid: bool)
    requires Valid(s)
    ensures Valid(Transfer(s, sender, now, ticketId, newOwner, salePrice, paid).store)
  {
    var r := Transfer(s, sender, now, ticketId, newOwner, salePrice, paid);
    if r.result.Ok? {
      var s' := r.store;
      forall k | k in s'.tickets ensures TicketValid(k, s'.tickets[k], s'.events) {
        assert TicketValid(k, s.tickets[k], s.events);
      }
    }
  }

  /** A withdrawal keeps the invariant; the funds never go negative. */
  lemma WithdrawPreservesValid(s: Store, who: Principal, eventId: EventId, amount: nat, paid: bool)
    requires Valid(s)
    ensures Valid(Withdraw(s, who, eventId, amount, paid).store)
  {
    var r := Withdraw(s, who, eventId, amount, paid);
    if r.result.Ok? {
      var s' := r.store;
      forall x | x in s'.events ensures EventValid(x, s'.events[x]) {
        assert EventValid(x, s.events[x]);
      }
      forall k | k in s'.tickets ensures TicketValid(k, s'.tickets[k], s'.events) {
        assert TicketValid(k, s.tickets[k], s.events);
      }
    }
  }

  /** An event never holds more than the full sell-out revenue. */
  lemma FundsBounded(s: Store, eventId: EventId)
    requires Valid(s)
    requires eventId in s.events
    ensures s.events[eventId].fundsCollected
            <= s.events[eventId].totalTickets * s.events[eventId].ticketPrice
  {
  }

  // ---------------------------------------------------------------- queries

  /**
   * What the queries report about one ticket agrees: the owner is the last
   * principal of the history, and the metadata's event resolves.
   */
  lemma QueriesAgree(s: Store, ticketId: nat)
    requires Valid(s)
    ensures OwnerOf(s, ticketId).Ok? <==> HistoryOf(s, ticketId).Ok?
    ensures OwnerOf(s, ticketId).Ok? ==>
      |HistoryOf(s, ticketId).value| > 0
      && Last(HistoryOf(s, ticketId).value).who == OwnerOf(s, ticketId).value
    ensures MetadataOf(s, ticketId).Ok? ==>
      GetEvent(s, MetadataOf(s, ticketId).value.eventId).Ok?
  {
    if ticketId in s.tickets {
      assert TicketValid(ticketId, s.tickets[ticketId], s.events);
    }
  }

  /**
   * After a successful transfer the ICRC-7 queries report the new owner and
   * the history with one more entry; every other ticket reads the same.
   */
  lemma TransferSeenByQueries(
    s: Store, sender: Principal, now: U64,
    ticketId: nat, newOwner: Principal, salePrice: Option<nat>, paid: bool, other: nat)
    requires Transfer(s, sender, now, ticketId, newOwner, salePrice, paid).result.Ok?
    ensures var s' := Transfer(s, sender, now, ticketId, newOwner, salePrice, paid).store;
      && OwnerOf(s', ticketId) == Ok(newOwner)
      && HistoryOf(s', ticketId) == Ok(HistoryOf(s, ticketId).value + [HistoryEntry(now, newOwner)])
      && MetadataOf(s', ticketId) == MetadataOf(s, ticketId)
      && (other != ticketId ==> GetTicket(s', other) == GetTicket(s, other))
  {
  }

  // ------------------------------------------------------------ resale cap

  /**
   * The cap is the product rounded to the nearest integer (ties upward),
   * unless it saturates at u64::MAX.
   */
  lemma {:induction false} MaxResalePriceIsNearest(base: nat, m: Multiplier)
    requires base <= U64_MAX
    requires m.num > 0
    ensures var r := MaxResalePrice(base, m);
      r < U64_MAX ==> (2 * r - 1) * m.den <= 2 * base * m.num < (2 * r + 1) * m.den
    ensures var r := MaxResalePrice(base, m);
      r == U64_MAX ==> (2 * r - 1) * m.den <= 2 * base * m.num
  {
  }

  /** A declared price within the cap never fails on the cap. */
  lemma {:induction false} CapAdmitsUpToMax(originalPrice: nat, m: Multiplier, price: nat)
    requires originalPrice <= U64_MAX
    ensures CapViolation(originalPrice, Some(m), Some(price)).None?
            <==> price <= MaxResalePrice(originalPrice, m)
    ensures CapViolation(originalPrice, Some(m), Some(price)).Some? ==>
            CapViolation(originalPrice, Some(m), Some(price)).value
              == PriceAboveCap(MaxResalePrice(originalPrice, m))
  {
  }

  // ---------------------------------------------------- repeated purchases

  function Min(a: nat, b: nat): nat {
    if a <= b then a else b
  }

  /**
   * The canister handling one purchase of `eventId` per buyer, in order,
   * each payment going through: the tables afterwards and the number of
   * successful purchases.
   */
  function PurchaseSequence(s: Store, eventId: EventId, buyers: seq<Principal>, now: U64): (Store, nat)
    decreases |buyers|
  {
    if buyers == [] then (s, 0)
    else
      var step := Purchase(s, buyers[0], now, eventId, true);
      var (s', n) := PurchaseSequence(step.store, eventId, buyers[1..], now);
      (s', n + if step.result.Ok? then 1 else 0)
  }

  /**
   * N purchase attempts against an open event with K tickets left succeed
   * exactly min(N, K) times, and `tickets_sold` grows by exactly that much.
   */
  lemma {:induction false} PurchaseSequenceSellsRemaining(
    s: Store, eventId: EventId, buyers: seq<Principal>, now: U64)
    requires eventId in s.events
    requires s.events[eventId].whitelist.None?
    requires s.events[eventId].ticketsSold <= s.events[eventId].totalTickets
    decreases |buyers|
    ensures var (s', n) := PurchaseSequence(s, eventId, buyers, now);
      var e := s.events[eventId];
      && n == Min(|buyers|, e.totalTickets - e.ticketsSold)
      && eventId in s'.events
      && s'.events[eventId].ticketsSold == e.ticketsSold + n
      && s'.events[eventId].totalTickets == e.totalTickets
  {
    if buyers != [] {
      var step := Purchase(s, buyers[0], now, eventId, true);
      PurchaseSequenceSellsRemaining(step.store, eventId, buyers[1..], now);
    }
  }

  // -------------------------------------------------------------- scenarios

  /**
   * One ticket at 100: the first purchase gets ticket 1 and moves the
   * counters to 1 and 100; the second is refused as sold out.
   */
  lemma SoldOutScenario(s: Store, organizer: Principal, buyer1: Principal, buyer2: Principal, now: U64, id: EventId)
    requires now < U64_MAX
    ensures
      var c := CreateEvent(s, organizer, now, "Gala", now + 1, "Hall", 100, 1, None, None, Some(id));
      var p1 := Purchase(c.store, buyer1, now, id, true);
      var p2 := Purchase(p1.store, buyer2, now, id, true);
      && c.result == Ok(id)
      && p1.result == Ok(1)
      && p1.store.events[id].ticketsSold == 1
      && p1.store.events[id].fundsCollected == 100
      && p2.result == Err(SoldOut)
      && p2.store == p1.store
  {
    AsciiUtf8Length("Gala");
  }

  /**
   * Multiplier 1.5 on a ticket bought for 100: resale at 150 goes through,
   * at 151 it is refused with the cap 150.
   */
  lemma ResaleCapScenario(s: Store, organizer: Principal, buyer: Principal, friend: Principal, now: U64, id: EventId)
    requires now < U64_MAX
    ensures
      var c := CreateEvent(s, organizer, now, "Gala", now + 1, "Hall", 100, 10,
                           Some(Multiplier(3, 2)), None, Some(id));
      var p := Purchase(c.store, buyer, now, id, true);
      && p.result == Ok(1)
      && Transfer(p.store, buyer, now, 1, friend, Some(150), true).result == Ok(())
      && Transfer(p.store, buyer, now, 1, friend, Some(151), true).result == Err(PriceAboveCap(150))
      && Transfer(p.store, buyer, now, 1, friend, Some(151), true).store == p.store
  {
    AsciiUtf8Length("Gala");
    assert MaxResalePrice(100, Multiplier(3, 2)) == 150;
  }

  /**
   * A whitelisted event refuses a principal not on the list and sells to
   * one who is.
   */
  lemma WhitelistScenario(s: Store, organizer: Principal, listed: Principal, outsider: Principal, now: U64, id: EventId)
    requires now < U64_MAX
    requires listed != outsider
    ensures
      var c := CreateEvent(s, organizer, now, "Gala", now + 1, "Hall", 100, 10,
                           None, Some([listed]), Some(id));
      && Purchase(c.store, outsider, now, id, true).result == Err(NotOnWhitelist)
      && Purchase(c.store, listed, now, id, true).result == Ok(1)
  {
    AsciiUtf8Length("Gala");
  }

  /**
   * Ticket ids are numbered per event but stored in one table: the first
   * sale of a second event replaces the first sale of the first, and the
   * first buyer no longer owns any ticket.
   */
  lemma TicketIdCollision(organizer: Principal, p: Principal, q: Principal, now: U64, a: EventId, b: EventId)
    requires now < U64_MAX
    requires a != b && p != q
    ensures
      var ca := CreateEvent(EmptyStore(), organizer, now, "A", now + 1, "Hall", 100, 10, None, None, Some(a));
      var cb := CreateEvent(ca.store, organizer, now, "B", now + 1, "Hall", 100, 10, None, None, Some(b));
      var pa := Purchase(cb.store, p, now, a, true);
      var pb := Purchase(pa.store, q, now, b, true);
      && pa.result == Ok(1) && pb.result == Ok(1)
      && pb.store.tickets.Keys == {1}
      && pb.store.tickets[1].metadata.eventId == b
      && TicketIdsOwnedBy(pb.store, p) == {}
  {
  }
}
