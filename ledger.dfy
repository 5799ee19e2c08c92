/**
 * The canister's two tables as one value, and each endpoint as a function
 * from the tables before the call to the tables after it and the reply.
 * Every update is one atomic step: the awaits inside the endpoints are not
 * modelled, and each ledger or randomness call is an input.
 */
module Ledger {
  import opened Types

  /** `EVENTS` (event id to event) and `TICKETS` (ticket id to ticket). */
  datatype Store = Store(events: map<EventId, Event>, tickets: map<nat, Ticket>)

  /** The tables after an endpoint call, and the call's reply. */
  datatype Step<T> = Step(store: Store, result: Result<T>)

  function Last<T>(s: seq<T>): T
    requires |s| > 0
  {
    s[|s| - 1]
  }

  /** The tables as `init` leaves them. */
  function EmptyStore(): Store {
    Store(map[], map[])
  }

  // ---------------------------------------------------------------- invariant

  /** What holds of every stored event. */
  ghost predicate EventValid(id: EventId, e: Event) {
    && e.id == id
    && ValidEventName(e.name)
    && e.totalTickets > 0
    && e.ticketsSold <= e.totalTickets
    && e.fundsCollected <= e.ticketsSold * e.ticketPrice
  }

  /**
   * What holds of every stored ticket: it sits under its own id, it belongs
   * to an existing event whose price it paid and whose sales count reached
   * its id, and its history is non-empty and ends with its owner.
   */
  ghost predicate TicketValid(k: nat, t: Ticket, events: map<EventId, Event>) {
    && t.id == k
    && t.metadata.eventId in events
    && 1 <= k <= events[t.metadata.eventId].ticketsSold
    && t.originalPrice == events[t.metadata.eventId].ticketPrice
    && t.metadata.seat.None? && t.metadata.tier.None? && t.metadata.imageUrl.None?
    && |t.transferHistory| > 0
    && Last(t.transferHistory).who == t.owner
  }

  /** Every record is stored under its own id. */
  ghost predicate EventsKeyedById(events: map<EventId, Event>) {
    forall id :: id in events ==> events[id].id == id
  }

  ghost predicate TicketsKeyedById(tickets: map<nat, Ticket>) {
    forall k :: k in tickets ==> tickets[k].id == k
  }

  ghost predicate Valid(s: Store) {
    && (forall id :: id in s.events ==> EventValid(id, s.events[id]))
    && (forall k :: k in s.tickets ==> TicketValid(k, s.tickets[k], s.events))
  }

  // ------------------------------------------------------------ resale cap

  /**
   * The resale cap `(base as f64 * multiplier).round() as u64`, with the
   * multiplier as an exact rational: rounding is half away from zero, and
   * the cast saturates, so a non-positive product gives 0 and a product
   * beyond u64::MAX gives u64::MAX.
   */
  function MaxResalePrice(base: nat, m: Multiplier): (r: nat)
    requires base <= U64_MAX
    ensures r <= U64_MAX
    ensures m.num <= 0 ==> r == 0
  {
    if m.num <= 0 then 0
    else
      var rounded := (2 * base * m.num + m.den) / (2 * m.den);
      if rounded > U64_MAX then U64_MAX else rounded
  }

  /**
   * The checks of `transfer_ticket` that depend on `sale_price`: only when a
   * price is declared and the event has a multiplier is the cap applied.
   * `None` means the transfer may proceed.
   */
  function CapViolation(originalPrice: nat, mult: Option<Multiplier>, salePrice: Option<nat>): (r: Option<Error>)
    ensures salePrice.None? || mult.None? ==> r.None?
    ensures r == Some(Trapped) <==> salePrice.Some? && mult.Some? && originalPrice > U64_MAX
    ensures r.Some? ==> r.value == Trapped || r.value.PriceAboveCap?
    ensures r.Some? && r.value.PriceAboveCap? ==>
      && salePrice.Some? && mult.Some? && originalPrice <= U64_MAX
      && r.value.maxPrice == MaxResalePrice(originalPrice, mult.value) < salePrice.value
    ensures salePrice.Some? && mult.Some? && originalPrice <= U64_MAX ==>
      (r.None? <==> salePrice.value <= MaxResalePrice(originalPrice, mult.value))
  {
    if salePrice.None? || mult.None? then None
    else if originalPrice > U64_MAX then Some(Trapped)
    else
      var maxPrice := MaxResalePrice(originalPrice, mult.value);
      if salePrice.value > maxPrice then Some(PriceAboveCap(maxPrice)) else None
  }

  // ---------------------------------------------------------------- updates

  /**
   * `create_event`: validates the name, the date against the current time
   * and the ticket count, then stores a new event under the random id with
   * zeroed counters. `randomId` is `None` when the randomness call fails.
   */
  function CreateEvent(
    s: Store, caller: Principal, now: U64,
    name: string, date: U64, location: string,
    ticketPrice: nat, totalTickets: nat,
    maxResaleMultiplier: Option<Multiplier>, whitelist: Option<seq<Principal>>,
    randomId: Option<EventId>): (r: Step<EventId>)
    ensures r.result.Err? ==> r.store == s
    ensures r.result == Err(NameLength) <==> !ValidEventName(name)
    ensures r.result == Err(DateNotInFuture) <==> ValidEventName(name) && date <= now
    ensures r.result == Err(NoTickets) <==> ValidEventName(name) && date > now && totalTickets == 0
    ensures r.result == Err(RngFailed) <==>
      ValidEventName(name) && date > now && totalTickets > 0 && randomId.None?
    ensures r.result.Ok? <==>
      ValidEventName(name) && date > now && totalTickets > 0 && randomId.Some?
    ensures r.result.Ok? ==>
      var id := r.result.value;
      && randomId == Some(id)
      && r.store.tickets == s.tickets
      && r.store.events.Keys == s.events.Keys + {id}
      && (forall x :: x in s.events && x != id ==> r.store.events[x] == s.events[x])
      && r.store.events[id] == Event(id, name, date, location, caller, ticketPrice,
                                     maxResaleMultiplier, totalTickets, 0, 0, whitelist)
  {
    if name == [] || Utf8Length(name) > MAX_EVENT_NAME_LENGTH then Step(s, Err(NameLength))
    else if date <= now then Step(s, Err(DateNotInFuture))
    else if totalTickets == 0 then Step(s, Err(NoTickets))
    else if randomId.None? then Step(s, Err(RngFailed))
    else
      var id := randomId.value;
      var event := Event(id, name, date, location, caller, ticketPrice,
                         maxResaleMultiplier, totalTickets, 0, 0, whitelist);
      Step(s.(events := s.events[id := event]), Ok(id))
  }

  /**
   * `purchase_ticket`: existence, then whitelist, then inventory, then the
   * ledger payment (`paid`). The new ticket's id is the event's own sales
   * count plus one, and it is inserted into the one global ticket table,
   * replacing any ticket of another event that has the same number.
   */
  function Purchase(s: Store, buyer: Principal, now: U64, eventId: EventId, paid: bool): (r: Step<nat>)
    ensures r.result.Err? ==> r.store == s
    ensures r.result == Err(EventNotFound) <==> eventId !in s.events
    ensures r.result == Err(NotOnWhitelist) <==>
      eventId in s.events && !MayBuy(s.events[eventId], buyer)
    ensures r.result == Err(SoldOut) <==>
      eventId in s.events && MayBuy(s.events[eventId], buyer)
      && s.events[eventId].ticketsSold >= s.events[eventId].totalTickets
    ensures r.result == Err(PaymentFailed) <==>
      eventId in s.events && MayBuy(s.events[eventId], buyer)
      && s.events[eventId].ticketsSold < s.events[eventId].totalTickets && !paid
    ensures r.result.Ok? <==>
      eventId in s.events && MayBuy(s.events[eventId], buyer)
      && s.events[eventId].ticketsSold < s.events[eventId].totalTickets && paid
    ensures r.result.Ok? ==>
      && eventId in s.events
      && r.store.events.Keys == s.events.Keys
      && var e, e', id := s.events[eventId], r.store.events[eventId], r.result.value;
      && id == e.ticketsSold + 1
      && e'.ticketsSold == e.ticketsSold + 1
      && e'.fundsCollected == e.fundsCollected + e.ticketPrice
      && e'.ticketsSold <= e'.totalTickets
      && e'.(ticketsSold := e.ticketsSold, fundsCollected := e.fundsCollected) == e
      && (forall x :: x in s.events && x != eventId ==> r.store.events[x] == s.events[x])
      && r.store.tickets.Keys == s.tickets.Keys + {id}
      && r.store.tickets[id] == Ticket(id, buyer, TicketMetadata(eventId, None, None, None),
                                       e.ticketPrice, [HistoryEntry(now, buyer)])
      && (forall k :: k in s.tickets && k != id ==> r.store.tickets[k] == s.tickets[k])
  {
    if eventId !in s.events then Step(s, Err(EventNotFound))
    else
      var e := s.events[eventId];
      if !MayBuy(e, buyer) then Step(s, Err(NotOnWhitelist))
      else if e.ticketsSold >= e.totalTickets then Step(s, Err(SoldOut))
      else if !paid then Step(s, Err(PaymentFailed))
      else
        var id := e.ticketsSold + 1;
        var ticket := Ticket(id, buyer, TicketMetadata(eventId, None, None, None),
                             e.ticketPrice, [HistoryEntry(now, buyer)]);
        var e' := e.(ticketsSold := e.ticketsSold + 1, fundsCollected := e.fundsCollected + e.ticketPrice);
        Step(Store(s.events[eventId := e'], s.tickets[id := ticket]), Ok(id))
  }

  /** The ticket exists, `sender` owns it and its event exists. */
  predicate MayTransfer(s: Store, sender: Principal, ticketId: nat) {
    && ticketId in s.tickets
    && s.tickets[ticketId].owner == sender
    && s.tickets[ticketId].metadata.eventId in s.events
  }

  /**
   * `transfer_ticket`: ownership, the event lookup, then (only with a
   * declared `salePrice`) the resale cap and the ledger payment (`paid`).
   * On success the owner changes and one history entry is appended.
   */
  function Transfer(
    s: Store, sender: Principal, now: U64,
    ticketId: nat, newOwner: Principal, salePrice: Option<nat>, paid: bool): (r: Step<()>)
    ensures r.result.Err? ==> r.store == s
    ensures r.result == Err(TicketNotFound) <==> ticketId !in s.tickets
    ensures r.result == Err(NotTicketOwner) <==>
      ticketId in s.tickets && s.tickets[ticketId].owner != sender
    ensures r.result == Err(EventNotFound) <==>
      ticketId in s.tickets && s.tickets[ticketId].owner == sender
      && s.tickets[ticketId].metadata.eventId !in s.events
    ensures salePrice.None? ==> (r.result.Ok? <==> MayTransfer(s, sender, ticketId))
    ensures r.result.Ok? <==>
      MayTransfer(s, sender, ticketId)
      && CapViolation(s.tickets[ticketId].originalPrice,
                      s.events[s.tickets[ticketId].metadata.eventId].maxResaleMultiplier,
                      salePrice).None?
      && (salePrice.Some? ==> paid)
    ensures MayTransfer(s, sender, ticketId) ==>
      var cap := CapViolation(s.tickets[ticketId].originalPrice,
                              s.events[s.tickets[ticketId].metadata.eventId].maxResaleMultiplier,
                              salePrice);
      && (cap.Some? ==> r.result == Err(cap.value))
      && (cap.None? && salePrice.Some? && !paid ==> r.result == Err(PaymentFailed))
    ensures r.result.Ok? ==>
      && ticketId in s.tickets
      && r.store.tickets.Keys == s.tickets.Keys
      && r.store.events == s.events
      && var t, t' := s.tickets[ticketId], r.store.tickets[ticketId];
      && (forall k :: k in s.tickets && k != ticketId ==> r.store.tickets[k] == s.tickets[k])
      && t'.owner == newOwner
      && t'.transferHistory == t.transferHistory + [HistoryEntry(now, newOwner)]
      && Last(t'.transferHistory).who == t'.owner
      && t'.id == t.id && t'.metadata == t.metadata && t'.originalPrice == t.originalPrice
  {
    if ticketId !in s.tickets then Step(s, Err(TicketNotFound))
    else
      var t := s.tickets[ticketId];
      if t.owner != sender then Step(s, Err(NotTicketOwner))
      else if t.metadata.eventId !in s.events then Step(s, Err(EventNotFound))
      else
        var violation := CapViolation(t.originalPrice, s.events[t.metadata.eventId].maxResaleMultiplier, salePrice);
        if violation.Some? then Step(s, Err(violation.value))
        else if salePrice.Some? && !paid then Step(s, Err(PaymentFailed))
        else
          var t' := t.(owner := newOwner, transferHistory := t.transferHistory + [HistoryEntry(now, newOwner)]);
          Step(s.(tickets := s.tickets[ticketId := t']), Ok(()))
  }

  /**
   * `withdraw_funds`: only the organizer, only up to `funds_collected`, and
   * only once the ledger payout (`paid`) went through.
   */
  function Withdraw(s: Store, who: Principal, eventId: EventId, amount: nat, paid: bool): (r: Step<()>)
    ensures r.result.Err? ==> r.store == s
    ensures r.result == Err(EventNotFound) <==> eventId !in s.events
    ensures r.result == Err(NotOrganizer) <==>
      eventId in s.events && s.events[eventId].organizer != who
    ensures r.result == Err(InsufficientFunds) <==>
      eventId in s.events && s.events[eventId].organizer == who
      && amount > s.events[eventId].fundsCollected
    ensures r.result == Err(PaymentFailed) <==>
      eventId in s.events && s.events[eventId].organizer == who
      && amount <= s.events[eventId].fundsCollected && !paid
    ensures r.result.Ok? <==>
      eventId in s.events && s.events[eventId].organizer == who
      && amount <= s.events[eventId].fundsCollected && paid
    ensures r.result.Ok? ==>
      && eventId in s.events
      && r.store.events.Keys == s.events.Keys
      && r.store.tickets == s.tickets
      && var e, e' := s.events[eventId], r.store.events[eventId];
      && (forall x :: x in s.events && x != eventId ==> r.store.events[x] == s.events[x])
      && e'.fundsCollected + amount == e.fundsCollected
      && e'.(fundsCollected := e.fundsCollected) == e
  {
    if eventId !in s.events then Step(s, Err(EventNotFound))
    else
      var e := s.events[eventId];
      if e.organizer != who then Step(s, Err(NotOrganizer))
      else if amount > e.fundsCollected then Step(s, Err(InsufficientFunds))
      else if !paid then Step(s, Err(PaymentFailed))
      else Step(s.(events := s.events[eventId := e.(fundsCollected := e.fundsCollected - amount)]), Ok(()))
  }

  // ---------------------------------------------------------------- queries

  /** `get_event`. */
  function GetEvent(s: Store, eventId: EventId): (r: Result<Event>)
    ensures r.Ok? <==> eventId in s.events
    ensures r.Ok? ==> r.value == s.events[eventId]
    ensures r.Err? ==> r.error == EventNotFound
  {
    if eventId in s.events then Ok(s.events[eventId]) else Err(EventNotFound)
  }

  /** `get_ticket`. */
  function GetTicket(s: Store, ticketId: nat): (r: Result<Ticket>)
    ensures r.Ok? <==> ticketId in s.tickets
    ensures r.Ok? ==> r.value == s.tickets[ticketId]
    ensures r.Err? ==> r.error == TicketNotFound
  {
    if ticketId in s.tickets then Ok(s.tickets[ticketId]) else Err(TicketNotFound)
  }

  /** `icrc7_metadata`: the metadata of the ticket `get_ticket` returns. */
  function MetadataOf(s: Store, ticketId: nat): (r: Result<TicketMetadata>)
    ensures r.Ok? <==> GetTicket(s, ticketId).Ok?
    ensures r.Ok? ==> r.value == GetTicket(s, ticketId).value.metadata
    ensures r.Err? ==> r.error == TicketNotFound
  {
    if ticketId in s.tickets then Ok(s.tickets[ticketId].metadata) else Err(TicketNotFound)
  }

  /** `icrc7_owner_of`: the owner of the ticket `get_ticket` returns. */
  function OwnerOf(s: Store, ticketId: nat): (r: Result<Principal>)
    ensures r.Ok? <==> GetTicket(s, ticketId).Ok?
    ensures r.Ok? ==> r.value == GetTicket(s, ticketId).value.owner
    ensures r.Err? ==> r.error == TicketNotFound
  {
    if ticketId in s.tickets then Ok(s.tickets[ticketId].owner) else Err(TicketNotFound)
  }

  /** `icrc7_transfer_history`: the history of the ticket `get_ticket` returns. */
  function HistoryOf(s: Store, ticketId: nat): (r: Result<seq<HistoryEntry>>)
    ensures r.Ok? <==> GetTicket(s, ticketId).Ok?
    ensures r.Ok? ==> r.value == GetTicket(s, ticketId).value.transferHistory
    ensures r.Err? ==> r.error == TicketNotFound
  {
    if ticketId in s.tickets then Ok(s.tickets[ticketId].transferHistory) else Err(TicketNotFound)
  }

  /** Keys of the events `get_events_by_organizer(p)` reports. */
  function EventIdsOrganizedBy(s: Store, p: Principal): set<EventId> {
    set id | id in s.events && s.events[id].organizer == p
  }

  /** Keys of the tickets `get_tickets_by_owner(p)` reports. */
  function TicketIdsOwnedBy(s: Store, p: Principal): set<nat> {
    set k | k in s.tickets && s.tickets[k].owner == p
  }
}
