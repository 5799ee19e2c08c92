/**
 * The canister itself: the two tables as mutable fields, updated in place by
 * the update endpoints and scanned by the listing queries. Each update method
 * does to the fields what the corresponding `Ledger` function does to a
 * `Store`, and keeps `Valid()`.
 */
module Canister {
  import opened Types
  import opened Ledger
  import LedgerProofs

  class Canister {
    var events: map<EventId, Event>
    var tickets: map<nat, Ticket>

    /** The tables as one value. */
    function Snapshot(): Store
      reads this
    {
      Store(events, tickets)
    }

    ghost predicate Valid()
      reads this
    {
      Ledger.Valid(Snapshot())
    }

    /** `init`: both tables start empty. */
    constructor ()
      ensures Valid()
      ensures events == map[] && tickets == map[]
    {
      events := map[];
      tickets := map[];
      LedgerProofs.EmptyStoreValid();
    }

    /**
     * `create_event`. The invariant is kept whenever the random id is not
     * already taken.
     */
    method CreateEvent(
      caller: Principal, now: U64,
      name: string, date: U64, location: string,
      ticketPrice: nat, totalTickets: nat,
      maxResaleMultiplier: Option<Multiplier>, whitelist: Option<seq<Principal>>,
      randomId: Option<EventId>) returns (r: Result<EventId>)
      requires Valid()
      modifies this
      ensures var step := Ledger.CreateEvent(old(Snapshot()), caller, now, name, date, location,
                                             ticketPrice, totalTickets, maxResaleMultiplier,
                                             whitelist, randomId);
        Snapshot() == step.store && r == step.result
      ensures (randomId.Some? ==> randomId.value !in old(events)) ==> Valid()
      ensures r.Ok? ==> r.value in events && events[r.value].organizer == caller
    {
      if randomId.None? || randomId.value !in events {
        LedgerProofs.CreateEventPreservesValid(Snapshot(), caller, now, name, date, location,
                                               ticketPrice, totalTickets, maxResaleMultiplier,
                                               whitelist, randomId);
      }
      if name == [] || Utf8Length(name) > MAX_EVENT_NAME_LENGTH {
        return Err(NameLength);
      }
      if date <= now {
        return Err(DateNotInFuture);
      }
      if totalTickets == 0 {
        return Err(NoTickets);
      }
      if randomId.None? {
        return Err(RngFailed);
      }
      var eventId := randomId.value;
      var event := Event(eventId, name, date, location, caller, ticketPrice,
                         maxResaleMultiplier, totalTickets, 0, 0, whitelist);
      events := events[eventId := event];
      r := Ok(eventId);
    }

    /** `purchase_ticket`; `paid` is the outcome of the ledger transfer. */
    method PurchaseTicket(buyer: Principal, now: U64, eventId: EventId, paid: bool) returns (r: Result<nat>)
      requires Valid()
      modifies this
      ensures var step := Ledger.Purchase(old(Snapshot()), buyer, now, eventId, paid);
        Snapshot() == step.store && r == step.result
      ensures Valid()
      ensures r.Ok? ==> eventId in events && events[eventId].ticketsSold <= events[eventId].totalTickets
    {
      LedgerProofs.PurchasePreservesValid(Snapshot(), buyer, now, eventId, paid);
      if eventId !in events {
        return Err(EventNotFound);
      }
      var event := events[eventId];
      if event.whitelist.Some? && buyer !in event.whitelist.value {
        return Err(NotOnWhitelist);
      }
      if event.ticketsSold >= event.totalTickets {
        return Err(SoldOut);
      }
      if !paid {
        return Err(PaymentFailed);
      }
      var ticketId := event.ticketsSold + 1;
      var ticket := Ticket(ticketId, buyer, TicketMetadata(eventId, None, None, None),
                           event.ticketPrice, [HistoryEntry(now, buyer)]);
      tickets := tickets[ticketId := ticket];
      event := events[eventId];
      event := event.(ticketsSold := event.ticketsSold + 1);
      event := event.(fundsCollected := event.fundsCollected + event.ticketPrice);
      events := events[eventId := event];
      r := Ok(ticketId);
    }

    /**
     * `transfer_ticket`; `paid` is the outcome of the ledger transfer, which
     * is only attempted when a `salePrice` is declared.
     */
    method TransferTicket(
      sender: Principal, now: U64,
      ticketId: nat, newOwner: Principal, salePrice: Option<nat>, paid: bool) returns (r: Result<()>)
      requires Valid()
      modifies this
      ensures var step := Ledger.Transfer(old(Snapshot()), sender, now, ticketId, newOwner, salePrice, paid);
        Snapshot() == step.store && r == step.result
      ensures Valid()
      ensures r.Ok? ==> ticketId in tickets && tickets[ticketId].owner == newOwner
    {
      LedgerProofs.TransferPreservesValid(Snapshot(), sender, now, ticketId, newOwner, salePrice, paid);
      if ticketId !in tickets {
        return Err(TicketNotFound);
      }
      var ticket := tickets[ticketId];
      if ticket.owner != sender {
        return Err(NotTicketOwner);
      }
      if ticket.metadata.eventId !in events {
        return Err(EventNotFound);
      }
      var multiplier := events[ticket.metadata.eventId].maxResaleMultiplier;
      if salePrice.Some? {
        if multiplier.Some? {
          if ticket.originalPrice > U64_MAX {
            return Err(Trapped);
          }
          var maxPrice := MaxResalePrice(ticket.originalPrice, multiplier.value);
          if salePrice.value > maxPrice {
            return Err(PriceAboveCap(maxPrice));
          }
        }
        if !paid {
          return Err(PaymentFailed);
        }
      }
      ticket := tickets[ticketId];
      ticket := ticket.(owner := newOwner);
      ticket := ticket.(transferHistory := ticket.transferHistory + [HistoryEntry(now, newOwner)]);
      tickets := tickets[ticketId := ticket];
      r := Ok(());
    }

    /** `withdraw_funds`; `paid` is the outcome of the ledger payout. */
    method WithdrawFunds(who: Principal, eventId: EventId, amount: nat, paid: bool) returns (r: Result<()>)
      requires Valid()
      modifies this
      ensures var step := Ledger.Withdraw(old(Snapshot()), who, eventId, amount, paid);
        Snapshot() == step.store && r == step.result
      ensures Valid()
    {
      ghost var step := Ledger.Withdraw(Snapshot(), who, eventId, amount, paid);
      LedgerProofs.WithdrawPreservesValid(Snapshot(), who, eventId, amount, paid);
      if eventId !in events {
        return Err(EventNotFound);
      }
      var available := events[eventId].fundsCollected;
      if events[eventId].organizer != who {
        return Err(NotOrganizer);
      }
      if amount > available {
        return Err(InsufficientFunds);
      }
      if !paid {
        return Err(PaymentFailed);
      }
      var event := events[eventId];
      event := event.(fundsCollected := event.fundsCollected - amount);
      events := events[eventId := event];
      r := Ok(());
      assert Snapshot() == step.store;
    }

    /**
     * `get_events_by_organizer`: every stored event whose organizer is
     * `organizer`, each once, in the table's iteration order.
     */
    method GetEventsByOrganizer(organizer: Principal) returns (r: seq<Event>)
      requires EventsKeyedById(events)
      ensures forall i :: 0 <= i < |r| ==>
        r[i].id in events && events[r[i].id] == r[i] && r[i].organizer == organizer
      ensures forall id :: id in EventIdsOrganizedBy(Snapshot(), organizer) ==> events[id] in r
      ensures forall i, j :: 0 <= i < j < |r| ==> r[i].id != r[j].id
    {
      var pending := events.Keys;
      r := [];
      while pending != {}
        invariant pending <= events.Keys
        invariant forall i :: 0 <= i < |r| ==>
          r[i].id in events && r[i].id !in pending && events[r[i].id] == r[i] && r[i].organizer == organizer
        invariant forall id :: id in events && id !in pending && events[id].organizer == organizer ==>
          events[id] in r
        invariant forall i, j :: 0 <= i < j < |r| ==> r[i].id != r[j].id
        decreases pending
      {
        var id :| id in pending;
        var event := events[id];
        if event.organizer == organizer {
          r := r + [event];
        }
        pending := pending - {id};
      }
    }

    /**
     * `get_tickets_by_owner`: every stored ticket whose owner is `owner`,
     * each once, in the table's iteration order.
     */
    method GetTicketsByOwner(owner: Principal) returns (r: seq<Ticket>)
      requires TicketsKeyedById(tickets)
      ensures forall i :: 0 <= i < |r| ==>
        r[i].id in tickets && tickets[r[i].id] == r[i] && r[i].owner == owner
      ensures forall k :: k in TicketIdsOwnedBy(Snapshot(), owner) ==> tickets[k] in r
      ensures forall i, j :: 0 <= i < j < |r| ==> r[i].id != r[j].id
    {
      var pending := tickets.Keys;
      r := [];
      while pending != {}
        invariant pending <= tickets.Keys
        invariant forall i :: 0 <= i < |r| ==>
          r[i].id in tickets && r[i].id !in pending && tickets[r[i].id] == r[i] && r[i].owner == owner
        invariant forall k :: k in tickets && k !in pending && tickets[k].owner == owner ==>
          tickets[k] in r
        invariant forall i, j :: 0 <= i < j < |r| ==> r[i].id != r[j].id
        decreases pending
      {
        var k :| k in pending;
        var ticket := tickets[k];
        if ticket.owner == owner {
          r := r + [ticket];
        }
        pending := pending - {k};
      }
    }
  }
}
