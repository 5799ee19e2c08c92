/**
 * Entities of the ticket-ledger canister: events, tickets and their metadata,
 * the caller identity, the error kinds the endpoints return, and the byte
 * length Rust's `String::len` reports for an event name.
 */
module Types {

  /** Longest accepted event name, in UTF-8 bytes. */
  const MAX_EVENT_NAME_LENGTH: nat := 100

  /** Largest value of a Rust `u64`. */
  const U64_MAX: nat := 0xFFFF_FFFF_FFFF_FFFF

  /** Timestamps and event dates are `u64` nanoseconds. */
  type U64 = n: nat | n <= U64_MAX

  /** A strictly positive denominator. */
  type Positive = n: nat | n > 0 witness 1

  datatype Option<T> = None | Some(value: T)

  /** An Internet Computer principal: an opaque blob compared by value. */
  datatype Principal = Principal(bytes: seq<bv8>)

  /** Event ids are the hex strings produced at creation. */
  type EventId = string

  /**
   * The resale multiplier. The canister stores an `f64`; here it is the
   * exact rational `num / den`. A non-positive `num` stands for the zero and
   * negative values the canister never rejects.
   */
  datatype Multiplier = Multiplier(num: int, den: Positive)

  datatype TicketMetadata = TicketMetadata(
    eventId: EventId,
    seat: Option<string>,
    tier: Option<string>,
    imageUrl: Option<string>)

  /** One `(timestamp, principal)` entry of a ticket's provenance. */
  datatype HistoryEntry = HistoryEntry(at: U64, who: Principal)

  datatype Ticket = Ticket(
    id: nat,
    owner: Principal,
    metadata: TicketMetadata,
    originalPrice: nat,
    transferHistory: seq<HistoryEntry>)

  datatype Event = Event(
    id: EventId,
    name: string,
    date: U64,
    location: string,
    organizer: Principal,
    ticketPrice: nat,
    maxResaleMultiplier: Option<Multiplier>,
    totalTickets: nat,
    ticketsSold: nat,
    fundsCollected: nat,
    whitelist: Option<seq<Principal>>)

  /** The endpoints' `Err(String)` values, one constructor per message. */
  datatype Error =
    | NameLength          // "Event name must be 1-100 characters"
    | DateNotInFuture     // "Event date must be in the future"
    | NoTickets           // "Must have at least 1 ticket"
    | RngFailed           // "RNG failed: ..."
    | EventNotFound       // "Event not found"
    | NotOnWhitelist      // "Not on whitelist"
    | SoldOut             // "Sold out"
    | PaymentFailed       // "ICP transfer failed: ..." and the ledger's own error texts
    | TicketNotFound      // "Ticket not found"
    | NotTicketOwner      // "Not ticket owner"
    | PriceAboveCap(maxPrice: nat) // "Price exceeds maximum resale price of {max} ICP"
    | Trapped             // the canister traps: `to_u64().unwrap()` on a price above u64::MAX
    | NotOrganizer        // "Only organizer can withdraw"
    | InsufficientFunds   // "Insufficient funds"

  datatype Result<T> = Ok(value: T) | Err(error: Error)

  /** Number of bytes the UTF-8 encoding of `c` takes. */
  function Utf8Width(c: char): (w: nat)
    ensures 1 <= w <= 4
    ensures w == 1 <==> c as int < 0x80
  {
    if c as int < 0x80 then 1
    else if c as int < 0x800 then 2
    else if c as int < 0x1_0000 then 3
    else 4
  }

  /** Byte length of the UTF-8 encoding of `s`, which is what Rust's `len` reports. */
  function Utf8Length(s: string): (n: nat)
    ensures |s| <= n <= 4 * |s|
    ensures n == 0 <==> s == []
  {
    if s == [] then 0 else Utf8Width(s[0]) + Utf8Length(s[1..])
  }

  predicate IsAscii(s: string) {
    forall i :: 0 <= i < |s| ==> s[i] as int < 0x80
  }

  /** For ASCII text the byte length is the character count. */
  lemma {:induction false} AsciiUtf8Length(s: string)
    requires IsAscii(s)
    ensures Utf8Length(s) == |s|
  {
    if s != [] {
      assert IsAscii(s[1..]) by {
        forall i | 0 <= i < |s| - 1 ensures s[1..][i] as int < 0x80 {
          assert s[1..][i] == s[i + 1];
        }
      }
      AsciiUtf8Length(s[1..]);
    }
  }

  /** The name rule of event creation: non-empty and at most 100 bytes. */
  predicate ValidEventName(name: string) {
    !(name == [] || Utf8Length(name) > MAX_EVENT_NAME_LENGTH)
  }

  /** Whether `buyer` may purchase for `e`: no whitelist, or listed in it. */
  predicate MayBuy(e: Event, buyer: Principal) {
    e.whitelist.None? || buyer in e.whitelist.value
  }
}
