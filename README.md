# Ticket-ledger canister, modelled in Dafny

This project models the backend canister of an event-ticketing dapp on the
Internet Computer. The canister keeps two tables: `EVENTS`, from event id to
event, and `TICKETS`, from ticket id to ticket. It has four update endpoints:

- `create_event` validates its input and stores an event with zeroed counters.
- `purchase_ticket` checks the whitelist and the inventory, pays the organizer through the ICP ledger and mints a ticket.
- `transfer_ticket` checks ownership, applies the resale cap, changes the owner and appends to the provenance history.
- `withdraw_funds` lets the organizer take out collected funds.

It also has read-only queries, including ICRC-7-style ones.

Layout:

- `types.dfy` (module `Types`): events, tickets, metadata, principals, the error kinds, and the UTF-8 byte length that `String::len` reports.
- `ledger.dfy` (module `Ledger`): both tables as one `Store` value. Each endpoint is a function from the tables before the call to the tables after it and the reply. The module also holds the lookup queries and the invariant `Valid`.
- `ledger_proofs.dfy` (module `LedgerProofs`):
  - every update preserves `Valid`;
  - the queries agree with each other;
  - the resale cap is rounded to the nearest integer;
  - repeated purchases sell exactly the remaining tickets;
  - end-to-end scenarios.
- `canister.dfy` (module `Canister`): class `Canister` holds the two tables as mutable `map` fields.
  - The update methods change those fields in place, as the Rust code does with `insert` and `get_mut`.
  - Each update method is proved to leave exactly the tables and reply that the matching `Ledger` function computes, and to keep `Valid()`.
  - The listing queries are loops over the table, proved to return exactly the matching records.

External inputs are parameters:

- the caller principal;
- `now`, which stands for `time()`;
- the random event id, or `None` when `raw_rand` fails;
- a boolean `paid` for the outcome of each ICP ledger call.

The invariant `Valid` says:

- every event is stored under its own id;
- every event has a valid name, at least one ticket, and `tickets_sold <= total_tickets`;
- an event's `funds_collected` is at most `tickets_sold * ticket_price`;
- every ticket is stored under its own id and belongs to an existing event;
- a ticket's id is between 1 and its event's `tickets_sold`, and its `original_price` is the event's `ticket_price`;
- a ticket's seat, tier and image are all None;
- a ticket's history is non-empty and its last entry names the owner.

Behaviour kept as the code has it:

- **Ticket ids are per event, but the table is global.** A purchase numbers its ticket `tickets_sold + 1` of its own event. It then inserts the ticket into the single `TICKETS` table, replacing another event's ticket with the same number (`LedgerProofs.TicketIdCollision`). The model does not claim that ticket ids are globally unique.
- `date` is compared with the raw `time()` value.
- The location is never validated.
- The resale multiplier is never checked to be positive.
- A zero or negative multiplier makes the cap 0.
- `Ledger.CreateEvent` does not assume the random id is fresh: on a collision the insert overwrites, as `HashMap::insert` does. The invariant is proved only for a fresh id.
- A withdrawal decreases `funds_collected`. There is no separate withdrawn counter.
- `transfer_ticket` answers "Event not found" when the ticket's event is missing. Under `Valid` that branch cannot happen, but it is modelled.

## Model

| member | source | states |
|---|---|---|
| Types.Utf8Length | src/finalproj_backend/src/lib.rs:95 | The byte length Rust's `len` reports lies between the number of characters and four times it, and is 0 exactly for the empty name |
| Types.AsciiUtf8Length | src/finalproj_backend/src/lib.rs:11 | For ASCII names the byte limit of 100 is a character limit |
| Ledger.CreateEvent | src/finalproj_backend/src/lib.rs:86-135 | Fails with the name error exactly when the name is empty or longer than 100 bytes. Otherwise it fails with the date error exactly when `date <= now`, then with the ticket error exactly when `total_tickets == 0`, then when randomness fails. Every failure leaves the tables unchanged. On success it returns the random id, and the tables change only by that id now holding an event with the caller as organizer, the arguments as given and both counters 0 |
| Ledger.Purchase | src/finalproj_backend/src/lib.rs:139-234 | Fails with "Event not found", then "Not on whitelist", then "Sold out", then a payment failure, each exactly under its condition and with the tables unchanged. It succeeds exactly when the event exists, the buyer may buy, a ticket is left and the payment went through. On success the ticket id is the old `tickets_sold + 1` and `tickets_sold` grows by exactly 1. `funds_collected` grows by exactly `ticket_price`, and `tickets_sold <= total_tickets` still holds. The new ticket has owner = buyer, `original_price = ticket_price`, metadata with only the event id, and history `[(now, buyer)]`. No other field or key changes |
| Ledger.Transfer | src/finalproj_backend/src/lib.rs:237-309 | Fails with "Ticket not found", then "Not ticket owner", then "Event not found", each exactly under its condition. With no sale price it succeeds exactly when those checks pass, with no cap check and no payment. Otherwise it succeeds exactly when the cap and the payment also pass. A failed cap check returns exactly the cap's error (the trap or the price above the cap), and a failed payment after a passed cap returns the payment error. Every failure leaves the tables unchanged. On success only this ticket changes: the owner becomes the new owner and exactly one entry `(now, new_owner)` is appended. The history then ends with the owner, and id, metadata and `original_price` are unchanged |
| Ledger.Withdraw | src/finalproj_backend/src/lib.rs:313-364 | Fails with "Event not found", then "Only organizer can withdraw", then "Insufficient funds" when `amount > funds_collected`, then a payout failure, each exactly under its condition and with the tables unchanged. It succeeds exactly when the caller is the organizer, `amount <= funds_collected` and the payout went through. On success only that event's `funds_collected` changes, decreasing by exactly `amount` |
| Ledger.CapViolation | src/finalproj_backend/src/lib.rs:261-273 | The cap is applied only when a sale price is declared and the event has a multiplier. It traps exactly when the original price is above u64::MAX. Otherwise the price passes exactly when it is at most `MaxResalePrice`, and a refusal carries that cap |
| Ledger.MaxResalePrice | src/finalproj_backend/src/lib.rs:263-265 | The cap never exceeds u64::MAX and is 0 for a non-positive multiplier |
| Ledger.GetEvent | src/finalproj_backend/src/lib.rs:414-422 | Returns the stored event exactly when the id is a key, and "Event not found" otherwise |
| Ledger.GetTicket | src/finalproj_backend/src/lib.rs:424-432 | Returns the stored ticket exactly when the id is a key, and "Ticket not found" otherwise |
| Ledger.MetadataOf | src/finalproj_backend/src/lib.rs:367-375 | Succeeds exactly when `get_ticket` does, with that ticket's metadata |
| Ledger.OwnerOf | src/finalproj_backend/src/lib.rs:377-385 | Succeeds exactly when `get_ticket` does, with that ticket's owner |
| Ledger.HistoryOf | src/finalproj_backend/src/lib.rs:387-395 | Succeeds exactly when `get_ticket` does, with that ticket's transfer history |
| LedgerProofs.EmptyStoreValid | src/finalproj_backend/src/lib.rs:71-74 | The empty tables satisfy the invariant |
| LedgerProofs.CreateEventPreservesValid | src/finalproj_backend/src/lib.rs:108-128 | Creating an event under a fresh id keeps the invariant |
| LedgerProofs.PurchasePreservesValid | src/finalproj_backend/src/lib.rs:203-226 | A purchase keeps the invariant, including when it overwrites another event's ticket. So `tickets_sold <= total_tickets`, `funds_collected <= tickets_sold * ticket_price` and "history ends with the owner" still hold |
| LedgerProofs.TransferPreservesValid | src/finalproj_backend/src/lib.rs:297-303 | A transfer keeps the invariant; in particular the last history entry is the new owner |
| LedgerProofs.WithdrawPreservesValid | src/finalproj_backend/src/lib.rs:351-356 | A withdrawal keeps the invariant |
| LedgerProofs.FundsBounded | src/finalproj_backend/src/lib.rs:224-225 | In a valid state an event's funds never exceed `total_tickets * ticket_price` |
| LedgerProofs.QueriesAgree | src/finalproj_backend/src/lib.rs:367-395 | In a valid state `icrc7_owner_of` and `icrc7_transfer_history` succeed for the same ids, the owner is the last principal of the history, and the metadata's event id resolves through `get_event` |
| LedgerProofs.TransferSeenByQueries | src/finalproj_backend/src/lib.rs:297-302 | After a successful transfer the queries report the new owner, the old history plus one entry and the same metadata. Every other ticket reads as before |
| LedgerProofs.MaxResalePriceIsNearest | src/finalproj_backend/src/lib.rs:263-265 | The cap is `original_price * multiplier` rounded to the nearest integer with ties upward, unless it saturates at u64::MAX |
| LedgerProofs.CapAdmitsUpToMax | src/finalproj_backend/src/lib.rs:267-272 | With a multiplier and a price that fits in u64, a declared price passes exactly when it is at most the cap. Otherwise the error carries the cap |
| LedgerProofs.PurchaseSequenceSellsRemaining | src/finalproj_backend/src/lib.rs:152-154 | N successive purchases against an open event with K tickets left succeed exactly min(N, K) times, and `tickets_sold` grows by exactly that number |
| LedgerProofs.SoldOutScenario | src/finalproj_backend/src/lib.rs:152-154 | An event with one ticket at 100: the first purchase returns ticket 1 with `tickets_sold` 1 and `funds_collected` 100. The second purchase fails "Sold out" without changing anything |
| LedgerProofs.ResaleCapScenario | src/finalproj_backend/src/lib.rs:261-273 | Multiplier 1.5 on a ticket bought for 100: resale at 150 succeeds; at 151 it fails with cap 150 and changes nothing |
| LedgerProofs.WhitelistScenario | src/finalproj_backend/src/lib.rs:147-151 | A whitelisted event refuses an unlisted principal and sells to a listed one |
| LedgerProofs.TicketIdCollision | src/finalproj_backend/src/lib.rs:203-220 | Two events each sell one ticket. Both tickets get id 1, the second replaces the first in the table, and the first buyer owns no ticket afterwards |
| Canister.Canister.constructor | src/finalproj_backend/src/lib.rs:77-82 | Both tables start empty and the invariant holds |
| Canister.Canister.CreateEvent | src/finalproj_backend/src/lib.rs:86-135 | Updates the events table in place to exactly what `Ledger.CreateEvent` computes and returns its reply. It keeps `Valid()` when the random id is fresh |
| Canister.Canister.PurchaseTicket | src/finalproj_backend/src/lib.rs:139-234 | Inserts the ticket and bumps the counters in place, giving exactly the tables and reply of `Ledger.Purchase`. It keeps `Valid()` |
| Canister.Canister.TransferTicket | src/finalproj_backend/src/lib.rs:237-309 | Sets the owner and pushes the history entry in place, giving exactly the tables and reply of `Ledger.Transfer`. It keeps `Valid()` |
| Canister.Canister.WithdrawFunds | src/finalproj_backend/src/lib.rs:313-364 | Decrements `funds_collected` in place, giving exactly the tables and reply of `Ledger.Withdraw`. It keeps `Valid()` |
| Canister.Canister.GetEventsByOrganizer | src/finalproj_backend/src/lib.rs:434-443 | Returns exactly the stored events whose organizer is the given principal, each once. It needs only that each event is stored under its own id |
| Canister.Canister.GetTicketsByOwner | src/finalproj_backend/src/lib.rs:445-454 | Returns exactly the stored tickets whose owner is the given principal, each once. It needs only that each ticket is stored under its own id |

## Left out

- The ICP ledger `transfer` calls (lib.rs:174-200, 275-295, 330-349) are foreign calls. Each is the input `paid`. The transfer arguments (recipient, fee 10_000, memo, `created_at_time`) are not modelled, and neither is which account is debited.
- Concurrency is not modelled: each update is one atomic step. In the canister, the `await` on a ledger call lets other calls interleave between the checks and the update. Two purchases could then both pass the inventory check, and the `get_mut` after the await could find a changed record.
- Ledger.MaxResalePrice: the `f64` multiplier is an exact rational, so floating-point effects are not modelled. These are the inexact product of `base as f64 * multiplier`, the precision loss above 2^53, and NaN or infinite multipliers.
- `raw_rand` and the hex encoding of its first 16 bytes are platform calls. The id is an input, and its 32-hex-character format is not modelled.
- `time()` is the input `now`. The Candid decoding of arguments is not modelled beyond `u64` bounds on dates and times.
- The `init` cycles check, `ic_cdk::print` logging, and `pre_upgrade`/`post_upgrade` stable-memory serialisation are platform or library code.
- Error messages are a datatype, one constructor per message kind. The formatted text, such as the ledger's error detail or the cap figure in the message string, is not modelled.
- Canister.Canister.CreateEvent: keeps `Valid()` only for a random id that is not already a key. Two 128-bit random ids colliding is not ruled out by the code.
- LedgerProofs.PurchaseSequenceSellsRemaining: states the "N attempts against K remaining tickets" property for purchases handled one after another, each paid, on an event without a whitelist. Concurrency is not modelled.
- The frontend (React pages and components) is presentation code and is not part of this model.
