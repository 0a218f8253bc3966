# eventsourcing-ec, modelled in Dafny

This project models the write side and the delivery path of an
event-sourced shopping-cart service:

- **Aggregates.** A cart and a tenant's cart-abandonment policy record
  domain events for each command and are rebuilt by replaying their
  history.
- **Value objects and events.**
- **Command use cases.** Adding an item, submitting a cart and updating a
  tenant policy each run in a read-write transaction. They are retried on
  an optimistic-lock conflict and reported to a presenter.
- **Transactional outbox.** Rows are inserted with the events, claimed,
  published and failed.
- **Outbox publisher.** It sends pending rows to the broker.
- **Topic routers and the event deserializer registry.**
- **Read-model projectors.** A cart projector, a tenant-policy projector
  and the combined projector that chains them.
- **In-memory delay queue.**
- **Cart-abandonment subscriber.** It schedules an abandonment check on
  the delay queue when an item is added.

## How the model is built

The source's own form is kept file by file:

- **Pure code.** Value constructors, event constructors, routing, the
  quiet-time check and the view folds are datatypes and functions.
- **Mutable objects.** Aggregates, the outbox table, the event store, the
  projectors, the delay queue, the subscriber and the use cases are
  classes with the source's fields.
- **How each class method is proved.** A class method changes exactly what
  its `modifies` clause names. Its `ensures` ties the new state
  (`State()`) and its result to a specification function of the old
  state, such as `AddItem`, `Save`, `Tick`, `HandleSpec`, `Transaction`
  or `Execution`. The properties the source promises are then proved as
  lemmas about those functions.
- **Loops.** Loops in the source are `while`/`for` loops with invariants:
  - hydration;
  - the total-amount sum;
  - the outbox insert loop and the publisher's send loop;
  - the combined projector;
  - the delay-queue sweep over a map in arbitrary order;
  - the bounded retry loop of each use case.
- **Collaborators behind interfaces** (the event store, the presenter, the
  broker producer, the view stores and the event bus) are small recorder
  classes. Their faults are oracles fixed at construction.
- **Clock, UUIDs and encoding.** `time.Now`, `uuid.New`, `uuid.Parse` and
  JSON encoding are explicit parameters.
- **Time.** Time is an integer count of nanoseconds since Go's zero instant
  (1 January of year 1, UTC), and durations are integer nanoseconds.
- **Other representations.** UUIDs are strings and prices are exact reals.
- **SQL.** The outbox table is a sequence of rows in insertion order. Each
  SQL statement is a function on a row (its `WHERE` and `SET`), applied to
  every row.
- **Transactions.** A read-write transaction is all or nothing: a closure
  that returns an error has its writes to the event streams and to the
  outbox rows rolled back.

### Where the code disagrees with its own comments and tests

The model follows the code as written where it disagrees with its own
comments, its call sites or its tests:

- **Policy updates do nothing.** The tenant-policy command handlers and
  `Hydration` are TODO stubs: the handlers record no events and `Hydration`
  applies none (internal/domain/aggregate/tenant_cart_abandoned_policy.go:42-62,
  98-146). A policy rebuilt from any history is therefore still new, and:
  - every update use case ends in "tenant policy not created"
    (`UpdatePolicyUseCase.UpdateAlwaysFails`);
  - the abandonment subscriber never schedules a check
    (`AbandonmentSubscriber.NeverSchedules`).
- **Repeated items merge into one line.** The code merges lines by item id
  (internal/domain/aggregate/cart.go:92-104): adding an item already in the
  cart adds to that line's quantity and replaces its price, as the cases
  "should accumulate quantity for same item" and "should handle accumulated
  quantity for same item" in internal/domain/aggregate/cart_test.go expect.
- **Purchase stands in for submit.** The submit use case calls
  `ExecuteSubmitCartCommand` (internal/usecase/command/submit_cart_command.go:61-65),
  which the cart aggregate does not define. The model uses the aggregate's
  purchase command, which leaves the status unchanged and requires a line.
  Replaying its event closes the cart (`CartAggregate.PurchaseReplay`).
- **The publisher's marks change no row.** The publisher reads PENDING rows
  without claiming them. Every mark it then issues is guarded by PROCESSING,
  so a tick sends messages but changes no row
  (`OutboxPublisher.TickChangesNoRow`). The claim `GetAndMarkProcessing` is
  modelled separately.
- **Call sites that no longer match their callee:**
  - the cart-created event is built with three arguments, so the model
    gives it the zero tenant;
  - the item-added event has no `GetTenantID`, so the subscriber is given
    a `tenantOf` function;
  - the cart view's item name has no getter, so the model uses the empty
    name;
  - `GetTotal().Float64()` is read as the line total.
- **A hydration test disagrees with the code.** The case "should hydrate
  cart with full event sequence" (internal/domain/aggregate/cart_test.go:332-339)
  replays created, item-added and a submitted event at version 3, and
  expects version 3. `Hydration` does not apply submitted events, so the
  code gives 2 (`CartAggregate.HydrateVersion`, `CartAggregate.ApplyVersion`).
- **A check message must carry its check body.** `processMessage` asserts
  the type of a check message's data without the two-value form
  (internal/infrastructure/delayqueue/memory_delay_queue.go:96-98), so a check
  message with any other body panics. The model makes this a precondition
  of the sweep (`DelayQueue.CheckWellFormed`); the subscriber only schedules
  messages that meet it (`AbandonmentSubscriber.ScheduleKeepsChecksWellFormed`).

## Model

| member | source | states |
|---|---|---|
| Value.NewQuantity | internal/domain/value/quantity.go:14-24 | succeeds exactly on 1..1000 and then holds the given number; n <= 0 gives ErrQuantityInvalid, n > 1000 gives ErrQuantityTooLarge |
| Value.Quantity.Add | internal/domain/value/quantity.go:30-33 | succeeds exactly when the sum lies in 1..1000, then holds the sum; a sum above 1000 gives ErrQuantityTooLarge |
| Value.AddCommutes | internal/domain/value/quantity.go:30-33 | `a.Add(b)` and `b.Add(a)` give the same result, error included |
| Value.NewPrice | internal/domain/value/price.go:14-24 | succeeds exactly on 0..1000000 (both bounds accepted) and `Float64` returns the given price; negative gives ErrPriceInvalid, above the bound ErrPriceTooLarge |
| Value.StatusString | internal/domain/value/outbox_status.go:12-14 | the text of a status is the status itself, character for character |
| Value.StatusesDistinct | internal/domain/value/outbox_status.go:5-10 | the four named statuses PENDING, PROCESSING, PUBLISHED, FAILED are pairwise different |
| Value.AtMostOneStatusPredicate | internal/domain/value/outbox_status.go:16-30 | no text satisfies two of `IsPending`, `IsProcessing`, `IsPublished`, `IsFailed` |
| Entity.NewCartItem | internal/domain/entity/cart_item.go:14-32 | the getters read back exactly the item id, quantity and price given |
| Entity.TotalAtLeastPrice | internal/domain/entity/cart_item.go:34-36 | a line built from a valid quantity and price totals at least its unit price, which is non-negative |
| Event.EventTypeIdentifiesKind | internal/domain/event/item_added_to_cart_event.go:53-56 | two events have the same type tag exactly when they are of the same kind (the six tags are distinct) |
| Event.AggregateTypeOfKinds | internal/domain/event/tenant_cart_abandoned_policy_created_event.go:53-55 | the aggregate tag is "TenantCartAbandonedPolicy" exactly for the two policy events, "Cart" otherwise, and the two tags differ |
| Event.NewCartCreatedEvent | internal/domain/event/cart_created_event.go:18-51 | stores aggregate, user, tenant, version, a fresh event id and the clock reading; tags "CartCreatedEvent"/"Cart" |
| Event.NewItemAddedToCartEvent | internal/domain/event/item_added_to_cart_event.go:21-61 | stores aggregate, item, quantity, price, version, event id and timestamp; tags "ItemAddedToCartEvent"/"Cart" |
| Event.NewCartSubmittedEvent | internal/domain/event/cart_submitted_event.go:18-51 | stores aggregate, total, version, event id; submittedAt and timestamp are the clock reading; tags "CartSubmittedEvent"/"Cart" |
| Event.NewCartPurchasedEvent | internal/domain/event/cart_purchased_event.go:18-51 | stores aggregate, total, version, event id; purchasedAt and timestamp are the clock reading; tags "CartPurchasedEvent"/"Cart" |
| Event.NewTenantCartAbandonedPolicyCreatedEvent | internal/domain/event/tenant_cart_abandoned_policy_created_event.go:20-55 | stores the title, minutes and quiet-time bounds with aggregate, version, id and timestamp; tags "TenantCartAbandonedPolicyCreatedEvent"/"TenantCartAbandonedPolicy" |
| Event.NewTenantCartAbandonedPolicyUpdatedEvent | internal/domain/event/tenant_cart_abandoned_policy_updated_event.go:20-55 | same fields as the created event; tags "TenantCartAbandonedPolicyUpdatedEvent"/"TenantCartAbandonedPolicy" |
| CartAggregate.FindItem | internal/domain/aggregate/cart.go:92-105 | the index of the first line with the item id, or -1 exactly when no line has it |
| CartAggregate.ClosedCartRejectsAdd | internal/domain/aggregate/cart.go:68-70 | a CLOSED cart rejects add-item with ErrCartClosed and stays as it was |
| CartAggregate.AddItemOnNewCart | internal/domain/aggregate/cart.go:72-114 | on a new cart a valid add-item sets id, user and OPEN, records a CartCreated event at version 1 (tenant is the zero UUID) and an ItemAddedToCart event at version 2, and appends the line |
| CartAggregate.InvalidInputOnNewCart | internal/domain/aggregate/cart.go:72-90 | an invalid quantity (checked first) or price on a new cart is reported after the creation step: version 1, creation event kept, no line added |
| CartAggregate.AddItemOnExistingCart | internal/domain/aggregate/cart.go:82-114 | on a created cart add-item is all or nothing: success raises the version by one and appends exactly one ItemAddedToCart event with the command's quantity and price; failure changes nothing |
| CartAggregate.AddItemMergesLine | internal/domain/aggregate/cart.go:92-104 | re-adding an item id adds the quantities and replaces the price in the same line, others untouched; a merged quantity above 1000 is rejected with ErrQuantityTooLarge and the cart is unchanged |
| CartAggregate.AddItemKeepsLinesValid | internal/domain/aggregate/cart.go:82-112 | after add-item every line still holds a quantity in 1..1000 and a price in 0..1000000 |
| CartAggregate.SumTotalsNonNegative | internal/domain/aggregate/cart.go:117-121 | the running sum of line totals over lines with non-negative quantities and prices is non-negative |
| CartAggregate.TotalAmountOfLines | internal/domain/aggregate/cart.go:117-124 | over lines with non-negative quantities and prices (which every reachable cart has), the total is the exact sum when it is at most 1000000 and 0 (the discarded NewPrice error) above that |
| CartAggregate.ValidLinesAreNonNegative | internal/domain/value/quantity.go:14-24 | lines whose quantity and price the constructors accept are non-negative lines |
| CartAggregate.ApplyEventKeepsNonNegativeLines | internal/domain/aggregate/cart.go:147-179 | replaying one event keeps every line non-negative, including a replayed zero quantity |
| CartAggregate.HydrateKeepsNonNegativeLines | internal/domain/aggregate/cart.go:147-179 | a hydrated cart has only non-negative lines, so its total is defined by TotalAmountOfLines |
| CartAggregate.AddItemKeepsNonNegativeLines | internal/domain/aggregate/cart.go:67-115 | adding an item keeps every line non-negative |
| CartAggregate.PurchaseOutcome | internal/domain/aggregate/cart.go:126-145 | purchase succeeds exactly on a created, not CLOSED cart with a line; it then raises the version by one and appends one CartPurchased event carrying the total, status unchanged; a new cart and a created, open cart with no lines give UnpermittedOp "cannot purchase empty cart", a CLOSED one UnpermittedOp "cart is already purchased", and a failure changes nothing |
| CartAggregate.HydrateAppend | internal/domain/aggregate/cart.go:147-179 | hydrating `a + b` equals hydrating `a`, then `b` |
| CartAggregate.HydrateKeepsUncommitted | internal/domain/aggregate/cart.go:147-179 | hydration never changes the uncommitted list |
| CartAggregate.HydrateVersion | internal/domain/aggregate/cart.go:147-179 | after hydration the version is that of the last created/item-added/purchased event; a list with none of those leaves the state unchanged |
| CartAggregate.ApplyVersion | internal/domain/aggregate/cart.go:149-176 | a created, item-added or purchased event sets the version it carries; a submitted or policy event is ignored |
| CartAggregate.AddItemReplay | internal/domain/aggregate/cart.go:67-179 | add-item only appends to the uncommitted list, and hydrating the starting cart with what a successful add-item appended rebuilds the state it produced |
| CartAggregate.PurchaseReplay | internal/domain/aggregate/cart.go:126-179 | purchase leaves the status as it was, but replaying its event closes the cart, after which add-item is rejected |
| CartAggregate.AddAddPurchaseScenario | internal/domain/aggregate/cart.go:67-145 | two new items at 100 and 50, then purchase: versions 2, 3, 4, three then four events, and a purchase total of 150 |
| CartAggregate.Cart.constructor | internal/domain/aggregate/cart.go:34-41 | a new cart: zero ids, no lines, OPEN, version -1, nothing uncommitted |
| CartAggregate.Cart.MarkEventsAsCommitted | internal/domain/aggregate/cart.go:55-57 | empties the uncommitted list and changes nothing else |
| CartAggregate.Cart.IndexOfItem | internal/domain/aggregate/cart.go:92-93 | the loop over the lines finds `FindItem`'s index |
| CartAggregate.Cart.ExecuteAddItemToCartCommand | internal/domain/aggregate/cart.go:67-115 | new state and error are those of `AddItem`, whose properties are the lemmas above |
| CartAggregate.Cart.GetTotalAmount | internal/domain/aggregate/cart.go:117-124 | the running sum of line totals through NewPrice with the error dropped; always within 0..1000000 |
| CartAggregate.Cart.ExecutePurchaseCartCommand | internal/domain/aggregate/cart.go:126-145 | new state and error are those of `Purchase` (see PurchaseOutcome) |
| CartAggregate.Cart.Hydration | internal/domain/aggregate/cart.go:147-179 | the loop leaves the state `Hydrate` gives and returns no error |
| TenantCartAbandonedPolicy.AbandonedDelay | internal/domain/aggregate/tenant_cart_abandoned_policy.go:65-67 | the delay is a whole number of minutes, exactly the configured minutes |
| TenantCartAbandonedPolicy.ClockMinutes | internal/domain/aggregate/tenant_cart_abandoned_policy.go:81-83 | the UTC hour*60 + minute of an instant lies in 0..1439 |
| TenantCartAbandonedPolicy.CreateOutcome | internal/domain/aggregate/tenant_cart_abandoned_policy.go:98-117 | create succeeds exactly on a new policy (else "tenant policy already exists" and no change), then stores tenant, title, minutes and both quiet-time bounds at version 1; no event is recorded |
| TenantCartAbandonedPolicy.UpdateOutcome | internal/domain/aggregate/tenant_cart_abandoned_policy.go:120-146 | update fails exactly before creation ("tenant policy not created"); the state changes exactly when the policy exists and a setting differs, and then holds the new settings at version + 1; tenant id and uncommitted list never change |
| TenantCartAbandonedPolicy.HydratePolicyIsIdentity | internal/domain/aggregate/tenant_cart_abandoned_policy.go:42-62 | replaying any events changes nothing, so a policy rebuilt from history is still at version -1 |
| TenantCartAbandonedPolicy.UpdateIdempotent | internal/domain/aggregate/tenant_cart_abandoned_policy.go:125-131 | repeating an update on a created policy succeeds and changes nothing, version included |
| TenantCartAbandonedPolicy.AbandonedDelayExamples | internal/domain/aggregate/tenant_cart_abandoned_policy.go:65-67 | 30, 60 and 120 minutes give 30 minutes, one hour and two hours |
| TenantCartAbandonedPolicy.QuietTimeDisabled | internal/domain/aggregate/tenant_cart_abandoned_policy.go:71-73 | a zero bound, or both bounds on the same minute of the day, means never quiet |
| TenantCartAbandonedPolicy.QuietTimeSwapIsComplement | internal/domain/aggregate/tenant_cart_abandoned_policy.go:85-94 | with distinct non-zero bounds, the window across midnight is exactly the complement of the same-day window with the bounds swapped |
| TenantCartAbandonedPolicy.ClockMinutesDaily | internal/domain/aggregate/tenant_cart_abandoned_policy.go:76-83 | the minute of the day repeats after any whole number of days |
| TenantCartAbandonedPolicy.ClockMinutesNextDay | internal/domain/aggregate/tenant_cart_abandoned_policy.go:76-83 | one day later the minute of the day is the same |
| TenantCartAbandonedPolicy.ClockMinutesOfTime | internal/domain/aggregate/tenant_cart_abandoned_policy.go:81-83 | `h` hours and `m` minutes past a midnight is minute `h*60 + m` |
| TenantCartAbandonedPolicy.QuietTimeIsDaily | internal/domain/aggregate/tenant_cart_abandoned_policy.go:70-95 | shifting the current time by whole days does not change the quiet-time answer |
| TenantCartAbandonedPolicy.ClockMinutesOnJan1st2023 | internal/domain/aggregate/tenant_cart_abandoned_policy.go:81-83 | `h:m` UTC on 2023-01-01 is minute `h*60 + m` |
| TenantCartAbandonedPolicy.QuietTimeOvernightExamples | internal/domain/aggregate/tenant_cart_abandoned_policy.go:88-90 | the 22:00-08:00 window is quiet at 23:30 and 02:00 and not at 10:00 |
| TenantCartAbandonedPolicy.QuietTimeSameDayExamples | internal/domain/aggregate/tenant_cart_abandoned_policy.go:71-87 | the 12:00-14:00 window is quiet at 13:00; zero bounds are never quiet |
| TenantCartAbandonedPolicy.TenantCartAbandonedPolicyAggregate.constructor | internal/domain/aggregate/tenant_cart_abandoned_policy.go:23-28 | zero fields, version -1, nothing uncommitted |
| TenantCartAbandonedPolicy.TenantCartAbandonedPolicyAggregate.MarkEventsAsCommitted | internal/domain/aggregate/tenant_cart_abandoned_policy.go:38-40 | empties the uncommitted list, nothing else changes |
| TenantCartAbandonedPolicy.TenantCartAbandonedPolicyAggregate.Hydration | internal/domain/aggregate/tenant_cart_abandoned_policy.go:42-62 | the loop applies every event through `apply`'s ignoring default and returns no error |
| TenantCartAbandonedPolicy.TenantCartAbandonedPolicyAggregate.CartAbandonedDelay | internal/domain/aggregate/tenant_cart_abandoned_policy.go:65-67 | the delay of the stored minutes, per `AbandonedDelay` |
| TenantCartAbandonedPolicy.TenantCartAbandonedPolicyAggregate.IsWithinQuietTime | internal/domain/aggregate/tenant_cart_abandoned_policy.go:70-95 | agrees with the window function `QuietTime` (whose properties are the lemmas above) and is only true with both bounds set |
| TenantCartAbandonedPolicy.TenantCartAbandonedPolicyAggregate.Create | internal/domain/aggregate/tenant_cart_abandoned_policy.go:98-117 | new state and error per `AfterCreate` (see CreateOutcome) |
| TenantCartAbandonedPolicy.TenantCartAbandonedPolicyAggregate.UpdatePolicy | internal/domain/aggregate/tenant_cart_abandoned_policy.go:120-146 | new state and error per `AfterUpdate` (see UpdateOutcome) |
| TenantPolicy.CreateOutcome | internal/domain/aggregate/tenant_policy.go:64-80 | create succeeds exactly on a new aggregate and then holds the tenant, the minutes and version 1; otherwise UnpermittedOp "already exists" and no change |
| TenantPolicy.ChangeMinutesOutcome | internal/domain/aggregate/tenant_policy.go:83-101 | fails (UnpermittedOp) exactly before creation; changes the state exactly when the minutes differ, storing them at version + 1 |
| TenantPolicy.TenantPolicyAggregate.constructor | internal/domain/aggregate/tenant_policy.go:18-23 | zero fields, version -1 |
| TenantPolicy.TenantPolicyAggregate.MarkEventsAsCommitted | internal/domain/aggregate/tenant_policy.go:32-34 | empties the uncommitted list only |
| TenantPolicy.TenantPolicyAggregate.Hydration | internal/domain/aggregate/tenant_policy.go:36-56 | no event changes the aggregate; no error |
| TenantPolicy.TenantPolicyAggregate.CartAbandonedDelay | internal/domain/aggregate/tenant_policy.go:59-61 | the stored minutes as a duration |
| TenantPolicy.TenantPolicyAggregate.Create | internal/domain/aggregate/tenant_policy.go:64-80 | new state and error per `AfterCreate` (see CreateOutcome) |
| TenantPolicy.TenantPolicyAggregate.ChangeCartAbandonedMinutes | internal/domain/aggregate/tenant_policy.go:83-101 | new state and error per `AfterChangeMinutes` (see ChangeMinutesOutcome) |
| OutboxRepository.NewRow | internal/infrastructure/database/outbox/outbox_repository_impl.go:30-58 | an inserted row carries the event's id, type tags and version, the given aggregate id, encoded data and time, status PENDING, retry count 0, no publish time and no error message |
| OutboxRepository.Take | internal/infrastructure/database/outbox/outbox_repository_impl.go:79 | `LIMIT n` keeps a prefix of at most `n` rows, all of them when there are at most `n` |
| OutboxRepository.EventIDs | internal/infrastructure/database/outbox/outbox_repository_impl.go:265 | the event ids of the selected rows, in the same order |
| OutboxRepository.Apply | internal/infrastructure/database/outbox/outbox_repository_impl.go:150-157 | an UPDATE changes every row in place by its SET/WHERE clause and adds or removes none |
| OutboxRepository.AsProcessing | internal/infrastructure/database/outbox/outbox_repository_impl.go:296-299 | the returned batch is the selected rows with their in-memory status set to PROCESSING, nothing else changed |
| OutboxRepository.SaveAppends | internal/infrastructure/database/outbox/outbox_repository_impl.go:24-65 | save keeps the existing rows and appends, in list order, one PENDING row per event up to the first that does not encode; on success every event gets a row, on failure the error is the marshal error and the event at the stop does not encode |
| OutboxRepository.SaveSucceedsIffAllEncode | internal/infrastructure/database/outbox/outbox_repository_impl.go:43-64 | save succeeds exactly when every event encodes, and then adds one row per event |
| OutboxRepository.FilterSound | internal/infrastructure/database/outbox/outbox_repository_impl.go:77 | every selected row matches the WHERE clause and is a row of the table |
| OutboxRepository.FilterComplete | internal/infrastructure/database/outbox/outbox_repository_impl.go:77 | every matching row is selected before the LIMIT |
| OutboxRepository.FilterOrdered | internal/infrastructure/database/outbox/outbox_repository_impl.go:78 | selection keeps table order, so a table in created_at order gives a selection in created_at order |
| OutboxRepository.OldestSpec | internal/infrastructure/database/outbox/outbox_repository_impl.go:73-80 | the selection holds at most `limit` matching rows of the table; with fewer than `limit` it holds every matching row; in a created_at-ordered table it is ordered and no matching row left out is older than one selected |
| OutboxRepository.TerminalRowsFrozen | internal/infrastructure/database/outbox/outbox_repository_impl.go:150-316 | no statement changes a PUBLISHED or FAILED row |
| OutboxRepository.SaveKeepsCreatedInOrder | internal/infrastructure/database/outbox/outbox_repository_impl.go:24-65 | saving at a clock reading no earlier than any stored created_at keeps the table in created_at order and bounded by that reading |
| OutboxRepository.ApplyKeepsCreatedInOrder | internal/infrastructure/database/outbox/outbox_repository_impl.go:129-322 | no UPDATE changes created_at, so the created_at order of the table is kept |
| OutboxRepository.OldestOfSavedTable | internal/infrastructure/database/outbox/outbox_repository_impl.go:67-80 | on a table built by saves, the oldest-first selection is in created_at order and no matching row left out is older than one selected |
| OutboxRepository.UpdateTransitions | internal/infrastructure/database/outbox/outbox_repository_impl.go:150-316 | statements move a row only PENDING to PROCESSING or FAILED and PROCESSING to PUBLISHED or FAILED; the retry count only grows by one on a PROCESSING row; the event's own columns never change |
| OutboxRepository.FailThenIncrement | internal/infrastructure/database/outbox/outbox_repository_impl.go:171-197 | after `MarkAsFailed` matched a row, `IncrementRetryCount` leaves it alone |
| OutboxRepository.PendingRowsIgnoreMarks | internal/infrastructure/database/outbox/outbox_repository_impl.go:150-197 | publish, fail and increment statements leave a PENDING row unchanged |
| OutboxRepository.ClaimFlipsSelected | internal/infrastructure/database/outbox/outbox_repository_impl.go:213-294 | with unique event ids, the claim turns exactly the selected rows (the oldest PENDING ones under the retry limit) to PROCESSING and leaves every other row as it was |
| OutboxRepository.ExpireSpec | internal/infrastructure/database/outbox/outbox_repository_impl.go:305-324 | a row changes exactly when it is PENDING with retry count at or over the limit, and then becomes FAILED with "max retries exceeded" |
| OutboxRepository.SaveStopsAtFailure | internal/infrastructure/database/outbox/outbox_repository_impl.go:43-47 | once an insert fails, the later events change nothing |
| OutboxRepository.OutboxTable.constructor | internal/infrastructure/database/outbox/outbox_repository_impl.go:20-22 | a table holding the given rows and next id |
| OutboxRepository.OutboxTable.SaveEvents | internal/infrastructure/database/outbox/outbox_repository_impl.go:24-65 | the insert loop leaves the table and error `Save` gives (see SaveAppends) |
| OutboxRepository.OutboxTable.GetPendingEvents | internal/infrastructure/database/outbox/outbox_repository_impl.go:67-127 | read-only: returns the oldest PENDING rows, at most `limit` (see OldestSpec) |
| OutboxRepository.OutboxTable.GetAndMarkProcessing | internal/infrastructure/database/outbox/outbox_repository_impl.go:207-303 | returns the oldest claimable rows reported as PROCESSING and applies the claim UPDATE to the table when any were selected (see ClaimFlipsSelected) |
| OutboxRepository.OutboxTable.MarkAsPublished | internal/infrastructure/database/outbox/outbox_repository_impl.go:129-163 | an empty id list changes nothing; otherwise the PROCESSING rows with those ids become PUBLISHED with the time |
| OutboxRepository.OutboxTable.MarkAsFailed | internal/infrastructure/database/outbox/outbox_repository_impl.go:165-184 | applies the guarded fail statement to every row |
| OutboxRepository.OutboxTable.IncrementRetryCount | internal/infrastructure/database/outbox/outbox_repository_impl.go:186-205 | applies the guarded increment statement to every row |
| OutboxRepository.OutboxTable.MarkMaxRetriesExceededAsFailed | internal/infrastructure/database/outbox/outbox_repository_impl.go:305-324 | applies the expiry statement to every row (see ExpireSpec) |
| OutboxPublisher.Envelope | internal/infrastructure/messaging/outbox/outbox_publisher.go:108-119 | the message carries the row's event id, type, raw data, aggregate id and version, goes to the topic routed by the aggregate type, keyed by the aggregate type |
| OutboxPublisher.Envelopes | internal/infrastructure/messaging/outbox/outbox_publisher.go:81-92 | one envelope per row, in row order |
| OutboxPublisher.SendBatchSpec | internal/infrastructure/messaging/outbox/outbox_publisher.go:79-92 | the loop sends exactly the batch rows with fewer than 3 retries, in batch order, collects exactly the ids the broker accepted, and leaves the table alone when no batch id is PROCESSING |
| OutboxPublisher.SendBatchSends | internal/infrastructure/messaging/outbox/outbox_publisher.go:81-89 | the sends are one envelope per eligible batch row, in order |
| OutboxPublisher.SendBatchDelivered | internal/infrastructure/messaging/outbox/outbox_publisher.go:81-92 | the collected ids are those of the eligible rows whose send succeeded, in order |
| OutboxPublisher.SendBatchKeepsRows | internal/infrastructure/messaging/outbox/outbox_publisher.go:119-145 | the failure marks of the loop change no row when no batch id is PROCESSING |
| OutboxPublisher.FilterLast | internal/infrastructure/messaging/outbox/outbox_publisher.go:81-85 | selecting a non-empty list is selecting its prefix plus its last row when that matches |
| OutboxPublisher.FailIsNoOp | internal/infrastructure/messaging/outbox/outbox_publisher.go:135-145 | `handlePublishError` on an id that no PROCESSING row carries changes nothing |
| OutboxPublisher.BatchIdsArePending | internal/infrastructure/messaging/outbox/outbox_publisher.go:62-68 | with unique event ids, no table row carrying an id of the read batch is PROCESSING |
| OutboxPublisher.TickChangesNoRow | internal/infrastructure/messaging/outbox/outbox_publisher.go:62-102 | a tick reads the oldest (at most 100) PENDING rows, sends each with fewer than 3 retries, marks the accepted ones, and changes no row: every statement it issues is guarded by PROCESSING, which no batch row has |
| OutboxPublisher.EventIDsOfFilter | internal/infrastructure/messaging/outbox/outbox_publisher.go:91 | an id collected from the filtered batch is an id of the batch |
| OutboxPublisher.ExhaustedRowsNeverSent | internal/infrastructure/messaging/outbox/outbox_publisher.go:82-85 | a row with 3 or more retries is never sent |
| OutboxPublisher.Publisher.constructor | internal/infrastructure/messaging/outbox/outbox_publisher.go:29-41 | holds the given repository, producer and router |
| OutboxPublisher.Publisher.PublishPendingEvents | internal/infrastructure/messaging/outbox/outbox_publisher.go:62-102 | the table ends as `Tick` says (unchanged, see TickChangesNoRow), the producer got exactly `Tick`'s sends, and the returned ids are those handed to `MarkAsPublished` |
| OutboxPublisher.Publisher.SendEach | internal/infrastructure/messaging/outbox/outbox_publisher.go:79-92 | the loop's sends, collected ids and table are those of `SendBatch` (see SendBatchSpec) |
| OutboxPublisher.Publisher.HandlerSingleEvent | internal/infrastructure/messaging/outbox/outbox_publisher.go:108-128 | sends the row's envelope once; on failure the row gets the fail and increment statements; returns the broker's outcome |
| OutboxPublisher.Publisher.HandlePublishError | internal/infrastructure/messaging/outbox/outbox_publisher.go:130-146 | runs the fail statement, then the increment statement, on the event id |
| Messaging.MessageProducer.constructor | internal/usecase/ports/messaging/message_producer.go:5-8 | a producer that has sent nothing, with the given broker outcome |
| Messaging.MessageProducer.PublishMessage | internal/usecase/ports/messaging/message_producer.go:6 | records the call and returns the broker's outcome for it |
| TopicRouter.Route | internal/infrastructure/messaging/kafka/topic_router.go:18-23 | a mapped aggregate type gets its topic, any other "ec.misc-events" |
| TopicRouter.AddMappingSpec | internal/infrastructure/messaging/kafka/topic_router.go:25-27 | after `AddMapping(a, t)`, `a` routes to `t`, every other type routes as before, and adding a mapping twice equals adding it once |
| TopicRouter.KafkaRoutesSpec | internal/infrastructure/messaging/kafka/topic_router.go:9-23 | the broker-side router sends "Cart" and "TenantCartAbandonedPolicy" to "ec.cart-events" and any other type to "ec.misc-events" |
| TopicRouter.EventStoreRoutesSpec | internal/infrastructure/eventstore/topic_router.go:11-24 | the event-store router sends "Cart" to "ec.cart-events" and everything else, policy events included, to "ec.misc-events" |
| TopicRouter.KafkaRoutesEveryEvent | internal/infrastructure/messaging/kafka/topic_router.go:9-23 | every domain event goes to "ec.cart-events" on the broker side |
| TopicRouter.StaticMapRouter.Kafka | internal/infrastructure/messaging/kafka/topic_router.go:9-16 | the broker-side router starts with both aggregate types mapped to "ec.cart-events" |
| TopicRouter.StaticMapRouter.EventStore | internal/infrastructure/eventstore/topic_router.go:11-17 | the event-store router starts with only "Cart" mapped |
| TopicRouter.StaticMapRouter.TopicFor | internal/infrastructure/eventstore/topic_router.go:19-24 | the lookup with fallback of `Route`; the event type plays no part |
| TopicRouter.StaticMapRouter.AddMapping | internal/infrastructure/eventstore/topic_router.go:26-27 | sets (or replaces) the topic of one aggregate type, nothing else |
| EventDeserializer.Dispatch | internal/infrastructure/database/eventstore/deserializer/event_deserializer_impl.go:37-44 | an unregistered tag gives "unknown event type: " + tag; a registered one is decoded by its own decoder |
| EventDeserializer.InitialRegistrySpec | internal/infrastructure/database/eventstore/deserializer/event_deserializer_impl.go:19-31 | the initial registry answers exactly the four cart tags, each with its own decoder; the two policy tags are unknown |
| EventDeserializer.RegisterSpec | internal/infrastructure/database/eventstore/deserializer/event_deserializer_impl.go:33-35 | registering makes the tag dispatch to the new decoder, replacing an earlier one, and leaves every other tag as it was |
| EventDeserializer.EventRegistry.constructor | internal/infrastructure/database/eventstore/deserializer/event_deserializer_impl.go:19-31 | registering the four cart decoders in turn builds the initial registry |
| EventDeserializer.EventRegistry.Register | internal/infrastructure/database/eventstore/deserializer/event_deserializer_impl.go:33-35 | stores the decoder under its own tag |
| EventDeserializer.EventRegistry.Deserialize | internal/infrastructure/database/eventstore/deserializer/event_deserializer_impl.go:37-44 | agrees with `Dispatch` on the registry |
| Projection.ViewStore.constructor | internal/usecase/ports/readmodelstore/cart_store.go:9-12 | an empty store with the given not-found message and fault oracles |
| Projection.ViewStore.Get | internal/usecase/ports/readmodelstore/cart_store.go:10 | the stored view, NotFound for an absent key, or the database fault (per `GetResult`) |
| Projection.ViewStore.Upsert | internal/usecase/ports/readmodelstore/cart_store.go:11 | overwrites the key's view unless the write faults, and returns the fault |
| Projection.GetResult | internal/usecase/ports/readmodelstore/cart_store.go:10 | without a fault a read succeeds exactly for a stored key and returns its view; an absent key is NotFound |
| Projection.ProjectFrame | internal/infrastructure/projector/cart/cart_projector_impl.go:26-71 | every call records its event id whatever happens next; only the view of the event's own aggregate can change; a seen or irrelevant event changes no view and returns nil; an error leaves the views as they were |
| Projection.ProjectTwiceIsOnce | internal/infrastructure/projector/cart/cart_projector_impl.go:30-34 | handling the same event id again is a no-op returning nil, even when the first call failed |
| Projection.ProjectFaultless | internal/infrastructure/projector/cart/cart_projector_impl.go:36-64 | without store faults a new relevant event replaces the aggregate's view by the fold of the event into it (when the fold gives a view) and no error is returned |
| Projection.EventBus.constructor | internal/usecase/ports/gateway/eventbus.go:13-15 | a bus with no handlers |
| Projection.EventBus.Subscribe | internal/usecase/ports/gateway/eventbus.go:14 | appends the handler to the subscriptions |
| CartProjector.ViewAfterSpec | internal/infrastructure/projector/cart/cart_projector_impl.go:78-151 | a created event opens a fresh empty OPEN view at its version and time; item-added and submitted events need a view and keep its id, user and times; item-added appends a line with the item id and price; submitted sets SUBMITTED and keeps lines and totals; other events leave the view alone |
| CartProjector.ViewAfterKeepsConsistent | internal/infrastructure/projector/cart/cart_projector_impl.go:102-130 | a view whose count and total agree with its lines keeps agreeing; an item-added event raises the total by exactly the line's price and the count by one |
| CartProjector.QuantityIgnored | internal/infrastructure/projector/cart/cart_projector_impl.go:105-117 | the quantity of an item-added event takes no part in the view |
| CartProjector.HandleFaultless | internal/infrastructure/projector/cart/cart_projector_impl.go:26-71 | with a store that never fails, a new event is recorded and the cart's stored view becomes the fold of the event into the previous one; no other view changes |
| CartProjector.SubmittedCartScenario | internal/infrastructure/projector/cart/cart_projector_impl.go:26-151 | created, two item-added (100 and 50), then submitted gives a SUBMITTED view with both lines, total 150, version 4 and the right times |
| CartProjector.CartProjectorImpl.constructor | internal/infrastructure/projector/cart/cart_projector_impl.go:19-24 | the given store and an empty seen set |
| CartProjector.CartProjectorImpl.Handle | internal/infrastructure/projector/cart/cart_projector_impl.go:26-71 | new seen set, stored views and error are those of `HandleSpec` (see HandleFaultless, ProjectFrame, ProjectTwiceIsOnce) |
| CartProjector.CartProjectorImpl.Start | internal/infrastructure/projector/cart/cart_projector_impl.go:73-76 | subscribes its handler once and returns nil |
| CartProjector.CartProjectorImpl.ApplyToView | internal/infrastructure/projector/cart/cart_projector_impl.go:78-151 | the summing loop yields `ViewAfter` (see ViewAfterSpec) |
| TenantPolicyProjector.ViewAfterSpec | internal/infrastructure/projector/tenant/tenant_policy_projector_impl.go:61-92 | a created event writes the event's settings with its id and created = updated = its time; an updated event gives a view exactly when there was one, takes the event's settings and keeps the view's id and creation time; other events leave the view alone |
| TenantPolicyProjector.CreateThenUpdate | internal/infrastructure/projector/tenant/tenant_policy_projector_impl.go:61-92 | created then updated shows the update's settings with the created event's id and creation time; folding the same update twice is folding it once |
| TenantPolicyProjector.HandleFaultless | internal/infrastructure/projector/tenant/tenant_policy_projector_impl.go:25-54 | with a store that never fails, a new event is recorded, no error is returned and the tenant's stored view becomes the fold of the event into the previous one |
| TenantPolicyProjector.TenantPolicyProjectorImpl.constructor | internal/infrastructure/projector/tenant/tenant_policy_projector_impl.go:18-23 | the given store and an empty seen set |
| TenantPolicyProjector.TenantPolicyProjectorImpl.Handle | internal/infrastructure/projector/tenant/tenant_policy_projector_impl.go:25-54 | new seen set, stored views and error are those of `HandleSpec` (see HandleFaultless, Projection.ProjectFrame) |
| TenantPolicyProjector.TenantPolicyProjectorImpl.Start | internal/infrastructure/projector/tenant/tenant_policy_projector_impl.go:56-59 | subscribes its handler once and returns nil |
| CombinedProjector.StopsAtFirstError | internal/infrastructure/projector/service/combined_projector.go:20-27 | once a prefix of the projector list fails, the list's state and error are that prefix's: later projectors are not called |
| CombinedProjector.FirstErrorWins | internal/infrastructure/projector/service/combined_projector.go:20-27 | the result is an error if and only if some projector is the first to fail (every earlier one returned nil) |
| CombinedProjector.ErrorHasFirstFailure | internal/infrastructure/projector/service/combined_projector.go:20-27 | an error from the list implies a first failing projector |
| CombinedProjector.NoErrorNoFailure | internal/infrastructure/projector/service/combined_projector.go:20-27 | a nil result means no projector failed |
| CombinedProjector.StopsAtFirstErrorOrNone | internal/infrastructure/projector/service/combined_projector.go:20-27 | when the whole list returns nil, every prefix of it returns nil |
| CombinedProjector.CartEventThroughBoth | internal/infrastructure/projector/service/combined_projector.go:20-27 | cart then policy projector with stores that never fail: a new cart event updates the cart view by its fold, returns nil, and the policy projector only records the event id |
| CombinedProjector.CombinedProjectorImpl.constructor | internal/infrastructure/projector/service/combined_projector.go:14-18 | keeps the projector list as given |
| CombinedProjector.CombinedProjectorImpl.Handle | internal/infrastructure/projector/service/combined_projector.go:20-27 | the loop's resulting states and error are `HandleAll` over the list (see FirstErrorWins, StopsAtFirstError) |
| CombinedProjector.CombinedProjectorImpl.Start | internal/infrastructure/projector/service/combined_projector.go:29-36 | every projector in the list subscribes its handler, in list order, and nil is returned |
| CommandPorts.LoadSpec | internal/domain/repository/event_store.go:12 | a load succeeds only with the aggregate's whole non-empty history; without a read fault it fails exactly for an empty history, with NotFound; a read fault is returned as is |
| CommandPorts.SaveSpec | internal/domain/repository/event_store.go:11 | a successful save appends the events to its own stream and changes no other; a refused save changes no stream |
| CommandPorts.SaveThenLoad | internal/domain/repository/event_store.go:11-12 | after a successful save of a non-empty list, a fault-free load returns the old history followed by the saved events |
| CommandPorts.EventStore.constructor | internal/domain/repository/event_store.go:10-13 | a store with the given streams, read faults and save outcomes |
| CommandPorts.EventStore.LoadEvents | internal/domain/repository/event_store.go:12 | returns `LoadResult` (see LoadSpec) |
| CommandPorts.EventStore.SaveEvents | internal/domain/repository/event_store.go:11 | new state and error are `SaveResult` (see SaveSpec, SaveThenLoad) |
| CommandPorts.EventStore.Restore | internal/domain/repository/event_store.go:10-13 | a rolled-back transaction puts the streams back and changes nothing else |
| CommandPorts.Presenter.constructor | internal/usecase/ports/presenter/command_result_presenter.go:9-12 | no calls yet |
| CommandPorts.Presenter.PresentSuccess | internal/usecase/ports/presenter/command_result_presenter.go:10 | records one success call with the id, version and events |
| CommandPorts.Presenter.PresentError | internal/usecase/ports/presenter/command_result_presenter.go:11 | records one error call with the error |
| CommandPorts.EventPublisher.constructor | internal/usecase/ports/gateway/eventbus.go:9-11 | nothing published yet |
| CommandPorts.EventPublisher.Publish | internal/usecase/ports/gateway/eventbus.go:10 | records one publication of exactly the given events |
| CommandRetry.RetryStep | internal/usecase/command/add_item_to_cart_command.go:95-103 | after an attempt, the loop goes on with the next attempt on the new state exactly when the error is OptimisticLock and attempts remain; otherwise it ends with that attempt's state and outcome |
| CommandRetry.RetryBounds | internal/usecase/command/add_item_to_cart_command.go:37-43 | between one and three attempts; an OptimisticLock error is reported only after the third; a commit or another error ends the loop at once |
| CommandRetry.RetryOnlyOnLock | internal/usecase/command/add_item_to_cart_command.go:95-103 | a second attempt happens if and only if the first failed with OptimisticLock, and then starts from the state the first left |
| CommandRetry.AbortedRunKeeps | internal/usecase/command/add_item_to_cart_command.go:43-104 | any property of the state that aborted attempts preserve holds after a run that ends in an error |
| CommandRetry.CommittedRunSatisfies | internal/usecase/command/add_item_to_cart_command.go:43-104 | what every committing attempt guarantees from such a state holds of a run that ends in a commit |
| AddItemToCartUseCase.TransactionFrame | internal/usecase/command/add_item_to_cart_command.go:44-94 | an aborted transaction leaves the streams and the bus alone; a committed one appends one or two events to the reported cart's stream only, reports the version of the last, and the after-commit hook publishes exactly those events |
| AddItemToCartUseCase.ParseFailureNotRetried | internal/usecase/command/add_item_to_cart_command.go:45-53 | a malformed cart or item id fails once, with the error text `uuid.Parse` reported for the first malformed id and no code, and changes nothing |
| AddItemToCartUseCase.FirstAddCreatesCart | internal/usecase/command/add_item_to_cart_command.go:55-91 | adding to a cart with no history commits on the first attempt: created (version 1) then item-added (version 2) are saved, published and presented with version 2 |
| AddItemToCartUseCase.AbortedAttemptsKeep | internal/usecase/command/add_item_to_cart_command.go:44-94 | an aborted attempt rolls back: the streams and the bus stay as they were |
| AddItemToCartUseCase.AbortedExecutionChangesNothing | internal/usecase/command/add_item_to_cart_command.go:43-108 | an execution that presents an error has changed no stream and published nothing |
| AddItemToCartUseCase.CommittedAttemptsSave | internal/usecase/command/add_item_to_cart_command.go:44-94 | a committing attempt on an untouched state saves and publishes exactly the reported events |
| AddItemToCartUseCase.CommittedExecutionSavesAndPublishes | internal/usecase/command/add_item_to_cart_command.go:43-111 | an execution that presents success has appended exactly the presented events to that cart's stream only and published them once |
| AddItemToCartUseCase.CartAddItemCommand.constructor | internal/usecase/command/add_item_to_cart_command.go:28-34 | keeps the store and the bus |
| AddItemToCartUseCase.CartAddItemCommand.Execute | internal/usecase/command/add_item_to_cart_command.go:36-111 | final state is `Execution` (see the lemmas above) and the presenter is called once with its outcome |
| AddItemToCartUseCase.CartAddItemCommand.Transact | internal/usecase/command/add_item_to_cart_command.go:44-94 | one transaction with rollback on error and publication after commit, as `Transaction` |
| AddItemToCartUseCase.CartAddItemCommand.RunClosure | internal/usecase/command/add_item_to_cart_command.go:44-94 | the closure's effect and result are `Closure` |
| SubmitCartUseCase.TransactionFrame | internal/usecase/command/submit_cart_command.go:43-87 | an aborted transaction leaves the streams and outbox rows alone; a committed one appends one purchase event (with the reported version) to that cart's stream only and one PENDING outbox row for it after the existing rows, and reports no events |
| SubmitCartUseCase.SubmitWithoutHistory | internal/usecase/command/submit_cart_command.go:49-68 | submitting a cart with no history fails once with UnpermittedOp "cannot purchase empty cart" (the purchase of a never-created cart) and changes nothing |
| SubmitCartUseCase.SubmitAfterFirstAdd | internal/usecase/command/submit_cart_command.go:43-87 | after created and item-added, submitting commits on the first attempt with version 3, the third stored event is the purchase and one PENDING row is added |
| SubmitCartUseCase.AbortedAttemptsKeep | internal/usecase/command/submit_cart_command.go:43-87 | an aborted attempt rolls back the streams and the outbox rows |
| SubmitCartUseCase.CommittedAttemptsRecord | internal/usecase/command/submit_cart_command.go:43-87 | a committing attempt on an untouched state records one purchase event and one outbox row |
| SubmitCartUseCase.ExecutionOutcome | internal/usecase/command/submit_cart_command.go:35-103 | an execution ending in error changed no stream and no row; one ending in success added exactly one purchase event and one outbox row and presents no events |
| SubmitCartUseCase.SubmitCartCommand.constructor | internal/usecase/command/submit_cart_command.go:27-33 | keeps the store and the outbox |
| SubmitCartUseCase.SubmitCartCommand.Execute | internal/usecase/command/submit_cart_command.go:35-103 | final state is `Execution` (see ExecutionOutcome) and the presenter is called once with its outcome |
| SubmitCartUseCase.SubmitCartCommand.Transact | internal/usecase/command/submit_cart_command.go:43-87 | one transaction with rollback on error, as `Transaction` |
| SubmitCartUseCase.SubmitCartCommand.RunClosure | internal/usecase/command/submit_cart_command.go:43-87 | the closure's effect and result are `Closure` |
| UpdatePolicyUseCase.TransactionAlwaysAborts | internal/usecase/command/update_tenant_cart_abandoned_policy_command.go:43-91 | every attempt aborts and changes nothing, with the parse error, the read fault or "tenant policy not created" |
| UpdatePolicyUseCase.UpdateAlwaysFails | internal/usecase/command/update_tenant_cart_abandoned_policy_command.go:35-108 | every execution presents an error and leaves store and outbox as they were; it takes three attempts for an OptimisticLock read fault and one otherwise |
| UpdatePolicyUseCase.UpdateReportsNotCreated | internal/usecase/command/update_tenant_cart_abandoned_policy_command.go:44-71 | with a valid id and a readable store, one attempt presents "tenant policy not created" |
| UpdatePolicyUseCase.UpdateTenantCartAbandonedPolicyCommand.constructor | internal/usecase/command/update_tenant_cart_abandoned_policy_command.go:27-33 | keeps the store and the outbox |
| UpdatePolicyUseCase.UpdateTenantCartAbandonedPolicyCommand.Execute | internal/usecase/command/update_tenant_cart_abandoned_policy_command.go:35-108 | final state is `Execution` (see UpdateAlwaysFails) and the presenter is called once with its outcome |
| UpdatePolicyUseCase.UpdateTenantCartAbandonedPolicyCommand.Transact | internal/usecase/command/update_tenant_cart_abandoned_policy_command.go:43-91 | one transaction with rollback on error, as `Transaction` |
| UpdatePolicyUseCase.UpdateTenantCartAbandonedPolicyCommand.RunClosure | internal/usecase/command/update_tenant_cart_abandoned_policy_command.go:43-91 | the closure's effect and result are `Closure` |
| DelayQueue.AbandonmentNotice | internal/infrastructure/delayqueue/memory_delay_queue.go:96-102 | for a check message that carries its check body (the type assertion at line 98 panics otherwise), a cart is reported exactly for a message of type CheckCartAbandonmentCommand, and it is the cart id of its body |
| DelayQueue.ChecksStayWellFormed | internal/infrastructure/delayqueue/memory_delay_queue.go:30-78 | publishing a processable message keeps every queued entry processable, publishing an unprocessable one does not, and a sweep keeps the rest processable |
| DelayQueue.SweepPartition | internal/infrastructure/delayqueue/memory_delay_queue.go:67-78 | a sweep splits the queue into fired ids and kept entries, disjoint and together the whole queue; kept entries are unchanged and not yet due; sweeping again at the same time fires nothing |
| DelayQueue.PublishThenSweep | internal/infrastructure/delayqueue/memory_delay_queue.go:30-78 | a published message replaces any entry with its id and is fired by a sweep if and only if the sweep's time is at or after its execution time |
| DelayQueue.RemainingIsMinusDue | internal/infrastructure/delayqueue/memory_delay_queue.go:72-77 | what a sweep keeps is the queue minus the due ids |
| DelayQueue.MemoryDelayQueue.constructor | internal/infrastructure/delayqueue/memory_delay_queue.go:24-28 | an empty queue |
| DelayQueue.MemoryDelayQueue.PublishDelayedMessage | internal/infrastructure/delayqueue/memory_delay_queue.go:30-48 | stores the message under its id, due at the clock reading plus the delay, and returns nil |
| DelayQueue.MemoryDelayQueue.ProcessExpiredMessages | internal/infrastructure/delayqueue/memory_delay_queue.go:67-83 | the queue keeps exactly the entries not yet due; every due entry is fired exactly once, as the entry it was; the reported carts are those of the fired abandonment checks, in firing order |
| DelayQueue.MemoryDelayQueue.RemoveExpired | internal/infrastructure/delayqueue/memory_delay_queue.go:71-78 | the locked loop over the map, in any order, removes exactly the due entries and lists each of them once |
| DelayQueue.MemoryDelayQueue.ProcessAll | internal/infrastructure/delayqueue/memory_delay_queue.go:80-82 | processes the fired entries in order and collects their notices |
| DelayQueue.MemoryDelayQueue.ProcessMessage | internal/infrastructure/delayqueue/memory_delay_queue.go:85-103 | on a message that does not make the type assertion panic, reports `AbandonmentNotice` of the message (see above) |
| AbandonmentSubscriber.SeenEventIgnored | internal/infrastructure/subscriber/cart_abandonment_subscriber.go:38-41 | an event id already seen changes nothing and returns nil |
| AbandonmentSubscriber.HandledOnce | internal/infrastructure/subscriber/cart_abandonment_subscriber.go:37-50 | a new id is recorded whatever follows, even an error, so a second delivery is a no-op |
| AbandonmentSubscriber.OtherEventsIgnored | internal/infrastructure/subscriber/cart_abandonment_subscriber.go:44-49 | an event other than an added item is only recorded and returns nil |
| AbandonmentSubscriber.LookupOutcome | internal/infrastructure/subscriber/cart_abandonment_subscriber.go:91-108 | a failed load is passed on as is; a policy still at version -1 is NotFound "tenant policy not found"; a returned policy exists |
| AbandonmentSubscriber.ScheduleOutcome | internal/infrastructure/subscriber/cart_abandonment_subscriber.go:57-88 | a NotFound lookup schedules nothing and returns nil, another lookup error is returned; a found policy schedules one message on the abandonment topic keyed by the cart, carrying the cart, tenant, event id, the event's Unix time and the delay in minutes, due that delay after now, and leaves the other entries alone |
| AbandonmentSubscriber.ScheduleKeepsChecksWellFormed | internal/infrastructure/subscriber/cart_abandonment_subscriber.go:57-88 | every message the subscriber schedules is a check message carrying its check body, so a queue the sweep can process without a panic stays so |
| AbandonmentSubscriber.DelayMinutesOfWholeMinutes | internal/infrastructure/subscriber/cart_abandonment_subscriber.go:80 | the delay's minutes are the policy's whole minutes |
| AbandonmentSubscriber.NeverSchedules | internal/infrastructure/subscriber/cart_abandonment_subscriber.go:37-108 | since a policy rebuilt from any history is still new, the lookup always fails, nothing is ever scheduled, and an error is returned exactly for a new added-item event whose tenant's history cannot be read for a reason other than NotFound |
| AbandonmentSubscriber.UnixSecondsSpec | internal/infrastructure/subscriber/cart_abandonment_subscriber.go:79 | the Unix time of the epoch is 0 and each further second adds one |
| AbandonmentSubscriber.CartAbandonmentSubscriber.constructor | internal/infrastructure/subscriber/cart_abandonment_subscriber.go:24-35 | the given store and queue and an empty seen set |
| AbandonmentSubscriber.CartAbandonmentSubscriber.Handle | internal/infrastructure/subscriber/cart_abandonment_subscriber.go:37-50 | new seen set, queue and error are `HandleSpec` (see the lemmas above) |
| AbandonmentSubscriber.CartAbandonmentSubscriber.ScheduleCartAbandonmentCheck | internal/infrastructure/subscriber/cart_abandonment_subscriber.go:57-88 | the queue and error are `Schedule` (see ScheduleOutcome) |
| AbandonmentSubscriber.CartAbandonmentSubscriber.LoadTenantPolicy | internal/infrastructure/subscriber/cart_abandonment_subscriber.go:91-108 | returns a fresh policy exactly when the lookup succeeds, with its state; otherwise the lookup's error |

## Left out

- **Broker I/O.** Kafka producers and consumers, consumer groups and the
  broker-side event store are not modelled. The producer is a recorder
  whose outcome is an oracle.
- **Goroutines and timers.** Tickers, the `Start` loops of the publisher
  and the delay queue, `ctx` cancellation and mutexes are left out. One
  tick or one sweep is modelled at an explicit clock reading, and each
  method runs atomically.
- **Row locking.** `FOR UPDATE SKIP LOCKED` and concurrent publishers are
  not modelled. The claim selects the oldest rows as one atomic step.
- **JSON.** Encoding and decoding are a `marshal` oracle and per-type
  decoder oracles. The registry's decoders themselves are not modelled.
- **The read-model stores' SQL** is not modelled. The stores are maps with
  fault oracles.
- **Floating point.** `float64` prices and minutes are exact reals.
- **Integer width.** `int` and `int64` overflow are not modelled; integers
  are unbounded.
- **Retry back-off.** `time.Sleep` between retries is not modelled. Only
  the number of attempts is.
- **AfterCommit hook errors.** In the add-item use case the after-commit
  publication is assumed to succeed, as the recording publisher always
  does.
- **Presenter errors.** The presenter never fails, so the error `Execute`
  returns is always nil.
- **`uuid.Parse`** is an oracle from text to either a UUID or the text of
  its error; the texts themselves (length, urn prefix, format) are not
  modelled. The use cases pass that error on unchanged.
- **Clock readings.** Where the source reads the clock twice in one call
  (submitted and purchased events, each outbox row of one save), the model
  uses a single reading.
- **Subscriber `Start`.** `CartAbandonmentSubscriber.Start` is not
  modelled. The event bus's handler list only names the two projectors.
- **Logging** is not modelled.
- **`processMessage`'s log lines** are not modelled. Only the cart id it
  detects is kept.
- OutboxRepository.OutboxTable.SaveEvents: only the marshal error is
  modelled; a failing transaction lookup or INSERT
  (internal/infrastructure/database/outbox/outbox_repository_impl.go:25-27, 59-61)
  is not, because the table is an in-memory sequence with no fault source.
- OutboxRepository.OutboxTable.GetPendingEvents: the transaction, query and
  row-scan errors (outbox_repository_impl.go:68-70, 82-84, 108-109, 122-123) are not modelled; the read always succeeds.
- OutboxRepository.OutboxTable.GetAndMarkProcessing: the transaction, query,
  scan and UPDATE errors (outbox_repository_impl.go:208-210, 225-227, 253-254,
  268-269, 291-293) are not modelled; the claim always succeeds.
- OutboxRepository.OutboxTable.MarkAsPublished: the transaction and
  ExecContext errors (outbox_repository_impl.go:134-136, 157-159) are not modelled.
- OutboxRepository.OutboxTable.MarkAsFailed: the transaction and
  ExecContext errors (outbox_repository_impl.go:166-168, 178-180) are not modelled.
- OutboxRepository.OutboxTable.IncrementRetryCount: the transaction and
  ExecContext errors (outbox_repository_impl.go:187-189, 199-201) are not modelled.
- OutboxRepository.OutboxTable.MarkMaxRetriesExceededAsFailed: the
  transaction and ExecContext errors (outbox_repository_impl.go:306-308,
  318-320) are
  not modelled.
- OutboxPublisher.Publisher.PublishPendingEvents: returns no error. Since
  the repository never fails in the model, the early returns on a failed
  read or a failed mark (internal/infrastructure/messaging/outbox/outbox_publisher.go:69-71, 94-99)
  cannot occur and are not modelled.
- OutboxRepository.OldestSpec: `ORDER BY created_at` is read as table order.
  This agrees with the query only on a table in created_at order, which
  saves keep when the clock never runs backwards
  (`OutboxRepository.SaveKeepsCreatedInOrder`,
  `OutboxRepository.ApplyKeepsCreatedInOrder`); a clock that goes back, and
  ties broken by the database, are not modelled.
- DelayQueue.MemoryDelayQueue.ProcessMessage: a check message whose data is
  not the check body panics in the source
  (internal/infrastructure/delayqueue/memory_delay_queue.go:98). The model
  does not model the panic; it requires `CheckWellFormed` instead, which
  every message the subscriber schedules meets
  (`AbandonmentSubscriber.ScheduleKeepsChecksWellFormed`). The same
  precondition is on `DelayQueue.AbandonmentNotice`,
  `DelayQueue.MemoryDelayQueue.ProcessAll` and
  `DelayQueue.MemoryDelayQueue.ProcessExpiredMessages`.
