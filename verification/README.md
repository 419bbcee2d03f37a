# A verified model of the offline point of sale

A restaurant terminal keeps selling while it is offline.  Its engine stores orders, kitchen tickets,
an outbox, invoice counters and a copy of the catalog in one local database, and exchanges them with
the cloud over a link that loses, delays and repeats messages.  This project models that engine, the
cloud's ingest and change feed it talks to, and the shared arithmetic both sides must agree on, and
proves what the design promises about them for every input and every run.

## How the model is laid out

| module | what it holds |
|---|---|
| `EdgeModel` | the tables of the terminal as maps, each database transaction as a function `Db -> Ok(Db) / Err` |
| `EdgeEngine` | class `Engine`: the same transactions as methods that update tables step by step, each proved to realise its function and to keep the invariant of the terminal (`Valid`) |
| `EdgeWorld` | terminal, cloud, link and history; the shape the cloud asks of a request; actions, runs, and what the environment guarantees (`Enabled`) |
| `EdgeInvariant`, `EdgeLocal`, `EdgeTickets`, `EdgeDevice` | the invariant of the terminal, and that every transaction keeps it |
| `EdgePayload`, `EdgeSync`, `EdgeLink` | order payloads, the joint invariant of terminal, cloud and link, and that every action keeps it |
| `EdgeTheorems` | what follows for every run from an empty terminal |
| `EdgeOrders`, `EdgeBill` | what each transaction does with what was entered, and that it reaches the cloud line by line |
| `EdgeCloud`, `EdgeShape` | what the cloud does with an operation, its own numbers, and which bills have the shape it asks for |
| `EdgeAddress`, `EdgeKitchen`, `EdgeLimits` | kitchen updates, runs in which both sides agree on them, coupon limits, and where agreement fails |
| `EdgeProgress`, `EdgeStranding` | exactly when a working link drains the outbox, what stays in it for ever, and what that holds back |
| `EdgeStories` | short runs from an empty terminal in which a promise fails |
| `Feed` | catalog replication: the cloud's feed, pages, runs, and class `CatalogStore` with its cache |
| `Numbers`, `Sequences`, `Money`, `Billing`, `Allocation`, `EqualSplit`, `Coupons`, `Rounding` | bill arithmetic in integer paise |
| `BillNumber`, `Decimals`, `IndianNumber` | invoice numbers, decimal text, Indian digit grouping |
| `FloorPlan`, `Attendance`, `Payroll`, `Forecast` | the remaining pure and loop cores |

A push is two actions, `Send` (read the batch and build the request) and `Receive` (record the
answers); any other transaction may commit between them.  `Handle` is the cloud processing one
operation of any request it ever let through, in any order and any number of times.  `Lose` drops a
push without a response.  `hist` remembers closed orders and issued invoice numbers, so that statements survive the
retention purge; nothing in the engine reads it.

### Modelling choices

- Doubles are exact reals, and `Math.round(x)` is the floor of `x + 1/2`
  (packages/shared/src/money.ts:8-15).  Amounts are integer paise wherever the source converts to paise.
- The terminal starts with an empty database at schema version 2; rows carried over by the older
  migration are outside the model (apps/edge/sidecar/engine.js:126-142).
- Generated identifiers are fresh.  A new activation gets a series code the outlet never used
  (apps/api/src/edge/edge-admin.service.ts:58-74, apps/edge/README.md:48-49).
- The cloud checks the shape of a whole request first and turns it away unread if one operation fails
  (apps/api/src/edge/edge.controller.ts:44, packages/shared/src/edge.ts:156-242).  `Acceptable` is that
  shape for everything the model carries; generated identifiers have a fixed length that fits.  The
  engine limits neither texts nor, beyond a tolerance, the decimals of an amount, so tenders and the
  manual discount are kept as the cashier entered them.
- A terminal is activated once it has a series code; both are stored in one transaction
  (apps/edge/sidecar/engine.js:1061-1070), and only an activated terminal pushes
  (apps/edge/sidecar/engine.js:978).
- One push runs at a time (apps/edge/sidecar/server.js:248-249), and a response answers each
  operation of its request once.  In the kitchen agreement theorem that answer is the one the request got
  itself, and not one an earlier copy of the operation got.
- Clocks, the fiscal-year code, back-off delays and retention days are inputs of the actions.  Only
  `DrainedKitchenAgrees` and `OneBillStrandsTheRest` ask the device clock not to go back.
- Lines arrive resolved and priced, at any price, since a combo option may lower the price of its combo
  without limit; a coupon code arrives trimmed and upper-cased; the station id `"none"` is not used by
  a real station.
- Whatever the cloud's answer depends on outside the bill (temporary errors, deleted items, clock
  skew, coupon counts, price drift) is the unconstrained `Env` of `Handle`.
- A database transaction that throws leaves every table as it was.  `Engine` restores the invoice
  counter by hand where the source relies on the rollback.
- A fit is defined where the source computes a number and not the result of a division by zero
  (`Fittable`); histories without negative days and a positive `shrink` always are.
- Payroll asks for positive basis days and standard hours, which the source divides by.
- The feed of the cloud may be replaced at any time by a backup of any age.  Requesting a page and
  applying it are two actions, and a page may be applied late, twice or never: an activation pulls
  (apps/edge/sidecar/engine.js:1071) without the guard that keeps the pulls of the sync loop apart
  (apps/edge/sidecar/server.js:248-249), so two pulls may overlap.

### Promises that hold only under a condition

- A bill reaches the cloud once the link works, if the terminal is activated and every bill that waits
  has the shape the cloud asks for; `DrainableIff` says that this is exactly when the outbox can be
  drained.  A cancellation with a reason of 201 characters stays in the outbox for ever
  (`LongReasonStrandsBill`), and while the clock does not go back one such bill holds back every bill
  closed and every kitchen update made after it (`OneBillStrandsTheRest`).
- Once the cloud holds a bill, a kitchen bump reaches it exactly when the outbox shows the bill
  acknowledged: `BumpReachesCloudIffAcknowledged`.  Lost are a bump before the answer is recorded
  (`BumpInDoubtIsLost`), one between reading the bill and the cloud taking it (`StaleSnapshotStays`), and
  one after the acknowledgement was purged, which is a week later with the retention the terminal uses
  (`BumpAfterPurgeIsLost`).
- An older kitchen update overwrites a newer one if it was answered `retry`
  (`RetriedUpdateOverwritesNewer`), if the link delivers it twice (`RepeatedRequestOverwritesNewer`), or
  if the device clock went back in between (`ClockBackOverwritesNewer`).  Each of these six runs has
  exactly one step that is not calm, and ends with nothing pending and the two sides apart (`Slips`,
  `StoryIsRun`, `EndsApart`).
- The offline coupon count holds for stretches without a recorded response or catalog change
  (`OfflineStretchKeepsLimit`), and no longer (`AcknowledgedUseIsForgotten`): in the run
  `CouponIsUsedTwice` one terminal redeems a coupon for one use twice.
- The terminal's catalog converges while no page is applied ahead of the cursor, as with one pull at a
  time (`OnePullIsSure`), and the feed is not restored from a backup.  A page keeps a copy right exactly
  when what lies between its cursor and the start of the page is right (`DeliveryKeepsIff`); with pulls
  that overlap an old price can stay with nothing more to fetch (`OverlappingPullsGoStale`).  The first pull after a
  restore repairs the copy exactly when the feed is still behind the terminal's cursor or the copy was
  right already: `PullAfterRestoreIff`.  A feed that has grown back by then leaves the copy wrong with
  nothing more to fetch: `RegrownFeedIsMissed`.
- `format(parse(n)) = n` fails for numbers padded beyond six digits; `ParseThenFormat` gives the
  exact condition and `OverPaddedTextDoesNotRoundTrip` the failing family.
- The weekday indices "average to 1" (packages/shared/src/procurement.ts:120) exactly when the 0.05
  floor lifts none of them: `AverageIsOneIffNoFloor`, with the history `FloorBites`.
- A larger weight can get a smaller part when no weight is positive: `SmallerWeightCanGetMore` is
  an input, `PartsFollowWeightsIff` the exact condition.
- Net pay can rise with loss of pay through a professional-tax slab (`NetCanRiseWithLoss`) or through
  rounding alone (`RoundingCanRaiseNet`), by no more than `NetRiseIsBounded` says: not at all once the
  gross falls enough, and at most by the tax that falls away and a rupee for each of provident fund and
  insurance.  Gross pay never rises.
- A monthly salary that rounds to nothing loses every allowance: `AllowancesPaidInFullIff`.

## Model

| member | source | states |
|---|---|---|
| EdgeTheorems.ExactlyOnceSync | apps/edge/sidecar/engine.js:884-951 | in every run each order is inserted in the cloud at most once and exactly as billed; an order called synced or conflict is there; an order ever closed is there, still queued with a pending row, or marked rejected, purges included |
| EdgeTheorems.DrainedBooksAreReceipts | apps/edge/sidecar/engine.js:884-925 | once no order row is pending and none was rejected, the cloud's orders and totals are exactly the closed orders and the totals on their receipts |
| EdgeTheorems.OutboxCoupling | apps/edge/sidecar/engine.js:815-822 | open iff local; queued iff a pending row exists; every batch builds one operation per row, so the "order missing locally" branch is unreachable |
| EdgeTheorems.QueuedExactlyWhenClosed | apps/edge/sidecar/engine.js:663-740 | an order row enters the outbox in the very step that closes the order, and an order is closed once and never rewritten |
| EdgeTheorems.PayloadStability | apps/edge/sidecar/engine.js:832-875 | all payloads ever sent for an order, and the next one to be built, are the same bill up to kitchen progress |
| EdgeTheorems.GaplessInvoices | apps/edge/sidecar/engine.js:689-699 | over any run the numbers issued in a series and year are exactly 1 to the counter, each on exactly one closed order |
| EdgeTheorems.FiledUnderReceiptNumber | apps/api/src/edge/edge-ingest.service.ts:223-267 | every numbered bill is filed under the number on its receipt, and no two orders share one |
| EdgeTheorems.RefusedOnlyOverCatalog | apps/api/src/edge/edge-ingest.service.ts:163-176 | a bill is rejected only over catalog references and flagged only for reasons other than its invoice number |
| EdgeTheorems.TicketsPartitionAndMirror | apps/edge/sidecar/engine.js:605-634 | the tickets of an open order partition its lines by round and station, no line is on two tickets, and a live ticket shows the status and ready time of its lines |
| EdgeTheorems.OrdersAreSound | apps/edge/sidecar/engine.js:576-583 | at most one open order per table; a settled order's payments sum to its total, the discount is within the subtotal, and the total is subtotal less discount plus tax, a negative discount counting as none |
| EdgeBill.CloudShowsClosedOrder | apps/edge/sidecar/engine.js:832-875 | in every run each order in the cloud, and each bill on the wire, has the head of the closed order (type, table, customer, times, staff, reason, payments, discounts, figures, number) and lists every line once, at its place among the lines of its kind, with the same article, note, quantity, price and rate |
| EdgeBill.WhatWasOrderedReachesCloud | apps/edge/sidecar/engine.js:537-586 | whatever happens after an order is opened, the terminal's order and the bill in the cloud are for the type, table, customer, time and staff that were asked for, and start with the lines that were entered |
| EdgeBill.TableStaysTaken | apps/edge/sidecar/engine.js:573-580 | once a dine-in order is opened and for as long as it is open, every other dine-in order for the table it asked for is refused and changes nothing |
| EdgeBill.WhatWasPaidReachesCloud | apps/edge/sidecar/engine.js:663-719 | whatever happens after a settlement, the bill in the cloud carries the payments, discounts, coupon, time and staff that were entered, and figures reckoned from its lines that the payments come to |
| EdgeBill.WhatWasCancelledReachesCloud | apps/edge/sidecar/engine.js:727-740 | whatever happens after a cancellation, the bill in the cloud says when, by whom and why, and has no payment and no number |
| EdgeBill.EntryOfLine | apps/edge/sidecar/engine.js:832-859 | the bill built of an order has, for each line, the entry that sells the same and shows its status and ready time |
| EdgeBill.UpdateNamesLine | apps/edge/sidecar/engine.js:1159-1164 | a kitchen update names each line by its kind and the number of earlier lines of that kind, with its status and ready time |
| EdgeBill.DrainedKitchenShowsLines | apps/edge/sidecar/engine.js:1141-1165 | in calm runs the cloud shows, for every line of an order without an update left to send, the status the kitchen gave it |
| EdgeOrders.OpeningKeepsWhatWasAsked | apps/edge/sidecar/engine.js:537-586 | an order is opened iff it has lines, a dine-in one a known, free and permitted table, a delivery a phone and an address; it then holds what was asked for, unpaid, with one waiting round and waiting tickets, and no other order changes |
| EdgeOrders.RoundIsAppended | apps/edge/sidecar/engine.js:589-634 | a round is added iff the order is open and the round is not empty; it extends the lines and changes nothing else that was entered |
| EdgeOrders.SettledIff | apps/edge/sidecar/engine.js:663-699 | an open order is settled iff the discounts are whole paise within the subtotal, the coupon is within its limits, every payment is of a known kind and whole paise, they come to the total, and the number fits |
| EdgeOrders.SettlingKeepsWhatWasEntered | apps/edge/sidecar/engine.js:700-719 | a settlement closes and queues one order with exactly what was entered; its other fields, orders, rows and tickets stay |
| EdgeOrders.CancellingWithdraws | apps/edge/sidecar/engine.js:727-740 | an order is cancelled iff it is open; it is closed and queued with time, staff and reason, and its tickets, no others, leave the kitchen |
| EdgeOrders.LineIsPriceTimesQuantity | packages/shared/src/money.ts:17-20 | each line adds its price times its quantity to the subtotal, and its own rate on that to the tax |
| EdgeOrders.PaidAddsUp | apps/edge/sidecar/engine.js:686 | payments add up to the paisa |
| EdgeOrders.TenderMeans | apps/edge/sidecar/engine.js:682-685 | a payment is valid iff its mode is one of five and it is a positive amount within the tolerance of some whole number of paise |
| EdgeOrders.BumpStampsTicket | apps/edge/sidecar/engine.js:1144-1147 | a ticket can be bumped iff it is live; it shows the status, and the time of the bump as ready time iff bumped to ready |
| EdgeOrders.BumpStampsLines | apps/edge/sidecar/engine.js:1150-1165 | exactly the lines on the ticket take the status and ready time, nothing else of any order changes, and an update is queued iff the order is acknowledged |
| EdgeOrders.AnswerIsRecorded | apps/edge/sidecar/engine.js:927-943 | a retry counts one attempt more, waits for the back-off and changes nothing else; any other answer ends the row now and moves its order to the same end |
| EdgeOrders.PurgeDropsExactly | apps/edge/sidecar/engine.js:1229-1241 | a purge drops exactly the accepted orders and rows older than their cut-offs and the tickets untouched for two days whose order is not open |
| EdgeOrders.BatchIsWhatIsDue | apps/edge/sidecar/engine.js:887-889 | a batch is at most fifty pending rows whose time has come, and all of them if there are fewer |
| EdgeCloud.LetInIsSound | packages/shared/src/edge.ts:156-225 | a bill that is let in is closed and has a line, no amount on it is negative, its payments are of known modes and come to at least a paisa each, and its number counts from one |
| EdgeCloud.BillIsTakenIff | apps/api/src/edge/edge-ingest.service.ts:72-127 | a bill is a duplicate iff the cloud has it, and taken iff it has not, nothing fails, the figures add up and all it refers to is known; taken means recorded, logged and filed, otherwise nothing changes; a taken bill is flagged iff it is settled under a number that cannot be used, or for a reason beyond it |
| EdgeCloud.UpdateIsTakenIff | apps/api/src/edge/edge-ingest.service.ts:521-551 | a kitchen update is applied iff the cloud has the order and nothing fails, and then changes that order only |
| EdgeCloud.AddsUpIff | apps/api/src/edge/edge-ingest.service.ts:163-176 | the cloud's check passes iff the figures are those reckoned from the bill's own lines and discounts and a settled bill's payments come to its total |
| EdgeCloud.EntryIsPriceTimesQuantity | apps/api/src/edge/edge-ingest.service.ts:163-166 | each entry adds its price times its quantity to the cloud's subtotal, and its own rate on that to the tax |
| EdgeCloud.OutletNumbersAreGapless | apps/api/src/edge/edge-ingest.service.ts:262-267 | in every run the outlet's own numbers are exactly 1 to the next, each on one settled bill; every settled bill in the cloud has a number and no other order has any |
| EdgeProgress.EveryBillCanReachTheCloud | apps/edge/sidecar/engine.js:883-925 | on an activated terminal whose waiting bills are in shape, every run can be continued by pushes alone until no row is pending, and then every order ever closed that was not refused is in the cloud exactly as billed |
| EdgeProgress.DrainableIff | apps/api/src/edge/edge.controller.ts:42-46 | after any run, pushes can drain the outbox exactly when nothing is pending, or the terminal is activated and every waiting bill is in shape |
| EdgeShape.DrainableIffInShape | packages/shared/src/edge.ts:156-222 | the same in terms of what was entered: exactly when nothing is pending, or the terminal is activated and every waiting order has short texts, quantities, prices and rates in range, payments and discount of whole paise and no coupon of negative value |
| EdgeShape.ShapeIff | packages/shared/src/edge.ts:156-222 | of everything the cloud asks of a bill, a closed order of the terminal can only fail those |
| EdgeProgress.StuckForEver | packages/shared/src/edge.ts:192-222 | a waiting bill out of shape is still waiting after every continuation of the run, whatever the till, the kitchen and the link do |
| EdgeStranding.OneBillStrandsTheRest | apps/edge/sidecar/engine.js:884-925 | from the step that closes a bill out of shape, in every continuation in which the clock does not go back, every order closed later is pending and not in the cloud, and every later row of the outbox is pending |
| EdgeProgress.IdleUntilActivated | apps/edge/sidecar/engine.js:977-978 | pushes change nothing on a terminal that was never activated |
| EdgeProgress.PushOnce | apps/edge/sidecar/engine.js:884-925 | on such a terminal one push over a working link settles at least one pending row, loses no order and refuses none |
| EdgeProgress.LetInIsAccepted | apps/api/src/edge/edge-ingest.service.ts:72-91 | a working cloud answers applied or duplicate to every operation it has let in |
| EdgeStories.LongReasonStrandsBill | packages/shared/src/edge.ts:220 | after a cancellation with a reason of 201 characters the bill is pending in every continuation, so no sequence of pushes drains the outbox |
| EdgeDevice.LocalKeeps | apps/edge/sidecar/engine.js:537-740 | every local transaction, committed or failed, keeps the invariant of the terminal |
| EdgeLink.StepKeepsWorld | apps/edge/sidecar/engine.js:884-951 | every action of terminal, link or cloud keeps the joint invariant |
| EdgeLink.RunsKeepWorld | apps/edge/sidecar/engine.js:884-951 | every run keeps the joint invariant |
| EdgeLink.PushAsksSomething | apps/edge/sidecar/engine.js:884-906 | a push is under way iff it has something to ask; otherwise nothing is sent |
| EdgeLink.NothingMissing | apps/edge/sidecar/engine.js:893-898 | a pending order row always has its order, so rejecting missing orders changes nothing |
| EdgeLink.NoBillConflict | apps/api/src/edge/edge-ingest.service.ts:226-261 | a bill the cloud does not hold yet never fails the series, text or uniqueness check of its number |
| EdgeLink.FiguresAlwaysAddUp | apps/api/src/edge/edge-ingest.service.ts:163-176 | a payload on the wire always passes the cloud's recomputation of totals and payments |
| EdgePayload.PayloadIsStable | apps/edge/sidecar/engine.js:832-875 | orders that differ in kitchen progress only have the same bill |
| EdgePayload.KitchenUpdateKeepsBill | apps/api/src/edge/edge-ingest.service.ts:521-550 | a kitchen update changes nothing of the bill the cloud holds |
| EdgePayload.SumsSplitByKind | apps/edge/sidecar/engine.js:832-859 | splitting the lines into items and combos preserves subtotal and raw tax |
| EdgePayload.CloudAgreesOnTotals | apps/api/src/edge/edge-ingest.service.ts:163-169 | the cloud, adding up items and then combos, gets the terminal's totals to the paisa |
| EdgePayload.ClosedFiguresAddUp | apps/edge/sidecar/engine.js:678-687 | the figures of a closed order pass the cloud's check |
| EdgeLocal.SettleCloses | apps/edge/sidecar/engine.js:663-719 | a committed settlement writes one closed order, queues one row for it and touches no other order or row |
| EdgeLocal.NumberedCloseKeepsSeries | apps/edge/sidecar/engine.js:689-699 | drawing the next number keeps every series gapless and each number on one order |
| EdgeLocal.PurgeDrops | apps/edge/sidecar/engine.js:1229-1244 | a purge only drops, and only what the cloud has accepted |
| EdgeTickets.FireKeepsTickets | apps/edge/sidecar/engine.js:605-634 | firing a round keeps old tickets matching and covers every new line |
| EdgeTickets.BumpKeepsTickets | apps/edge/sidecar/engine.js:1141-1154 | a bump keeps every ticket in step with its lines |
| EdgeAddress.UpdateNamesPayloadLine | apps/edge/sidecar/engine.js:1159-1164 | the kind and position a kitchen update gives a line name that line in the payload's items or combos |
| EdgeAddress.PayloadLineIsNamed | apps/edge/sidecar/engine.js:1159-1164 | every payload line is named by the update |
| EdgeAddress.AppliedUpdateShows | apps/api/src/edge/edge-ingest.service.ts:532-538 | after an update is applied the cloud shows the status it carries on every line it addresses |
| EdgeAddress.ShownUpdateAgrees | apps/api/src/edge/edge-ingest.service.ts:514-538 | a cloud order that shows an order's own update agrees with the order line by line |
| EdgeKitchen.DrainedKitchenAgrees | apps/edge/sidecar/engine.js:1141-1165 | in calm runs, an order both sides hold with no kitchen update left to send shows the same progress on both; bills may be lost, late and repeated, and bumped while they are on their way, as long as the copy the cloud takes is current |
| EdgeKitchen.UpdatesFollowAcceptance | apps/edge/sidecar/engine.js:1155-1165 | a kitchen update in the outbox or on the wire is for an order the cloud has accepted |
| EdgeKitchen.BatchIsDownClosed | apps/edge/sidecar/engine.js:887-889 | a batch holds every pending kitchen update older than any of its rows |
| EdgeKitchen.StepKeepsKitchen | apps/edge/sidecar/engine.js:884-951 | every calm action keeps the agreement between pending updates, the push under way and the cloud |
| EdgeLimits.RedeemedOnlyBelowLimit | apps/edge/sidecar/engine.js:637-655 | a settlement redeems a limited coupon only while cached uses plus unsynced uses are below its limit |
| EdgeLimits.OfflineStretchKeepsLimit | apps/edge/sidecar/engine.js:637-655 | through any stretch without a recorded response or catalog change the known uses never pass the limit |
| EdgeLimits.AcknowledgedUseIsForgotten | apps/edge/sidecar/engine.js:641-646 | recording an acknowledgement lowers the known uses by one until the catalog catches up |
| EdgeLimits.BumpReachesCloudIffAcknowledged | apps/edge/sidecar/engine.js:1155-1165 | a bump of an order the cloud holds is queued exactly when the outbox shows the order acknowledged; otherwise both sides differ, nothing is pending and resending the bill changes nothing |
| EdgeStories.CouponIsUsedTwice | apps/edge/sidecar/engine.js:641-646 | a calm run that starts with the only catalog change, which brings an unused coupon limited to one use, and in which two orders redeem it |
| EdgeStories.BumpInDoubtIsLost | apps/edge/sidecar/engine.js:1155-1165 | a run, calm but for one bump while the cloud holds the bill and its row is pending, that ends with nothing pending and the two sides apart |
| EdgeStories.StaleSnapshotStays | apps/edge/sidecar/engine.js:832-875 | a run, calm but for the cloud taking a bill that was bumped since it was read, that ends with nothing pending and the two sides apart |
| EdgeStories.BumpAfterPurgeIsLost | apps/edge/sidecar/engine.js:1229-1244 | a run, calm but for one bump after a purge with the usual retention dropped the acknowledgement, that ends with nothing pending and the two sides apart |
| EdgeStories.RetriedUpdateOverwritesNewer | apps/edge/sidecar/engine.js:929-935 | a run, calm but for one temporary failure of a kitchen update in its turn, that ends with nothing pending and this update, the older by outbox id, over the newer one |
| EdgeStories.RepeatedRequestOverwritesNewer | apps/api/src/edge/edge-ingest.service.ts:521-550 | a run, calm but for its last step, in which the cloud handles a kitchen update a second time, that ends with nothing pending and the two sides apart |
| EdgeStories.ClockBackOverwritesNewer | apps/edge/sidecar/engine.js:887-889 | a run, calm but for one bump of an acknowledged order stamped before the clock of the step before it, that ends with nothing pending and the two sides apart |
| EdgeEngine.Engine.constructor | apps/edge/sidecar/engine.js:75-125 | a new terminal has empty tables and satisfies the invariant |
| EdgeEngine.ValidMeans | apps/edge/sidecar/engine.js:657-662 | of a valid engine: open iff local, queued iff a row is pending, numbers issued exactly 1 to the counter and each on one closed order, one open order per table |
| EdgeEngine.TransactionKeeps | apps/edge/sidecar/engine.js:537-740 | every transaction keeps the invariant of the engine |
| EdgeEngine.RepliesKeepDevice | apps/edge/sidecar/engine.js:908-920 | recording a response with one answer per waiting row keeps the invariant and touches no other row |
| EdgeEngine.Engine.GroupByStation | apps/edge/sidecar/engine.js:614-626 | one pass groups exactly the stations of a round, each with its line positions in order |
| EdgeEngine.Engine.InsertTickets | apps/edge/sidecar/engine.js:627-633 | one new waiting ticket per station and no other change |
| EdgeEngine.Engine.Fire | apps/edge/sidecar/engine.js:605-634 | the round is appended, totals are recomputed without discount and the tickets are those of the round |
| EdgeEngine.Engine.CreateOrder | apps/edge/sidecar/engine.js:537-586 | realises the create transaction, every error included, and keeps the engine valid |
| EdgeEngine.Engine.AddItems | apps/edge/sidecar/engine.js:589-602 | realises the add transaction and keeps the engine valid |
| EdgeEngine.Engine.CountUnsynced | apps/edge/sidecar/engine.js:641-646 | counts the settled orders with the coupon that the cloud has not acknowledged |
| EdgeEngine.Engine.Preview | apps/edge/sidecar/engine.js:637-655 | evaluates the coupon against cached plus unsynced uses |
| EdgeEngine.Engine.CheckTenders | apps/edge/sidecar/engine.js:681-686 | accepts iff every payment is of a known mode, positive and whole paise, and adds them up |
| EdgeEngine.Engine.QuoteOrder | apps/edge/sidecar/engine.js:667-687 | the checks of a settlement, in order, with their outcome |
| EdgeEngine.Engine.SettleOrder | apps/edge/sidecar/engine.js:663-719 | realises the settle transaction and keeps the engine valid; after any error, a number drawn and given back included, tables, counters and history are as they were |
| EdgeEngine.Engine.CancelOrder | apps/edge/sidecar/engine.js:727-740 | realises the cancel transaction and keeps the engine valid |
| EdgeEngine.Engine.MarkItems | apps/edge/sidecar/engine.js:1150-1153 | exactly the listed lines get the status and ready time |
| EdgeEngine.Engine.AddressLines | apps/edge/sidecar/engine.js:1159-1163 | two running counters give each line its position among the lines of its kind |
| EdgeEngine.Engine.AdvanceTicket | apps/edge/sidecar/engine.js:1141-1169 | realises the bump transaction and keeps the engine valid |
| EdgeEngine.Engine.TakeBatch | apps/edge/sidecar/engine.js:887-889 | the due rows in creation order, at most fifty, none older left out |
| EdgeEngine.Engine.BuildOps | apps/edge/sidecar/engine.js:891-903 | a valid engine builds exactly one operation per row of a batch and rejects none |
| EdgeEngine.Engine.RecordReplies | apps/edge/sidecar/engine.js:908-920 | records a response, ignoring answers for keys outside the batch, and keeps the engine valid |
| Feed.PagesCompose | apps/edge/sidecar/engine.js:225-241 | applying one page and then another is applying their concatenation |
| Feed.PageIsIdempotent | apps/edge/sidecar/engine.js:225-241 | applying a page twice is applying it once |
| Feed.LastChangeWins | apps/edge/sidecar/engine.js:232-235 | after a page a row is what its last change says, or what it was |
| Feed.PageCanBeServed | apps/api/src/edge/edge-feed.service.ts:67-94 | for any cursor and limit the feed has a page, which is full unless nothing is left |
| Feed.PageListsEntries | apps/api/src/edge/edge-feed.service.ts:67-94 | a page lists exactly the rows numbered between its start and its cursor, once each and in order, restarts exactly when the feed is behind, and has more exactly when a row lies beyond |
| Feed.RefreshPublishes | apps/api/src/edge/edge-feed.service.ts:97-147 | a refresh publishes exactly the current catalog; a row that is in the feed as it is and a tombstone that stays one keep their entries |
| Feed.RefreshIsIdempotent | apps/api/src/edge/edge-feed.service.ts:119-140 | a second refresh with the same catalog changes nothing |
| Feed.LatePageKeepsCurrent | apps/edge/sidecar/engine.js:961-971 | a page served earlier for a cursor already passed leaves the copy right up to the cursor it stores |
| Feed.ResetPageRepairs | apps/edge/sidecar/engine.js:227 | a reset page makes the copy right whatever it held |
| Feed.NextPageRepairsIff | apps/api/src/edge/edge-feed.service.ts:68-80 | against any feed the next page makes the copy right iff the cursor is ahead of the feed or the copy was right |
| Feed.CaughtUpIsPublished | apps/api/src/edge/edge-feed.service.ts:57-94 | a copy that is right up to a cursor with nothing beyond is the published catalog |
| Feed.ReplicaConverges | apps/edge/sidecar/engine.js:961-974 | after any run of refreshes, restores, requests and deliveries, by overlapping pulls too, in which neither a restore nor a page ahead of the cursor came after the last reset page, the copy is right up to its cursor, and the published catalog once nothing lies beyond |
| Feed.OnePullIsSure | apps/edge/sidecar/server.js:248-249 | with one pull at a time and no restore no page is ever ahead of the cursor |
| Feed.DeliveryKeepsIff | apps/edge/sidecar/engine.js:225-241 | a page of the present feed leaves a right copy right iff what lies between the cursor and the start of the page is right already; always if the page does not start ahead of the cursor |
| Feed.PullAfterRestoreIff | apps/api/src/edge/edge-feed.service.ts:67-71 | after a restore and any refreshes the next pull makes the copy right iff the feed is still behind the cursor, so that the page is a reset, or the copy was right for the new feed |
| Feed.ResetRun | apps/api/src/edge/edge-feed.service.ts:68-71 | a run with a restore whose reset page makes the copy the published catalog |
| Feed.RegrownFeedIsMissed | apps/api/src/edge/edge-feed.service.ts:67-71 | a run in which a restored feed grows back to the cursor before the pull, and the copy stays wrong with nothing more to fetch |
| Feed.OverlappingPullsGoStale | apps/edge/sidecar/engine.js:1071 | a run of overlapping pulls after which the terminal has nothing more to fetch and an old price |
| Feed.ViewIsUnique | apps/edge/sidecar/engine.js:243-261 | the table determines its in-memory view |
| Feed.CatalogStore.constructor | apps/edge/sidecar/engine.js:78-81 | an empty copy at cursor zero without a cache |
| Feed.CatalogStore.ApplyFeed | apps/edge/sidecar/engine.js:225-241 | the page and its cursor are applied together and the cache is dropped |
| Feed.CatalogStore.Catalog | apps/edge/sidecar/engine.js:243-261 | the cache is absent or equal to a rebuild; the answer is the view of the table |
| Rounding.PaiseRoundTrip | packages/shared/src/money.ts:8-15 | paise survive the trip through rupees |
| Rounding.PaiseAreNearest | packages/shared/src/money.ts:8-10 | any amount of rupees goes to the nearest paisa, halves up |
| Rounding.NearestIsUnique | packages/shared/src/money.ts:9 | a quotient has one nearest integer, so that statements by nearness fix the value |
| Money.SumsOfPermutation | packages/shared/src/money.ts:45-50 | subtotal and raw tax depend on the lines as a multiset |
| Money.TotalsIgnoreLineOrder | packages/shared/src/money.ts:44-59 | order totals do not depend on line order |
| Money.TotalsAreReckoned | packages/shared/src/money.ts:44-59 | the discount is what was asked for between nothing and the subtotal, the tax is the tax on the lines in proportion to what is left, rounded once, and the total is what is left with the tax |
| Money.ReckonedOnce | packages/shared/src/money.ts:44-59 | lines and discount determine the figures |
| Money.OneMoreLine | packages/shared/src/money.ts:45-50 | a further line adds its amount to the subtotal and its rate on that amount to the unrounded tax |
| Coupons.AcceptedIffWithinLimits | packages/shared/src/coupon.ts:28-43 | a coupon is accepted iff it is active, within its dates, below its usage limit and covered by the order |
| Coupons.RefusalIsTrue | packages/shared/src/coupon.ts:28-43 | a refusal names a reason that is true of the coupon, the order or the time |
| Coupons.DiscountIsWorth | packages/shared/src/coupon.ts:45-49 | within cap and bill a percentage takes off that percentage of the bill to the nearest paisa and a flat coupon its value; where cap or bill binds the discount is exactly that |
| Coupons.DiscountIsNotNegative | packages/shared/src/coupon.ts:45-49 | a coupon of a value and cap that are not negative never costs anything |
| Billing.BillAddsUp | packages/shared/src/billing.ts:36-56 | every component is accounted for; round-off is between -49 and 50 paise and makes whole rupees |
| Billing.PlainBillIsOrderTotal | packages/shared/src/billing.ts:26-29 | without service charge and round-off the bill is the terminal's order total |
| Billing.ChargeAndTax | packages/shared/src/billing.ts:37-44 | for a positive subtotal: the service charge is its percentage of what the discount leaves, and the tax is the tax on the lines in proportion to that, with the charge exactly when it is taxable, each to the nearest paisa; a charge that is not taxable leaves the tax as without one |
| Billing.RoundOffOnlyMovesTotal | packages/shared/src/billing.ts:45-46 | rounding off changes the total only, to the nearest rupee |
| Billing.TaxIsBlended | packages/shared/src/billing.ts:42-44 | tax lies between the lowest and highest line rate applied to the taxed amount |
| Billing.DiscountNeverRaisesTotal | packages/shared/src/billing.ts:36-56 | a larger discount never makes the total larger |
| Billing.LineOrderIsIrrelevant | packages/shared/src/billing.ts:36-56 | the bill does not depend on line order |
| Billing.LineSplitIsIrrelevant | packages/shared/src/billing.ts:36-56 | splitting a line at the same rate leaves the bill as it is |
| Allocation.PartsSumToTotal | packages/shared/src/billing.ts:58-76 | the parts sum to the total |
| Allocation.WithinOnePaisa | packages/shared/src/billing.ts:63-76 | each part is strictly within one paisa of its exact share |
| Allocation.RoundedUpHasFraction | packages/shared/src/billing.ts:69-74 | each part is the floor of its share or one more, and only a share with a fraction is rounded up |
| Allocation.LargerFractionFirst | packages/shared/src/billing.ts:71-74 | leftover paise go to the larger fractions first, among equal ones to the earlier index |
| Allocation.EffectiveWeights | packages/shared/src/billing.ts:65-67 | a weight counts with what is positive of it, or each as one if none is positive |
| Allocation.LeftoverBound | packages/shared/src/billing.ts:70-74 | fewer paise are left than there are fractional shares, so the hand-out never wraps |
| Allocation.ZeroWeightGetsNothing | packages/shared/src/billing.ts:65-69 | a weight that is not positive gets nothing when some weight is |
| Allocation.LargerWeightLargerPart | packages/shared/src/billing.ts:63-76 | with a positive weight and a total that is not negative, a larger weight never gets a smaller part |
| Allocation.WithoutPositiveWeightSplitIsEven | packages/shared/src/billing.ts:60-67 | without a positive weight the total is split evenly, leftovers to the earliest indices |
| Allocation.PartsFollowWeightsIff | packages/shared/src/billing.ts:63-76 | exactly when a larger weight never gets a smaller part |
| Allocation.SmallerWeightCanGetMore | packages/shared/src/billing.ts:65-67 | an input on which a smaller weight gets more |
| Allocation.HandOut | packages/shared/src/billing.ts:74 | the loop adds one paisa to each of the first indices of the order |
| Allocation.AllocatePaise | packages/shared/src/billing.ts:63-76 | the loop computes the largest-remainder allocation the lemmas are about |
| EqualSplit.CheckIsEven | packages/shared/src/billing.ts:78-94 | each check gets what it would get if the whole total were split once |
| EqualSplit.LineIsConserved | packages/shared/src/billing.ts:86-92 | the shares of a line sum to the line |
| EqualSplit.RawTaxIsConserved | packages/shared/src/billing.ts:83-94 | across all checks the unrounded tax is conserved |
| EqualSplit.SplitBillsNearWhole | packages/shared/src/billing.ts:36-56 | billing the checks separately keeps subtotals even and the summed tax within (parts + 1) / 2 paise |
| EqualSplit.SplitLine | packages/shared/src/billing.ts:86-92 | one line is spread over the checks and nothing else changes |
| EqualSplit.SplitLinesEqually | packages/shared/src/billing.ts:83-94 | the loops compute the checks the lemmas are about |
| BillNumber.FormatThenParse | packages/shared/src/edge.ts:347-356 | parsing a formatted number gives series, year and sequence back |
| BillNumber.NumbersAreInjective | packages/shared/src/edge.ts:341-351 | different invoices never print the same text |
| BillNumber.ParseThenFormat | packages/shared/src/edge.ts:353-356 | formatting a parsed text reproduces it iff it is short enough and not over-padded |
| BillNumber.OverPaddedTextDoesNotRoundTrip | packages/shared/src/edge.ts:354 | every over-padded text parses to the number and prints differently |
| BillNumber.SeriesCapacity | packages/shared/src/edge.ts:347-351 | formatting succeeds exactly below the power of ten that needs a seventeenth character |
| BillNumber.SeriesCodesAreDistinct | packages/shared/src/edge.ts:358-362 | series codes are well formed and different for different indices |
| BillNumber.SeriesCodeIsIndex | packages/shared/src/edge.ts:358-362 | there is a code for exactly the indices of up to three digits; it is an E and the index in two digits at least |
| BillNumber.SeriesAlphabet | packages/shared/src/edge.ts:354 | a series is an E with two or three ASCII digits or capitals, a year four digits |
| IndianNumber.GroupsShape | packages/shared/src/i18n.ts:78-90 | the last group has three digits, inner groups two, the first one or two, and together they are the digits |
| IndianNumber.GroupingIsReversible | packages/shared/src/i18n.ts:78-90 | removing the commas gives the digits back |
| IndianNumber.GroupIndian | packages/shared/src/i18n.ts:79-90 | the loop computes that grouping |
| IndianNumber.PrintedReadsBack | packages/shared/src/i18n.ts:98-110 | the printed text reads back as sign, whole part and fraction of the rounded value, with the point before the last fraction digits and a sign iff the printed value is not zero |
| IndianNumber.HalvesGoAwayFromZero | packages/shared/src/i18n.ts:97-103 | halves round away from zero and the error is at most half a unit plus the bias |
| FloorPlan.OverlapMeansSharedPoint | packages/shared/src/foh.ts:77 | the overlap test holds iff some point lies in both footprints |
| FloorPlan.InsideMeansOnCanvas | packages/shared/src/foh.ts:57-61 | a table passes the canvas check iff no point of its footprint lies off the canvas |
| FloorPlan.NoIssuesIffGood | packages/shared/src/foh.ts:49-82 | no issue is reported iff the plan is good |
| FloorPlan.AreasFitCanvas | packages/shared/src/foh.ts:54-82 | the tables of a good plan cover at most the canvas |
| FloorPlan.CheckTables | packages/shared/src/foh.ts:55-72 | the first loop reports exactly the faults of single tables |
| FloorPlan.CheckPairs | packages/shared/src/foh.ts:73-80 | the nested loops report exactly the overlapping pairs |
| FloorPlan.FloorLayoutIssues | packages/shared/src/foh.ts:54-82 | reports every fault and no other; accepted iff good; accepted tables fit the canvas |
| Attendance.PunchOrderIsIrrelevant | packages/shared/src/hr-accounting.ts:372-412 | a day has one result, whatever the order of its punches |
| Attendance.ComputeDayAttendance | packages/shared/src/hr-accounting.ts:372-412 | status, worked time, lateness, early leave and overtime in terms of worked time, first arrival and last departure |
| Attendance.PunchCounts | packages/shared/src/hr-accounting.ts:391-395 | a punch counts its whole minutes less the break, never less than nothing, and nothing while it is open |
| Attendance.LateBeyondGrace | packages/shared/src/hr-accounting.ts:401-402 | an arrival is late iff its whole minutes after the start exceed the grace, and then by all of them |
| Attendance.ShiftSpan | packages/shared/src/hr-accounting.ts:382-384 | a shift ends after it starts, within a day, at its end time that day or the next |
| Attendance.ScheduleIsShift | packages/shared/src/hr-accounting.ts:378-386 | the schedule is the shift's whole minutes less its break, or a standard day |
| Attendance.MonthBalances | packages/shared/src/hr-accounting.ts:436-481 | loss of pay is unemployed days plus unpaid leave plus absence; on rostered days presence, paid leave and loss of pay add up |
| Attendance.MonthCounts | packages/shared/src/hr-accounting.ts:455-463 | presence is the full and open days and half the half days of employment; worked, overtime and late minutes are summed over those days, late days counted |
| Attendance.LeaveCoversFirst | packages/shared/src/hr-accounting.ts:464-473 | on a rostered day paid leave covers what was missed, then unpaid leave the rest, and only what neither covers is absence |
| Attendance.OtherDays | packages/shared/src/hr-accounting.ts:451-454 | a day outside employment is loss of pay and nothing else; a day without a shift costs nothing |
| Attendance.LossOfPayIsBounded | packages/shared/src/hr-accounting.ts:442-481 | loss of pay is between zero and the number of days |
| Attendance.SummariseMonth | packages/shared/src/hr-accounting.ts:442-481 | the loop rolls up the day results and its loss of pay balances |
| Payroll.ComputePayslip | packages/shared/src/hr-accounting.ts:587-676 | every component; net is gross less deductions, negative iff fixed deductions exceed gross; recovery is capped by what they leave; each warning iff its reason |
| Payroll.SalaryIsProRata | packages/shared/src/hr-accounting.ts:592-600 | a monthly salary is paid for the days of the basis that were not lost, to the nearest paisa and never below nothing |
| Payroll.WageIsPerDay | packages/shared/src/hr-accounting.ts:604-606 | daily staff get the rate for each day present, and of paid leave where the policy pays it |
| Payroll.WageIsPerHour | packages/shared/src/hr-accounting.ts:608-611 | hourly staff get the rate for each sixty minutes outside overtime, and for a standard day per day of paid leave where the policy pays it |
| Payroll.OvertimeIsProRata | packages/shared/src/hr-accounting.ts:602-616 | overtime is the rate in proportion to minutes and multiplier over the hours the rate pays for (all standard hours of the month, of a day, or one), to the nearest paisa; nothing for staff who are not eligible |
| Payroll.OvertimeDayIsDay | packages/shared/src/hr-accounting.ts:602-616 | a standard day of overtime at multiplier one is worth a day's salary |
| Payroll.OvertimeForHoursPaid | packages/shared/src/hr-accounting.ts:602-616 | overtime for as long as the rate pays for is worth the rate |
| Payroll.AllowanceIsProRata | packages/shared/src/hr-accounting.ts:601-618 | a monthly allowance is paid in proportion to the salary earned, others in full |
| Payroll.EarningsAddUp | packages/shared/src/hr-accounting.ts:617-621 | each further earning or allowance adds its own pay to the gross, a deduction adds nothing |
| Payroll.PfIsRateOfWage | packages/shared/src/hr-accounting.ts:625-630 | provident fund is its rate on the basic pay up to the ceiling, to the nearest rupee, where it applies |
| Payroll.EsiIsRateOfGross | packages/shared/src/hr-accounting.ts:633-640 | insurance is its rate on the gross to the nearest rupee, due exactly up to the threshold |
| Payroll.TaxIsDueIf | packages/shared/src/hr-accounting.ts:642-645 | professional tax is due when it is switched on for the outlet and the employee, and nothing otherwise |
| Payroll.TaxIsFirstSlab | packages/shared/src/hr-accounting.ts:642-645 | professional tax is the amount of the first slab that reaches the gross, or nothing |
| Payroll.DeductionsAddUp | packages/shared/src/hr-accounting.ts:647-651 | each further deduction is deducted in full, an extra earning never is |
| Payroll.AdjustmentsCountOnce | packages/shared/src/hr-accounting.ts:617-651 | every adjustment counts once, with the earnings or with the deductions |
| Payroll.GrossFallsWithLoss | packages/shared/src/hr-accounting.ts:592-621 | more loss-of-pay days never raise the gross, and lower it at least as much as the salary |
| Payroll.NetRiseIsBounded | packages/shared/src/hr-accounting.ts:623-655 | more loss-of-pay days raise the net by at most the professional tax that falls away and a rupee for each contribution that applies, less the part of the lost gross that is not contributed; so not at all once the gross falls enough, whatever the rates |
| Payroll.NetCanRiseWithLoss | packages/shared/src/hr-accounting.ts:641-655 | an employee whose net rises with half a day of loss of pay through a tax slab |
| Payroll.RoundingCanRaiseNet | packages/shared/src/hr-accounting.ts:623-640 | an employee whose net rises by more than a rupee with half a day of loss of pay, both contributions being rounded down by one |
| Payroll.NoLossPaysInFull | packages/shared/src/hr-accounting.ts:598-618 | without loss of pay monthly staff get the whole salary and every allowance |
| Payroll.AllowancesPaidInFullIff | packages/shared/src/hr-accounting.ts:598-618 | without loss of pay, every allowance of monthly staff is paid in full iff the salary is worth a paisa or no allowance is |
| Forecast.ForecastScales | packages/shared/src/procurement.ts:130-191 | the forecast of k times a history is k times its forecast, and is defined iff that one is |
| Forecast.ConstantForecastsItself | packages/shared/src/procurement.ts:130-191 | a constant positive history of any length forecasts that constant at every horizon |
| Forecast.ProjectionBounds | packages/shared/src/procurement.ts:169-180 | projections are not negative and the trend moves the level by at most its size times phi / (1 - phi) |
| Forecast.DampingBound | packages/shared/src/procurement.ts:171-176 | the damping sum stays between zero and phi / (1 - phi) |
| Forecast.AverageIsOneIffNoFloor | packages/shared/src/procurement.ts:150-165 | the indices of a fitted model average to one iff there was nothing to fit or the floor lifts none, and to more otherwise |
| Forecast.FloorBites | packages/shared/src/procurement.ts:150-155 | a history whose fitted indices average to more than one |
| Forecast.DemandIsFittable | packages/shared/src/procurement.ts:130-155 | histories without negative days and a positive shrinkage never divide by zero |
| Forecast.SmoothingCorrectsErrors | packages/shared/src/procurement.ts:158-164 | each day corrects the damped one-day forecast by its error: the level by alpha of it, the damped trend by alpha times beta of it |
| Forecast.ForecastOfDay | packages/shared/src/procurement.ts:169-191 | the k-th day after the history is forecast from the fitted level and trend, k days of damping and the index of that day's own weekday |
| Forecast.ProjectedMeans | packages/shared/src/procurement.ts:176-177 | a projection is level plus damped trend, times the index, and never less than nothing |
| Forecast.IndexIsAverage | packages/shared/src/procurement.ts:150-153 | a weekday's index is the average of its ratios and `shrink` ones, and one if it was never observed |
| Forecast.TallyTakesOneDay | packages/shared/src/procurement.ts:141-149 | a day with demand around it adds its ratio to its own weekday and counts one; nothing else changes |
| Forecast.CentredIsWindow | packages/shared/src/procurement.ts:142-144 | the average around a day is that of seven days, three on each side |
| Forecast.WeekdayMovesOn | packages/shared/src/procurement.ts:146-157 | the weekday moves on by one each day and starts again after a week |
| Forecast.NoDemandNoForecast | packages/shared/src/procurement.ts:132-135 | without demand on average nothing is forecast |
| Forecast.TallyRatios | packages/shared/src/procurement.ts:139-149 | the loops compute the sums and counts of ratios per weekday |
| Forecast.SmoothSeries | packages/shared/src/procurement.ts:158-164 | the loop computes level and trend |
| Forecast.FitDemandModel | packages/shared/src/procurement.ts:130-166 | the fitted model the lemmas are about, for every history on which the source does not divide by zero |
| Forecast.ProjectDemand | packages/shared/src/procurement.ts:169-180 | the loop computes the projection the lemmas are about |

## Left out

- SQLite, JSON, HTTP, schema migrations, timers and sockets: foreign calls; a transaction is one step here.
- PIN login, session tokens, screen pairing and the network half of activation: cryptography and plumbing.
- Pricing of lines and combos against the catalog: it would only add look-ups; lines arrive priced.
- The catalog rows a terminal copies and the tables and coupons its engine reads are two models; the feed action of a run replaces the latter wholesale.
- The 20-round loop of a push and the 100-page loop of a pull: a run may repeat both actions any number of times.
- The conflicts table, server ids and the cloud's number mirrored back to the terminal: written, never read by the logic modelled here.
- Coupon counts, cash sessions, stock and audit rows in the cloud: outside what the terminal's safety rests on.
- The ready time the cloud stores for a line: it is clamped to the cloud's clock, so agreement is stated for the status only.
- The cloud reads an order's lines back in insertion order; the model keeps them in that order.
- Size limits of a request beyond its schema, and refusals of a device token: to the terminal they are a push without a response.
- Error texts are fixed strings, and the messages of a bad payment mode and a bad payment amount are one.
- A snapshot in the older format (`cacheSnapshot`), receipts, printing and all screens.
- `formatINR`, locale look-ups, calendar functions, availability windows and the forecast backtest: library semantics or one-branch facts.
- The upper limit of six fraction digits in `formatIndianNumber`: the statements hold for any number.
- EdgeKitchen.DrainedKitchenAgrees: asks that a kitchen update is handled in the push that carries it, once, in its turn and without a `retry`, that the cloud takes no bill bumped since it was read, that an order the cloud holds is bumped only while the outbox shows it acknowledged, and that the clock does not go back; a run in `EdgeStories` for each shows the two sides apart without it.
- Payroll.NetRiseIsBounded: gives a bound and not the exact condition for a rise, because with whole-rupee rounding that is the comparison of the very amounts; rates, allowances, salary and the insurance threshold are not negative, as the request schema asks.
- Forecast.FitDemandModel: not stated where the source divides zero by zero, as with `shrink` 0 and a weekday that was never observed.
- Payroll.ComputePayslip: not stated for zero or negative basis days or standard hours, where the source divides by zero.
