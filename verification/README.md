# Ledgers and protocols of the back office, modelled and proved

A point-of-sale back office keeps several ledgers that many operations write to: commissions owed to sales agents,
delivery orders and the trips that carry them, stock, refunds, customer payments. This project models those
operations in Dafny and proves what they keep over whole runs, and models the arithmetic and text around them
(CFDI 4.0 invoices, the Pagos 2.0 complement, amounts in Spanish words, the splitter of migration files) and proves
bounds and round trips for it.

Each operation is given twice where the source changes state: as a function from the tables before to the tables after
or a refusal, about which the theorems are proved, and as a method (a loop, or a method of a class that holds the
tables) whose contract is exactly that function. Tables are maps from identities to rows, ledgers are sequences that
only grow. An operation is one transaction: it refuses and changes nothing, or it does everything.

| Modules | Subject |
|---|---|
| `Outcomes`, `Tables`, `Rounding` | results, sums over tables, half-up rounding |
| `CommissionRules`, `CommissionLaws`, `CommissionEarners`, `CommissionCap`, `CommissionPeriods` | one month's commissions, and who earns them; closing, reopening and paying months |
| `DeliveryEvents`, `Delivery`, `DeliveryDesk`, `DeliveryClosing` | delivery orders, trips, stops, departure and settlement |
| `DeliveryInvariant`, `DeliveryKeeps`, `DeliveryTravel`, `DeliveryDepart`, `DeliverySettle`, `DeliverySettleTotals`, `DeliveryClose`, `DeliveryCalls` | what every delivery operation keeps |
| `DeliveryAcceptance`, `DeliveryOrigins`, `DeliveryOutcomes`, `DeliveryChildren` | which calls are accepted and what they make; where lines come from; what statuses say; what a close leaves |
| `DeliveryMoves`, `DeliveryFinal`, `DeliveryRoad`, `DeliveryShelves`, `DeliveryClaims`, `DeliveryGuard` | finished orders; what every operation keeps but for exactly some calls: stock on the road and on the shelves, claims, the bound on deliveries |
| `DeliveryHistories`, `DeliveryRuns`, `DeliveryRunaway`, `DeliveryOversell`, `DeliveryGaps` | whole runs: what they guarantee, and what goes wrong in those that make such calls |
| `Numbering`, `Locks` | serials under snapshot reads; the order of row locks |
| `InventoryDocuments`, `StockDesk`, `Counts` | receipts, issues, their reversal; counts that set stock |
| `Refunds`, `RefundAcceptance`, `RefundDesk`, `Payments` | competing refunds; payments and the paid flag |
| `CfdiInvoice`, `CfdiPayment`, `Words`, `SqlSplitter` | invoice sums, payment split, amounts in words, SQL files |

## How values are represented

- Money that is stored rounded is a whole number of cents (of ten-thousandths in `Payments`, of millionths in
  `CfdiPayment`); prices, quantities before rounding, rates and quotients are exact rationals (`real`). Half-up rounding
  is `Rounding.RoundHalfAway`. Stock and delivery quantities are whole numbers of the smallest unit.
- A commission's point in time is a real number whose floor is its month, so month `m` is `[m, m + 1)`: the rules only
  compare times and ask which month they fall in.
- What other services answer (candidates and applied money of a month, invoiced quantities, reservations, who the user
  is) are parameters, free to change from call to call.

## Where the code and its documentation differ

- A payment application is said never to take an order below zero. The bound is the balance rounded to cents, so it
  can: `Payments.HalfACentOver` is a run that does, `Payments.OverpaidExactlyWhenRoundedUp` says exactly when an order
  can be overpaid, and `Payments.ApplyOverpaysExactly` that it is never by more than half a cent.
- Claiming a line for a trip does not look at the line's order, and changing or giving back a claim does not look at
  whether the claim's own trip is the one named, or whether its stop was already made; adding a stop does look. The
  routes do not check either (app/api/v1/endpoints/delivery_itineraries.py:324-350). And closing a stop takes what was
  accepted as stated: the schema that would refuse less than nothing (app/schemas/delivery_itinerary.py:131-143) is not
  used, so the amounts of one order can offset one another and the order fails with goods delivered. So the promise that
  no delivery exceeds the sale is false, in two ways: `DeliveryGaps.MoreDeliveredThanSold` gives a claim back twice, and
  `DeliveryGaps.EightDeliveredOfFive` fails an order by an offset, cancels it and sells its goods again; every call of
  both is accepted. Other runs leave goods in transit with no trip on the road, or a draft below what is claimed of it.
  What does hold: histories, serials, stock and cover are right in every run, whatever is stated of a stop; and for each
  of the other properties it is proved exactly which calls end it. The bound on deliveries is ended, in that later
  ordinary calls can exceed it, exactly by a careless call: one that lowers a claim whose stop was made so that a line
  that can travel again has less committed than its pending claims, or one that closes a stop and fails an order of which
  more than nothing of some line was accepted. `DeliveryRuns.OverDeliveryIsCareless` says so of a line against what the
  sale counts as covered by it, `DeliveryRuns.OversellingIsCareless` of a sales line against what was sold, where its
  other orders are done: goods other orders never deliver count as covered for good, and would make up for the excess.
  Without careless calls no run exceeds either (`DeliveryRuns.NeverOverDelivered`).
- Serials are said to leave no gap for abandoned drafts (docs/data-dictionary.md:1131), and they do not. But a delivery
  order that is confirmed, rejected and confirmed again takes a second serial in place of the first, which is then
  nobody's (`DeliveryHistories.ConfirmedAgainLosesASerial`). `Numbering.NoGapsExactly`: there is a gap if and only if a
  committed transaction numbered a document that had a number.
- A delivery order counts as delivered when everything sent was accepted, even where less was sent than ordered.
- A commission key's amounts need not add up to the full commission: they add up to what is due by now
  (`CommissionLaws.ExactlyDue`), and only the keys that earned first are frozen.

## Model

| member | source | states |
|---|---|---|
| CommissionRules.DeriveKeys | app/services/commission_rules.py:187-216 | the keys of a line without stored rows, branch by branch; who earns as what is `CommissionEarners.KeysOfANewLine` |
| CommissionRules.FreezeKeys | app/services/commission_rules.py:219-235 | one key per (agent, participation) among the stored rows, as the first row of each has it |
| CommissionRules.SettledRatio | app/services/commission_rules.py:350-354 | the ratio is at most one, one where nothing is owed, and otherwise ratio times owed is what was applied, up to what is owed |
| CommissionRules.ComputeSale | app/services/commission_rules.py:331-362 | the sale line of a key: what is due by now less what was stored, listed once even at zero |
| CommissionRules.ComputeRefunds | app/services/commission_rules.py:364-383 | the refunds charged: dated before the month's end, not yet stored, and under full payment only with their sale |
| CommissionRules.ComputeMonth | app/services/commission_rules.py:238-384 | the whole computation, candidate by candidate and key by key, equals the month's lines |
| CommissionLaws.FrozenKeysStay | app/services/commission_rules.py:219-235 | rows stored under keys already frozen freeze no further key |
| CommissionLaws.ExactlyDue | app/services/commission_rules.py:329-362 | after a month, what is stored for a key it looked at is exactly what is due by now |
| CommissionLaws.RefundsComplete | app/services/commission_rules.py:364-383 | every refund that counts is among the rows stored, unless it earns nothing |
| CommissionLaws.MonthRows | app/services/commission_rules.py:257-262 | what a month stores for an order line is what its one candidate owes |
| CommissionLaws.MonthAgainOwesNothing | app/services/commission_rules.py:238-384 | running a month again on the same facts with its own lines stored yields no line, in both schemes, with zero-rate listings, late pick-ups and the switch from derived to frozen keys |
| CommissionEarners.KeysOfANewLine | app/services/commission_rules.py:187-216 | the keys of a line without stored rows: for the customer's own salesperson who made the sale, one as lifetime customer; otherwise one for who made the sale as channelling and one for the customer's salesperson as field service; each if and only if the person is an agent, at exactly today's share and label rate |
| CommissionEarners.KeysOfAStoredLine | app/services/commission_rules.py:219-235 | of a line with stored rows, the first row of each agent and participation is the key, column by column |
| CommissionEarners.FirstMonthPaysWhoEarns | app/services/commission_rules.py:257-362 | after the month that first sees a line, who earns on it holds exactly what is earned by now, nobody else has a row, and every row is at today's rates under the agent's scheme |
| CommissionEarners.FirstMonthListsPaidSales | app/services/commission_rules.py:329-349 | a fully paid agent's sale is listed that month if and only if the order counts as paid in it |
| CommissionEarners.FirstMonthChargesRefunds | app/services/commission_rules.py:364-383 | a refund of a new line is charged to who earns on it if and only if it is dated before the month's end, comes to a cent, and under full payment its sale counts as paid |
| CommissionEarners.AnyMonthPays | app/services/commission_rules.py:262-362 | after any month, what is stored of a sale under a key is the whole commission once paid, or the paid part of it, or what it was; by the agent's scheme of today, or of the latest row for who is an agent no more |
| CommissionEarners.AnyMonthRecordsKeys | app/services/commission_rules.py:280-327 | a month's new rows are at their key's rates and scheme |
| CommissionEarners.AnyMonthCharges | app/services/commission_rules.py:364-383 | after any month a refund has been charged under a key if and only if it had been, or it is dated before the month's end, comes to a cent, and under full payment its sale is listed or counts as paid |
| CommissionEarners.EveryLineRecords | app/services/commission_rules.py:271-383 | every computed line is of a candidate, at its label's rate by its participation's, with the total and full commission of its own price and quantity, and dated as its movement and scheme ask |
| CommissionCap.KeyStaysGood | app/services/commission_rules.py:329-383 | one key's lines keep its sales between zero and the full commission and its refunds charged once |
| CommissionCap.CloseKeepsLedgerGood | app/services/commission_rules.py:11-27 | a month's close keeps the cap, the single charge of each refund and the frozen keys, whatever changed in payments, refunds, rates and schemes |
| CommissionPeriods.MonthsInOrder | app/services/commission_service.py:502-503 | the previous month is one month before, and (year, month) pairs compare as months do |
| CommissionPeriods.CommissionService.CheckClose | app/services/commission_service.py:506-537 | a month closes only once it has ended, once, and right after the latest closed month |
| CommissionPeriods.CommissionService.Close | app/services/commission_service.py:506-550 | close freezes the month's computed lines, or refuses and changes nothing |
| CommissionPeriods.CommissionService.Reopen | app/services/commission_service.py:553-583 | reopen discards the lines of the latest closed month only, and never of a paid one |
| CommissionPeriods.CommissionService.Pay | app/services/commission_service.py:586-602 | pay finalises a closed month |
| CommissionPeriods.ClosesExactlyWhen | app/services/commission_service.py:506-550 | a month closes if and only if it has ended, is open, and is the first closed or right after the latest closed |
| CommissionPeriods.ReopensAndPaysExactlyWhen | app/services/commission_service.py:553-602 | a month reopens if and only if it is closed, unpaid and the latest closed, and is paid if and only if it is closed |
| CommissionPeriods.ClosingPaysWhoEarns | app/services/commission_service.py:506-550 | the rows a close stores of a line seen the first time pay who earns on it, and nobody else |
| CommissionPeriods.StoredRowsFrom | app/services/commission_service.py:102-124 | with the closed months unbroken, the ledger is their rows in order, from the chain's start to the latest closed month |
| CommissionPeriods.NeverMoreThanTheFullCommission | app/services/commission_service.py:506-602 | in every state reachable by closes, reopens and pays, the stored sales of each (line, agent, participation) are between zero and the full commission at its one frozen rate, and each refund line is charged to it at most once |
| CommissionPeriods.ClosedMonthsUnbrokenAndKeysFrozen | app/services/commission_service.py:490-583 | the closed months form one unbroken interval, and after the month that first stored a line no row of it uses another key, name or rate |
| CommissionPeriods.ReopenUndoesClose | app/services/commission_service.py:553-583 | closing and reopening a month restores the ledger exactly |
| CommissionPeriods.PaidIsFinal | app/services/commission_service.py:553-602 | no run changes a paid month's status or lines |
| DeliveryEvents.TransitionRecords | app/services/delivery_events.py:86-114 | every permitted move extends the order's recorded history by one event that starts where the last one ended |
| DeliveryEvents.TerminalIsLast | app/services/delivery_events.py:23-39 | no recorded history goes on past a terminal status |
| DeliveryEvents.PickupNeverTravels | app/services/delivery_events.py:42-48 | no pickup order's history reaches preparation or the road |
| Delivery.ChosenWithin | app/services/delivery_order_service.py:63-119 | what a new order takes is uncovered, each sales line once; unnarrowed it takes everything uncovered |
| DeliveryDesk.Narrow | app/services/delivery_order_service.py:63-119 | narrowing to the requested lines, or the first bad request's refusal |
| DeliveryDesk.Desk.CoveredQuantity | app/services/delivery_order_service.py:122-154 | what existing orders, cancelled ones aside, account for of a sales line |
| DeliveryDesk.Desk.Raise | app/services/delivery_order_service.py:187-342 | the tables with a draft for what the sale still owes or the part requested, or the refusal; its lines' goods are in `DeliveryOrigins.LinesMatchTheirSale`, the rest of what is raised in `DeliveryAcceptance.RaisedIs` and `RaisingCovers` |
| DeliveryDesk.Desk.Add | app/services/delivery_order_service.py:532-635 | one more sales line on a draft, within what is uncovered |
| DeliveryDesk.Desk.Edit | app/services/delivery_order_service.py:638-668 | a draft line's quantity changed, within what is uncovered without it |
| DeliveryDesk.Desk.Drop | app/services/delivery_order_service.py:671-680 | a draft line deleted |
| DeliveryDesk.Desk.ConfirmOrder | app/services/delivery_order_service.py:710-756 | a draft with lines and enough notice takes its facility's next serial, over any it had, and goes to approval, to the counter or to preparation |
| DeliveryDesk.Desk.ApproveOrder | app/services/delivery_order_service.py:759-775 | approval of a pending order |
| DeliveryDesk.Desk.RejectOrder | app/services/delivery_order_service.py:778-797 | rejection of a pending order, with a reason |
| DeliveryDesk.Desk.ReadyOrder | app/services/delivery_order_service.py:800-809 | an approved pickup set out for collection |
| DeliveryDesk.Desk.RequeueOrder | app/services/delivery_order_service.py:812-835 | a failed order back in preparation, what came back open again |
| DeliveryDesk.Desk.CancelOrder | app/services/delivery_order_service.py:838-855 | an order retired, its lines' claims zeroed and trip entries left |
| DeliveryDesk.Desk.HandOver | app/services/delivery_order_service.py:884-953 | goods handed over the counter and posted out, with proof |
| DeliveryDesk.Desk.PlanStop | app/services/delivery_itinerary_service.py:350-391 | a stop on an open trip for an order in preparation |
| DeliveryDesk.Desk.Load | app/services/delivery_itinerary_service.py:408-450 | a claim of a line, all that is open on it or the part named, never more |
| DeliveryDesk.Desk.Adjust | app/services/delivery_itinerary_service.py:471-493 | a claim changed within what is open besides it |
| DeliveryDesk.Desk.Unload | app/services/delivery_itinerary_service.py:496-509 | a claim given back and deleted |
| DeliveryDesk.Desk.DropStop | app/services/delivery_itinerary_service.py:512-528 | a stop removed and everything it claimed given back |
| DeliveryDesk.Desk.DropTrip | app/services/delivery_itinerary_service.py:325-347 | an open trip cancelled and everything it claimed given back |
| DeliveryDesk.Desk.Leave | app/services/delivery_itinerary_service.py:567-667 | departure: claims frozen as sent, goods posted from shelf to transit, orders on the road; or nothing at all |
| DeliveryDesk.Desk.Resolve | app/services/delivery_itinerary_service.py:774-969 | the tables after a stop is closed, or the refusal with nothing changed |
| DeliveryClosing.SettleEach | app/services/delivery_itinerary_service.py:837-857 | every entry of the stop records what was accepted and what came back, and its line follows |
| DeliveryClosing.PostEach | app/services/delivery_itinerary_service.py:867-890 | what was sent leaves transit, what came back returns to the shelf |
| DeliveryClosing.Decide | app/services/delivery_itinerary_service.py:906-917 | delivered, failed or partly delivered, by what was accepted against what was sent |
| DeliveryClosing.SettleOrders | app/services/delivery_itinerary_service.py:899-940 | each order moved to how it came out, and what the stop's outcomes come to |
| DeliveryClosing.SplitOff | app/services/delivery_itinerary_service.py:997-1063 | a child order in preparation, under the next serial, for the part of each partly delivered order that came back |
| DeliveryClosing.Close | app/services/delivery_itinerary_service.py:774-969 | the loops together compute the closing of a stop |
| DeliveryKeeps.CreateKeeps | app/services/delivery_order_service.py:187-342 | raising an order keeps the invariant |
| DeliveryKeeps.AddLineKeeps | app/services/delivery_order_service.py:532-635 | adding a line keeps it |
| DeliveryKeeps.UpdateLineKeeps | app/services/delivery_order_service.py:638-668 | editing a line keeps it |
| DeliveryKeeps.DeleteLineKeeps | app/services/delivery_order_service.py:671-680 | deleting a line keeps it |
| DeliveryKeeps.RequeueKeeps | app/services/delivery_order_service.py:812-835 | requeueing keeps it |
| DeliveryKeeps.CancelKeeps | app/services/delivery_order_service.py:838-855 | cancelling keeps it |
| DeliveryKeeps.PickupKeeps | app/services/delivery_order_service.py:884-953 | a pickup keeps it, its postings included |
| DeliveryTravel.CommitLineKeeps | app/services/delivery_itinerary_service.py:408-450 | claiming a line keeps it, whatever its order |
| DeliveryTravel.AdjustKeeps | app/services/delivery_itinerary_service.py:471-493 | changing a claim keeps it, whichever trip and stop the claim is of |
| DeliveryTravel.ReleaseKeeps | app/services/delivery_itinerary_service.py:496-509 | giving a claim back keeps it, whichever trip and stop it is of |
| DeliveryTravel.RemoveStopKeeps | app/services/delivery_itinerary_service.py:512-528 | removing a stop keeps it |
| DeliveryTravel.CancelTripKeeps | app/services/delivery_itinerary_service.py:325-347 | cancelling a trip keeps it |
| DeliveryDepart.DepartKeeps | app/services/delivery_itinerary_service.py:567-667 | departure keeps it |
| DeliveryDepart.DepartKeepsTotalStock | app/services/delivery_itinerary_service.py:620-640 | nothing leaves the company when a trip departs |
| DeliverySettleTotals.ByLineIsByEntry | app/services/delivery_itinerary_service.py:837-857 | what the settlement records by entry and by line adds up to the same |
| DeliverySettleTotals.SettleNet | app/services/delivery_itinerary_service.py:837-857 | a settlement takes out of the sales' cover exactly the returned part of partly delivered orders |
| DeliveryClose.SplitKeeps | app/services/delivery_itinerary_service.py:997-1057 | the children put back into the sales' cover exactly what the settlement took out |
| DeliveryClose.ClosingLeavesOpenQuantity | app/services/delivery_order_service.py:41-45 | closing a stop leaves a line's open quantity as it was if and only if the stop's claims on the line are what was sent of it |
| DeliveryClose.ClosingConservesCover | app/services/delivery_itinerary_service.py:774-1057 | closing a stop changes no sales line's cover |
| DeliveryClose.CloseStopKeeps | app/services/delivery_itinerary_service.py:774-1057 | closing a stop keeps the invariant, whatever is stated within what was sent |
| DeliveryCalls.CallKeeps | app/services/delivery_itinerary_service.py:325-1057 | every operation keeps the invariant, whoever's claims it changes and whatever a close states |
| DeliveryCalls.RunKeeps | app/services/delivery_order_service.py:187-953 | so does every run of them |
| DeliveryOrigins.LinesMatchTheirSale | app/services/delivery_order_service.py:187-342 | over every run, a line of a sales line is of that line's product, leaves from its warehouse or, where it names none, from its order's facility's fallback, and goes to the customer it was sold to |
| DeliveryOrigins.ChildrenMatchTheirParent | app/services/delivery_itinerary_service.py:997-1057 | over every run, a child's parent is a partly delivered order of the same customer, facility and kind |
| DeliveryAcceptance.RaisedExactlyWhen | app/services/delivery_order_service.py:187-342 | an order is raised if and only if it is not asked to be mixed, the sale is completed, not cancelled, paid or on credit where that is asked, owes something and at least what is requested of each line, each once, and the facility has a fallback warehouse |
| DeliveryAcceptance.RaisedIs | app/services/delivery_order_service.py:273-312 | it is a draft of the sale's customer at the sale's facility, of the kind given, and where none is, a pickup if and only if it goes to a facility's own address |
| DeliveryAcceptance.RaisingCovers | app/services/delivery_order_service.py:122-154 | afterwards each line of the sale is covered whole, or by exactly what was requested more |
| DeliveryAcceptance.AddedExactlyWhen | app/services/delivery_order_service.py:532-635 | a line is added if and only if the order is a draft of the same customer without it, within what is not covered |
| DeliveryAcceptance.AddingCovers | app/services/delivery_order_service.py:532-635 | and its sales line is covered by exactly that much more |
| DeliveryAcceptance.EditedExactlyWhen | app/services/delivery_order_service.py:638-668 | a draft's line is changed if and only if its sales line is not covered beyond what was sold |
| DeliveryAcceptance.DroppedExactlyWhen | app/services/delivery_order_service.py:671-680 | a draft's line is deleted if and only if no trip entry is on it |
| DeliveryAcceptance.ConfirmedExactlyWhen | app/services/delivery_order_service.py:683-756 | a draft is confirmed if and only if it has lines and enough notice; it goes to approval where that is asked, and otherwise a pickup to the counter and a delivery to preparation |
| DeliveryAcceptance.ConfirmedTakesTheNextSerial | app/services/delivery_order_service.py:744-744 | its serial is one above the highest at its facility, or the first |
| DeliveryAcceptance.ApprovedExactlyWhen | app/services/delivery_order_service.py:759-775 | an order is approved if and only if it is pending, to the counter or to preparation by its kind |
| DeliveryAcceptance.RejectedExactlyWhen | app/services/delivery_order_service.py:778-797 | and rejected if and only if it is pending and a reason is given |
| DeliveryAcceptance.DeliveryNeverAtTheCounter | app/services/delivery_events.py:42-48 | no delivery's history reaches the counter |
| DeliveryAcceptance.ReadiedExactlyWhen | app/services/delivery_order_service.py:800-809 | an order is set out if and only if it is approved |
| DeliveryAcceptance.RequeuedExactlyWhen | app/services/delivery_order_service.py:812-835 | an order is back in preparation, with nothing of its own lines returned any more, if and only if it had failed |
| DeliveryAcceptance.CancelledExactlyWhen | app/services/delivery_order_service.py:838-855 | an order is cancelled, its own lines' claims zeroed, if and only if a reason is given and it is neither on the road nor finished |
| DeliveryAcceptance.HandedOverExactlyWhen | app/services/delivery_order_service.py:884-953 | an order is handed over, its own lines whole, if and only if it was set out and the proof is complete |
| DeliveryAcceptance.PlannedExactlyWhen | app/services/delivery_itinerary_service.py:350-391 | a stop is planned if and only if the trip is open and the order in preparation |
| DeliveryAcceptance.LoadedExactlyWhen | app/services/delivery_itinerary_service.py:408-450 | a line is loaded if and only if the stop is of the open trip and what is named, or all, is more than nothing and no more than is open on it |
| DeliveryAcceptance.AdjustedExactlyWhen | app/services/delivery_itinerary_service.py:471-493 | a claim is changed if and only if the trip named is open and the line has that much open besides it |
| DeliveryAcceptance.UnloadedExactlyWhen | app/services/delivery_itinerary_service.py:496-509 | a claim is given back, to its line alone, if and only if the trip named is open |
| DeliveryAcceptance.DroppedStopExactlyWhen | app/services/delivery_itinerary_service.py:512-528 | a stop of an open trip is deleted with its entries and nothing else |
| DeliveryAcceptance.DroppedTripExactlyWhen | app/services/delivery_itinerary_service.py:325-347 | an open trip is cancelled and its stops and entries deleted, and nothing else |
| DeliveryAcceptance.LeavesExactlyWhen | app/services/delivery_itinerary_service.py:567-667 | a trip leaves if and only if it is open, has something loaded, and all of it is within its line, from a warehouse with a transit location and of an order in preparation |
| DeliveryAcceptance.LeavingIs | app/services/delivery_itinerary_service.py:567-667 | its entries then send what they claim, its orders, and no others, are on the road |
| DeliveryAcceptance.ClosedExactlyWhen | app/services/delivery_itinerary_service.py:774-969 | a pending stop of a departed trip is closed if and only if exactly its entries are stated, none above what was sent, every difference explained, the proof complete, and its orders on the road |
| DeliveryChildren.ClosingSettlesOrders | app/services/delivery_itinerary_service.py:899-919 | each order at a closed stop is delivered if all that was sent of it was accepted, failed if nothing was, partly delivered otherwise; the others are as they were |
| DeliveryChildren.ClosingSettlesTheStop | app/services/delivery_itinerary_service.py:934-940 | the stop is delivered if and only if all its orders are, as it is without entries, and failed if and only if it has some and all failed |
| DeliveryChildren.ClosingCarriesBack | app/services/delivery_itinerary_service.py:997-1057 | what came back of each entry of a partly delivered order is one untouched line, of the same goods and that quantity, on the one child of that order; no other order or line is new |
| DeliveryChildren.ClosingNumbersChildren | app/services/delivery_itinerary_service.py:1060-1063 | every child takes the serial after the highest of the orders before it at its facility, one after another |
| DeliveryOutcomes.TripsCloseWithTheirLastStop | app/services/delivery_itinerary_service.py:943-962 | over every run, a trip that left is under way if and only if a stop of it is still to be made, and closed otherwise |
| DeliveryOutcomes.OutcomesMatchTheFigures | app/services/delivery_itinerary_service.py:899-919 | over every run whose closes state nothing below zero, a delivered order has something delivered and nothing back, a partly delivered one both, a failed one nothing delivered and something back, a picked up one all delivered, and any other nothing delivered |
| DeliveryMoves.CallMoves | app/services/delivery_order_service.py:187-953 | drafting, moving, retiring and planning leave what is on trips alone, and do to each line one of a few named things |
| DeliveryRoad.CallKeepsRoadExactly | app/services/delivery_itinerary_service.py:496-509 | after a call the in-transit locations hold what is aboard if and only if the call does not give back a claim whose goods are on the road |
| DeliveryShelves.CallKeepsShelvesExactly | app/services/delivery_itinerary_service.py:567-667 | after a call each warehouse is down, product by product, by what was delivered out of it and what is on the road out of it, if and only if the call does not give back a claim whose goods are on the road |
| DeliveryShelves.RowsNameTheirCall | app/services/delivery_itinerary_service.py:620-640 | a departure and a closing add ledger rows of their own trip only, a pickup of its own order only, and no other call adds any |
| DeliveryClaims.CallKeepsClaimsExactly | app/services/delivery_itinerary_service.py:408-509 | after a call the claims are parts of their lines if and only if it neither cuts a draft below its claims, nor changes a claim whose stop was made, nor lowers one on the road below what it sent |
| DeliveryGuard.CallKeepsGuardedExactly | app/services/delivery_itinerary_service.py:471-940 | after a call every line that can still travel has its pending claims committed, nothing sent or delivered exceeds a line, and nothing is delivered of an order open, failed or cancelled, if and only if the call is not careless |
| DeliveryFinal.FinishedStays | app/services/delivery_events.py:23-39 | no run changes what a finished order ordered, delivered and got back, nor its status |
| DeliveryFinal.OffsetsNeedNegatives | app/schemas/delivery_itinerary.py:131-136 | a close that states nothing below zero, as the unused schema asks, fails no order part of which was accepted |
| DeliveryFinal.DeliveredNotNegative | app/schemas/delivery_itinerary.py:131-136 | over runs whose closes state nothing below zero, no line has delivered less than nothing |
| DeliveryGuard.NoOverDelivery | app/services/delivery_order_service.py:122-154 | in such a state what is delivered of a sales line is within what was sold |
| DeliveryRunaway.LooseRunsAway | app/services/delivery_itinerary_service.py:471-1057 | a line that has less committed than claimed, of an order that can travel again, is delivered beyond its quantity by some course of ordinary calls |
| DeliveryHistories.HistoriesAreComplete | app/services/delivery_events.py:86-133 | over every sequence of calls, every order's events are the chain of permitted moves from its creation to its status |
| DeliveryHistories.FoliosStayDistinct | app/services/delivery_order_service.py:744-744 | over every sequence of calls, no two delivery orders of a facility share a serial, children of partial deliveries included |
| DeliveryHistories.ConfirmedAgainLosesASerial | app/services/delivery_order_service.py:744-797 | an order rejected and confirmed again leaves the serial it had to nobody |
| DeliveryOversell.CarelessRunsAway | app/services/delivery_itinerary_service.py:471-969 | after a careless call some course of calls, none careless, delivers more of the line than the sale counts as covered by it |
| DeliveryOversell.SellRest | app/services/delivery_order_service.py:187-342 | what a sales line's orders leave uncovered can be raised, confirmed and handed over in full |
| DeliveryOversell.MoreThanSold | app/services/delivery_order_service.py:122-154 | where the sales line's other orders are done, a careless call about its open line lets later calls deliver more of it than was sold |
| DeliveryRuns.NeverOverDelivered | app/services/delivery_order_service.py:122-154 | over every run without careless calls, what is delivered across all orders, children and pickups of a sales line never exceeds what was sold, nor any line what was ordered |
| DeliveryRuns.OverDeliveryIsCareless | app/services/delivery_itinerary_service.py:471-940 | from a state no careless call led to, a call lets later calls, none careless, deliver more of a line than the sale counts as covered by it if and only if it is careless |
| DeliveryRuns.OversellingIsCareless | app/services/delivery_itinerary_service.py:471-940 | the same on sales lines: on one that can be sold and whose other orders are done, more than was sold can come to be delivered if and only if the call is careless about its open line |
| DeliveryRuns.CarefulRunsAreGuarded | app/services/delivery_itinerary_service.py:325-1057 | every state a run without careless calls reaches is one of those |
| DeliveryRuns.CoverStaysWithinSale | app/services/delivery_order_service.py:122-154 | over every run, whatever its closes state, what orders can still deliver of a sales line, a split part counted once, never exceeds what was sold |
| DeliveryRuns.ClaimsPartitionTheLine | app/services/delivery_order_service.py:41-45 | over runs that disturb no claim, for orders neither cancelled nor picked up, committed is the sum of the pending trip entries, and with delivered and returned it is within the ordered quantity |
| DeliveryRuns.InTransitIsAboard | app/services/delivery_itinerary_service.py:531-890 | over runs that strand no goods, what trips posted to an in-transit location is what pending stops of departed trips have aboard, zero once no trip is on the road |
| DeliveryRuns.StockFallsByDeliveries | app/services/delivery_itinerary_service.py:867-890 | over every run, whatever its closes state, and over all warehouses, deliveries take out exactly what was delivered |
| DeliveryShelves.ShelvesFallByDeliveries | app/services/delivery_itinerary_service.py:567-890 | over every run that strands nothing, each shelf is down by exactly what was delivered and what is on the road out of it |
| DeliveryGaps.RefusedRunsAway | app/services/delivery_itinerary_service.py:496-509 | a stop refused whole can always be followed, while any trip is open, by calls that deliver more of its line than was ordered |
| DeliveryGaps.MoreDeliveredThanSold | app/services/delivery_itinerary_service.py:496-509 | a run from empty tables, every call of it accepted, delivers more of a sales line than was sold: a claim is given back twice |
| DeliveryGaps.OffsetOversells | app/services/delivery_itinerary_service.py:803-917 | what an offset accepted of a sales line's only line comes to be delivered on top of all that was sold |
| DeliveryGaps.EightDeliveredOfFive | app/services/delivery_itinerary_service.py:803-917 | another run from empty tables, every call accepted, delivers eight of five sold: three and less than nothing of two lines fail an order, which is cancelled and sold again |
| DeliveryGaps.FiveLeftInTransit | app/services/delivery_itinerary_service.py:496-509 | a run from empty tables leaves five units in transit with no trip on the road |
| DeliveryGaps.DraftCutBelowItsClaim | app/services/delivery_itinerary_service.py:408-450 | a run from empty tables claims four units of a draft that is then cut to one |
| Numbering.HighestOf | app/services/documents.py:52-54 | the largest serial read, or nothing |
| Numbering.Database.NextSerial | app/services/inventory_documents.py:301-318 | the next serial is one above all the transaction sees, its own included, and is written in it |
| Numbering.Database.AssignFolio | app/services/documents.py:36-56 | the numbering lock first, then the next serial; refused where a facility has no lock row |
| Numbering.SerialsAreDistinct | app/services/documents.py:36-56 | in every interleaving of transactions that lock before they read, every serial given is above all there were and no other document's, and a unique index holds if it held |
| Numbering.NoGapsExactly | app/services/documents.py:36-56 | every serial ever used is still some document's if and only if no committed transaction numbered a document that had a number; without that there are no gaps even where serials repeat |
| Numbering.NumberIsNextAbove | app/services/documents.py:36-56 | a number given is one above every committed serial and every one its own transaction wrote, whatever was interleaved |
| Numbering.ConfirmedAgainLeavesAGap | app/services/delivery_order_service.py:710-797 | a document numbered twice, and then another: serials 2 and 3 are held, and 1 is nobody's |
| Numbering.StaleSnapshotRepeatsASerial | app/services/documents.py:45-48 | a transaction that reads before it locks gives out a serial twice |
| Locks.ConfirmRefundOrdered | app/services/customer_refund_service.py:614-712 | a refund's confirm: session, refund, order, its lines shared, facility, warehouses; its later facility locks are held already |
| Locks.ConfirmDeliveryOrdered | app/services/delivery_order_service.py:696-756 | a delivery's confirm: the order, then its facility |
| Locks.CloseStopOrdered | app/services/delivery_itinerary_service.py:673-771 | closing a stop: trip, stop, facilities ascending, warehouses ascending; children lock only facilities held |
| Locks.PostStockOrdered | app/services/inventory_documents.py:180-298 | an inventory step: its document, then warehouses ascending |
| Locks.EveryOperationIsOrdered | app/services/documents.py:1-9 | every operation modelled requests its explicit locks in one global order, locking again only facilities it holds |
| Locks.NoCircularWait | app/services/documents.py:1-9 | in every interleaving no transaction waits for itself, directly or through others |
| Locks.SomeoneCanMove | app/services/documents.py:1-9 | in every reachable state some transaction has all its locks or can be granted its next |
| Locks.LocksExactlyItsRows | app/services/documents.py:1-9 | each operation requests a lock on every row it needs, and on no other |
| Locks.OnlyRefundLinesAreShared | app/services/documents.py:1-9 | the lines a refund reads are the only rows locked shared |
| InventoryDocuments.NetOfReversal | app/services/inventory_documents.py:167-169 | a reversal nets to the opposite of the document, in every warehouse and product |
| InventoryDocuments.ReceiptsAddIssuesTake | app/services/inventory_documents.py:624-641 | a confirmed receipt raises its warehouse's level of each product by its lines' quantity, a confirmed issue lowers it by that, every other level stays, and the rows are the document's |
| InventoryDocuments.ConfirmedExactlyWhen | app/services/inventory_documents.py:571-651 | a receipt or issue is confirmed if and only if it is a draft of the user's facility, or the user an administrator, with lines of positive quantities of stockable products, and an issue takes no product beyond what is available |
| InventoryDocuments.CancelledExactlyWhen | app/services/inventory_documents.py:654-731 | a document is cancelled if and only if it is not yet, nor a confirmed count, and undoing it takes out nothing promised |
| InventoryDocuments.DocumentsMoveTheirLines | app/services/inventory_documents.py:571-731 | over every run, each receipt and issue has in each level its lines, in or out, while it stands confirmed, and nothing otherwise |
| InventoryDocuments.CancelNetsToZero | app/services/inventory_documents.py:654-731 | a cancelled confirmed document's rows net to zero in every warehouse and product |
| InventoryDocuments.CancelledLeaveNoTrace | app/services/inventory_documents.py:571-731 | after any run of confirms and cancels every cancelled document's rows net to zero |
| InventoryDocuments.ConfirmCovers | app/services/inventory_documents.py:571-651 | a confirm takes out nothing that is reserved, with products repeated on its lines |
| InventoryDocuments.CancelCovers | app/services/inventory_documents.py:654-731 | a cancel takes out nothing that is reserved, with rows of both signs |
| InventoryDocuments.ReservationsStayCovered | app/services/inventory_documents.py:365-388 | a stock level that covers its reservations covers them after any run |
| InventoryDocuments.ConfirmedCountsStand | app/services/inventory_documents.py:109-124 | a confirmed count is never reversed |
| StockDesk.PerProductTotals | app/services/inventory_documents.py:149-153 | each product's total over its lines |
| StockDesk.ReversalEntries | app/services/inventory_documents.py:167-169 | the opposite of each row, in order |
| StockDesk.NetOutbound | app/services/inventory_documents.py:172-177 | exactly the places a reversal takes from, net, with how much |
| StockDesk.Desk.CheckAvailable | app/services/inventory_documents.py:365-388 | the lowest product that would go below what can still be promised, if any |
| StockDesk.Desk.ConfirmSimple | app/services/inventory_documents.py:571-651 | the tables after a receipt or an issue is confirmed, or the refusal; a receipt adds and an issue takes by `InventoryDocuments.ReceiptsAddIssuesTake` |
| StockDesk.Desk.CheckReversal | app/services/inventory_documents.py:703-709 | the lowest warehouse and product a reversal would leave short, if any |
| StockDesk.Desk.CancelDocument | app/services/inventory_documents.py:654-731 | the tables after a document is cancelled, or the refusal |
| Counts.ValidateBatch | app/services/inventory_count_service.py:73-108 | the faults of a batch, entry by entry, each product allowed once |
| Counts.NoFaultsMeansClean | app/services/inventory_count_service.py:73-108 | a batch is accepted if and only if each entry names exactly one known stockable product and no two name the same |
| Counts.FaultsAreTheBadEntries | app/services/inventory_count_service.py:73-108 | the faults of a batch are exactly its bad entries, each with its reason: naming both or neither, nothing known, nothing stockable, or what an entry before it named |
| Counts.ResolvedIsWhatIsNamed | app/services/inventory_count_service.py:73-108 | an accepted batch sets the product each entry names, by identity or by code, to its quantity |
| Counts.ResolvedOnePerProduct | app/services/inventory_count_service.py:73-108 | an accepted batch has one line per product |
| Counts.ApplyBatch | app/services/inventory_count_service.py:120-136 | lines overwritten in place, the last line of a product winning, and the lines to create |
| Counts.BatchIsHeld | app/services/inventory_count_service.py:120-136 | afterwards every product of the batch is counted at the batch's quantity |
| Counts.OthersKeepTheirLine | app/services/inventory_count_service.py:120-136 | products the batch does not name keep their lines |
| Counts.ApplyTwiceIsOnce | app/services/inventory_count_service.py:120-136 | applying a batch twice equals applying it once |
| Counts.ApplyKeepsOnePerProduct | app/services/inventory_count_service.py:120-136 | applying keeps one line per product |
| Counts.SetBatchKeepsOnePerProduct | app/services/inventory_count_service.py:359-379 | setting lines keeps one line per product on every count |
| Counts.SetBatchTwice | app/services/inventory_count_service.py:359-379 | setting the same lines again changes nothing |
| Counts.CountSetsTheStock | app/services/inventory_count_service.py:487-556 | confirming leaves on hand what was counted, zero for uncounted stockable products when asked, and everything else as it was |
| Counts.CountedExactlyWhen | app/services/inventory_count_service.py:487-556 | a count is confirmed if and only if it is a draft of the user's facility, or the user an administrator, with lines or with a stockable product in stock to add |
| Counts.EveryCountSetsTheStock | app/services/inventory_count_service.py:487-556 | the same for every count confirmed after any run of setting lines, confirming counts and other movements from counts without lines |
| Counts.RepeatedLinesCorrectTwice | app/services/inventory_count_service.py:147-175 | without one line per product the corrections of a product would add up instead |
| Counts.Chunks | app/services/inventory_count_service.py:250-255 | runs of at most the size, all but the last full, nothing lost or reordered |
| Counts.CountDesk.SetLines | app/services/inventory_count_service.py:359-379 | the tables after a batch is set, or the refusal |
| Counts.CountDesk.AddUncounted | app/services/inventory_count_service.py:178-191 | the lines of stockable products with a balance and no line, each at zero |
| Counts.CountDesk.PostDifferences | app/services/inventory_count_service.py:147-175 | one row per line that differs, posted in runs |
| Counts.CountDesk.ConfirmLines | app/services/inventory_count_service.py:487-556 | the tables after a count is confirmed, or the refusal |
| Refunds.FitIsTheClaim | app/services/customer_refund_service.py:78-145 | where no invoice holds it, what is fitted to a line is the lesser of what is asked for and what is left of the sale |
| Refunds.ConfirmKeepsTheClaim | app/services/customer_refund_service.py:645-712 | a confirm that is not refused keeps of every line exactly the lesser of requested and sold less already refunded, and drops it at zero |
| Refunds.InvoiceRefusesExactly | app/services/customer_refund_service.py:87-108 | a confirm is refused for an invoice if and only if some line's claim reaches into invoiced units |
| Refunds.NeverMoreThanSold | app/services/customer_refund_service.py:645-712 | over any run of competing refunds, completed refunds of an order line never exceed what was sold |
| Refunds.CompletedIsFinal | app/services/customer_refund_service.py:582-855 | no run changes a completed refund or its lines |
| RefundAcceptance.OpensExactlyWhen | app/services/customer_refund_service.py:377-418 | a refund is opened if and only if the order is completed and paid and some line was sold beyond what came back and what is on live invoices |
| RefundAcceptance.OpeningNamesTheInvoice | app/services/customer_refund_service.py:406-418 | it is refused for an invoice if and only if nothing is free and some line would have something left but for invoices |
| RefundAcceptance.OpenedIs | app/services/customer_refund_service.py:420-467 | it starts with one line at zero for each line of the order that has something free, at the counter's warehouse, else the line's own if it is the store's, else none |
| RefundAcceptance.EntersExactlyWhen | app/services/customer_refund_service.py:582-611 | a draft's line is entered if and only if the quantity is free and the warehouse the store's; what is not stated stays |
| RefundAcceptance.ConfirmsExactlyWhen | app/services/customer_refund_service.py:645-712 | a draft is confirmed if and only if no line's claim reaches into invoiced units, some line brings something back, and each of those of a stocked product has a warehouse |
| RefundAcceptance.ConfirmedIs | app/services/customer_refund_service.py:645-712 | its lines then hold the lesser of what they asked for and what was left of the sale, those at nothing gone; other refunds are as they were |
| RefundAcceptance.CancelsExactlyWhen | app/services/customer_refund_service.py:838-854 | a refund is cancelled if and only if it is a draft |
| RefundAcceptance.ReturnedWithinSold | app/services/customer_refund_service.py:148-164 | over any run the quantities on completed refunds of a line add up to no more than was sold |
| RefundDesk.ReconcileLines | app/services/customer_refund_service.py:120-145 | which lines are kept, at which quantity, and which are dropped, all accounted for |
| RefundDesk.Desk.AlreadyRefunded | app/services/customer_refund_service.py:148-164 | the sum over completed refunds, added up row by row |
| RefundDesk.Desk.OpenRefund | app/services/customer_refund_service.py:377-467 | the tables after a refund is opened, or the refusal |
| RefundDesk.Desk.EnterLine | app/services/customer_refund_service.py:582-611 | a quantity or warehouse entered on a draft's line, or the refusal |
| RefundDesk.Desk.ConfirmRefund | app/services/customer_refund_service.py:645-712 | the tables after a confirm, or the refusal with nothing changed |
| RefundDesk.Desk.CancelRefund | app/services/customer_refund_service.py:838-854 | a draft cancelled, or the refusal |
| Payments.PaidMeansSettled | app/services/customer_payment_service.py:108-143 | after any run, an order flagged right at the start is flagged paid if and only if it owes a cent or less |
| Payments.ZeroTimeStays | app/services/customer_payment_service.py:115-131 | a zero time once set never changes |
| Payments.PaidIsDated | app/services/customer_payment_service.py:115-131 | an order flagged paid has a zero time |
| Payments.UnappliedStaysWithin | app/services/customer_payment_service.py:165-184 | what is left of a payment stays between nothing and its amount |
| Payments.ReverseUndoesApply | app/services/customer_payment_service.py:435-531 | reversing an application restores what was unapplied and what was owed |
| Payments.CallMovesOwed | app/services/customer_payment_service.py:435-531 | what an order owes falls by what is applied and deducted and rises by what is reversed and restored, and nothing else changes it |
| Payments.CallMovesUnapplied | app/services/customer_payment_service.py:165-184 | what is left of a payment falls by what is applied and handed back, rises by both when that is reversed, and nothing else changes it |
| Payments.BalanceIsNear | app/services/customer_payment_service.py:556-558 | the balance is what is owed to the nearest cent, halves up, and nothing below zero |
| Payments.AppliedExactlyWhen | app/services/customer_payment_service.py:435-485 | an application is accepted if and only if the order is completed, not cancelled and unpaid, owes more than a cent and no less than is applied, and the payment is the same customer's, in the same currency, with enough left |
| Payments.DatedWhenPaid | app/services/customer_payment_service.py:115-131 | a zero time changes if and only if a call pays an order that had none, and is then that call's moment |
| Payments.ApplyOverpaysExactly | app/services/customer_payment_service.py:97-105 | an accepted application takes an order below zero if and only if it is for more than is owed before rounding, and then by half a cent at most |
| Payments.OverpaidExactlyWhenRoundedUp | app/services/customer_payment_service.py:435-485 | for an order open to payment and a payment with enough left, some accepted amount takes the order below zero if and only if it owes at least 0.015 and its fraction of a cent is half or more |
| Payments.HalfACentOver | app/services/customer_payment_service.py:97-105 | two pesos owed, 1.985 applied and then 0.02: both are accepted, and the order is half a cent below zero |
| Payments.Desk.BalanceOf | app/services/customer_payment_service.py:556-558 | what an order owes, added up row by row |
| Payments.Desk.UnappliedOf | app/services/customer_payment_service.py:165-184 | what is left of a payment, added up row by row |
| Payments.Desk.Settle | app/services/customer_payment_service.py:115-131 | the flag set when the balance is settled, with a zero time if it had none |
| Payments.Desk.Reopen | app/services/customer_payment_service.py:134-143 | the flag cleared only when a balance that was settled no longer is |
| Payments.Desk.ApplyPayment | app/services/customer_payment_service.py:435-485 | the tables after an application, or the first refusal |
| Payments.Desk.ReverseApplication | app/services/customer_payment_service.py:488-531 | the tables after a reversal, or the refusal |
| CfdiInvoice.UnratedHasNoTax | app/services/cfdi_invoice.py:111-131 | a taxed line at zero rate or exempt carries no tax: its total is its subtotal less its discount |
| CfdiInvoice.UntaxedIsTwoCentsAtMost | app/services/cfdi_invoice.py:111-131 | a line not subject to tax leaves between minus one cent and two cents unexplained |
| CfdiInvoice.TaxIsNearTheRate | app/services/cfdi_invoice.py:111-131 | a rated line's tax is within 0.005 (4 + 2t) of t times subtotal less discount |
| CfdiInvoice.SubtotalAndDiscountAreNear | app/services/cfdi_invoice.py:111-131 | a line's subtotal and discount are within half a cent of its worth and reduction without tax |
| CfdiInvoice.TotalIsNear | app/services/cfdi_invoice.py:111-131 | its total is near its worth less its reduction with tax, to the cents its rounding allows |
| CfdiInvoice.BaseIsWhatIsTaxed | app/services/cfdi_invoice.py:130-130 | a rated line's base times its rate is exactly its taxes and is within (2 + t) / t cents of subtotal less discount, which an unrated line's base is exactly |
| CfdiInvoice.AddTransfer | app/services/cfdi_invoice.py:255-257 | a concept's transfer added to its group, which starts at nothing where its key first appears |
| CfdiInvoice.Build | app/services/cfdi_invoice.py:163-280 | the header's sums and the transfers grouped by rate, in order of appearance, each rated group's base times its rate being its taxes |
| CfdiInvoice.GroupsFollowTheLines | app/services/cfdi_invoice.py:229-257 | there is one group for each factor and rate that some line subject to tax carries, in the order in which lines first carry them |
| CfdiInvoice.GroupsMakeTheirTaxes | app/services/cfdi_invoice.py:255-256 | each rated group's base times its rate is exactly its taxes; a group at no rate has no taxes and its lines' subtotals less discounts as its base |
| CfdiInvoice.TotalsAgreeButForUntaxed | app/services/cfdi_invoice.py:158-280 | Total is SubTotal less Descuento plus TotalImpuestosTrasladados plus exactly the taxes of lines not subject to tax |
| CfdiInvoice.InvoiceAddsUp | app/services/cfdi_invoice.py:158-280 | exact when every line is subject to tax, between one cent less and two more for each line that is not |
| CfdiInvoice.UntaxedBoundsAreReached | app/services/cfdi_invoice.py:111-131 | lines that leave minus one cent and two cents |
| CfdiPayment.Weigh | app/services/cfdi_payment.py:121-127 | the transfers' total weight |
| CfdiPayment.DocumentTaxes | app/services/cfdi_payment.py:121-140 | each transfer's share, base and tax rounded |
| CfdiPayment.SharesAreExact | app/services/cfdi_payment.py:121-140 | before rounding, shares grown by their rates add up to the amount paid |
| CfdiPayment.SharesAreProportional | app/services/cfdi_payment.py:121-140 | the shares are in proportion to the transfers' bases |
| CfdiPayment.EachIsWritten | app/services/cfdi_payment.py:121-140 | each is written to half a millionth, with the tax of what is written to half a millionth unless it is exempt |
| CfdiPayment.SplitConservesTheAmount | app/services/cfdi_payment.py:121-140 | bases plus taxes add up to the amount paid, within 0.0000005 (2 + rate) for each transfer |
| Rounding.HalvesGoAway | app/services/cfdi_invoice.py:94-108 | rounding goes to the nearest whole number, and halves away from zero |
| Words.BelowThousand | app/rendering/words.py:32-49 | the words of 1 to 999, a final "uno" shortened |
| Words.BelowMillion | app/rendering/words.py:52-59 | the words below a million, "MIL" alone for one thousand |
| Words.Integer | app/rendering/words.py:62-75 | the words of a whole number, "DE" after an exact million |
| Words.AmountInWords | app/rendering/words.py:78-84 | the printed text, which a reader with its own dictionary and grammar reads as the amount rounded to cents, in its currency, with the noun that fits it |
| Words.ReadsInteger | app/rendering/words.py:62-75 | reading the words of a whole number from left to right, with the reader's own meaning of each word, gives the number |
| Words.ReadBack | app/rendering/words.py:78-84 | cutting the printed text at its spaces and reading it recovers the cents, the currency and its noun |
| Words.NoTwoPrintAlike | app/rendering/words.py:78-84 | two amounts print alike if and only if they are the same cents of the same currency |
| Words.UnoIsShortened | app/rendering/words.py:32-49 | "UNO" and "VEINTIUNO" are never printed |
| SqlSplitter.Scan | app/db/migrate.py:74-117 | the one-pass scan with its jumps yields the pieces of the recursive quote and comment grammar, and ends |
| SqlSplitter.SplitStatements | app/db/migrate.py:68-118 | the statements are the pieces, stripped, without the blank ones |
| SqlSplitter.PiecesAreGood | app/db/migrate.py:68-118 | whatever the file, no piece has a separator or comment outside quotes, and all but the last close their quotes |
| SqlSplitter.QuotedIsWhole | app/db/migrate.py:74-98 | between quotes of any of the three kinds nothing separates or comments, and an escape hides the quote: the span is one statement |
| SqlSplitter.CommentReadsAsLineBreak | app/db/migrate.py:100-106 | outside quotes a comment to the end of its line reads as the line break, and one to the end of the file as nothing |
| SqlSplitter.StripTakesTheBlanks | app/db/migrate.py:118-118 | a statement is its piece without the white space around it, all of it and nothing else |
| SqlSplitter.SplitUndoesJoin | app/db/migrate.py:68-118 | splitting undoes joining with semicolons, for stripped, non-empty, quote-balanced statements without separators or comments outside quotes |
| SqlSplitter.SplitIsStable | app/db/migrate.py:68-118 | the statements of any file, joined again, split into themselves |

## Left out

- Commission lines: the columns that only describe (names of customers and products, order dates) are not carried; candidates, applied money and refunds of a month are arbitrary within what the queries guarantee: one candidate per order line, one entry per refund line, prices and quantities that never change, rates and amounts that are not negative.
- Commission labels, agents, rates and the period lists: plain table edits, seen here only as settings that may change between months.
- Delivery: the stop's order of visit, warnings, stock reservations, and the refresh of the sale's delivered flag do not touch the quantities proved here.
- Delivery: changing a trip's vehicle or operator, and lists and searches, would only add easy members.
- Delivery: which of several bad lines of one stop an error names, the order of ledger rows within one step, and the identities new rows get are not modelled; rows whose parent is missing, which foreign keys exclude, are refused as not found where the source skips them, and deleting a line that trip entries refer to is refused as the foreign key does.
- Delivery: a warehouse's facility and a product's stockable flag stay the same while goods are on the road.
- DeliveryDesk.Desk.Resolve: the class stores the tables that the loops of `DeliveryClosing.Close` compute, row updates within them being on values.
- DeliveryDesk.Desk.ConfirmOrder: whether notice is too short is an answer given with the call, from the clock, the order's date and who asks.
- Delivery: quantities are whole numbers of one smallest unit. Trip entries store six decimals and order lines four, so a claim finer than four decimals is rounded on the line and not on the entry, which the model does not show.
- Delivery: a sale stays completed, paid or cancelled as it is while its deliveries run.
- Delivery: runs are serial. Creating orders and adding or changing lines take no lock in the source, so two at once under snapshots can cover a sale twice; interleaving within these operations is not modelled.
- Locks: only explicit row locks are modelled; the locks taken implicitly by foreign keys and row updates can still deadlock, as the source says, and the purchase cost rows and other services' locks are not modelled.
- Numbering.Database.AssignFolio: waiting for the lock is a step that is not possible yet, so the method asks that the lock is free.
- Inventory: transfers' own steps, unit costs and averages, document headers and listings are not modelled; serials are in `Numbering`.
- Counts: folding of product codes into keys, the warnings about negative availability and overlapping counts, and edits of single lines are left out.
- Refunds: restocking, paying the customer back, numbering, and which cash session it belongs to are left out, and which warehouses are the store's own is an answer given with the call.
- Payments: verification and rejection of payments, cash sessions, folios, credit searches and the repair of stale flags are left out; a refund or credit note is an amount deducted from an order.
- Cash sessions and expense vouchers appear in `Locks` only; the figures of a session's cut are not modelled.
- CFDI: XML, sealing and certificates, the number of decimals a figure is printed with, and a decimal division's 28 digits: quotients are exact, and rates are whole millionths.
- Words.AmountInWords: negative amounts, which no document has, are not printed; from 10^12 on, where the source fails with an index error, there is no text.
- SqlSplitter: reading the files, checksums and the ledger of applied migrations are left out.
