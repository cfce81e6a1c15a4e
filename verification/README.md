# Verified model of the point of sale's core

A shop's tills sell through an online server. One till of a branch, the fallback counter, also keeps a
copy of what it needs: when the server is down it sells from the copy, and when the server is back it
sends everything it made offline, in one transaction that is refused if anything in it clashes. This
project models that protocol, the server's side of it, the arithmetic the bills rest on, the GST
returns built from them, the printed receipt and its barcode, and the payments for the subscription.
It proves what holds over every input and every run, and, where the code does less than it promises,
exactly when it does.

Amounts are whole numbers throughout: money in paise, quantities in thousandths, percentages in
hundredths. Rounding is half away from zero on exact fractions.

## How it is laid out

- **Pricing.** `Rounding`, `Sums`, `Ordering`, `Discounts` (cutting discounts to a base, splitting one
  over lines), `SaleTotals` (a whole sale), `SaleFigures` (what each figure of it must be), `Returns` (a line given
  back in steps), `BillReturns` (a whole bill, with payments in between).
- **The sync.** `OutboxRows` and `ServerTables` are the rows sent and the tables they go into;
  `BatchShortfalls` places sales of a batch that ran out; `VerifyOutbox` is the server's own check of the
  money, with `BillsChecked` and `ReturnsChecked` (exactly what it finds), `VerifySoundness` (what it guarantees),
  `HonestBills` and `HonestReturns` (what it never refuses);
  `SyncChecks` finds clashes; `Sync` is the transaction, and `AcceptedWhen` says exactly when it is taken.
  `TablesAfterSync`, `ReferencesAfterSync`, `RestAfterSync`, `AcceptedOutbox`, `ReturnsAfterSync` and
  `BatchesAfterSync` prove what the server's tables say once an outbox is taken, and `OneBill` and `TwoCustomers`
  hold outboxes it takes that show the limits. `SettledCustomers` shows what doesn't turn on whose a bill is.
  `GrownCustomers`, `Cuts`, `GrownStock`, `GrownPlacing`, `GrownLedger`, `GrownRegisters`, `GrownReturns`, `GrownSync`,
  `GrownAccepted` and `ResentOutbox` prove what sending again does.
  `RegisterCash` and `RegistersAgree` compare the copy's drawer with the server's.
- **The protocol.** `DocumentNumbers` is how numbers travel as text, and `NumbersRefineProtocol` ties the text to the
  counts of `FallbackProtocol`, the state machine;
  `ProtocolSafety`, `ProtocolGaps`, `ProtocolCauses`, `ProtocolKeeping` and `ProtocolNumbers` are its invariants, `ProtocolRuns` the runs that
  show, for each thing asked, what goes wrong without it and with all the others; `SyncRefinesProtocol` ties the server's sync to the protocol's step and
  `FallbackDesk` the app's handlers to the others.
- **GST returns.** `Gstr1`, `GstBooks`, `Gstr1Rows`, `SummaryRows`, `HsnRows`, `Gstr3b`.
- **Subscription payments.** `Calendar`, `Billing`, `BillingRuns`, `BillingPaid`.
- **Printing.** `WrapText`, `ReceiptLayout`, `ReceiptFigures`, `ReceiptSays`, `Code128`.

Code that changes state step by step is a class or a method with loops, proved equal to a function of
what it started from; the properties are lemmas about those functions.

## What the proofs found

- **Goods of a bill in the outbox, returned online meanwhile.** A bill sent with its answer lost can be returned
  online and again on the copy: the check starts a bill it is sent from nothing returned, so the server takes the
  outbox and has more back than was sold, goods and round-off alike (`OneBill.GivenBackTwice`). The check counts all
  there is if and only if no return on the server, other than those sent, is of a line of a bill sent
  (`ReturnsAfterSync.ReturnsAfter`, `AllSeen`); then no line ever has more back than was sold (`EveryLineWithinSold`).
- **A return that brings in less than nothing.** A return's movements are checked item by item, so six units into
  one batch and five less than none into another pass as one unit, and the second batch ends below nothing
  (`OneBill.BatchBelowNothing`). With no such movement every batch stays at nothing or above, and what is flagged is
  the deepest deficit (`BatchesAfterSync.BatchesStayUp`); a batch is never below nothing if and only if each such
  movement takes out no more than its start, the movements before it and the deepest those went below leave
  (`BatchNeverBelow`).
- **Starting offline while a refresh is under way.** The older snapshot is loaded after the offline sales
  were sent; the next offline sale repeats a number and its sync is refused
  (`ProtocolRuns.StartDuringRefreshClashes`).
- **Finishing twice, or starting offline while setting up or removing waits.** Offline sales end up
  neither on the server nor in a copy to be sent, and their numbers are given again
  (`ProtocolRuns.FinishTwiceLoses`, `StartDuringSetUpLoses`, `StartDuringRemoveLoses`). Something is lost exactly when
  a copy is given up that holds what the server lacks (`ProtocolKeeping.KeptExactlyWhen`).
- **Setting up during a refresh, or refreshing while setting up.** A snapshot from before other computers sold on the
  counter becomes the new copy (`ProtocolRuns.SetUpDuringRefreshIsStale`, `RefreshDuringSetUpIsStale`).
- **A sync followed by a customer with the same phone number.** Sending a grown outbox after its first part
  comes to what sending it alone comes to if and only if no customer added since has the phone number of one added
  first (`GrownAccepted.SendingGrown`); `TwoCustomers.SecondTakenForFirst` is such an outbox, taken both ways. A copy
  whose rows nobody edited never sends it, as adding a customer there refuses a phone number that another one has
  (`assertPhoneFree`, apps/api/src/customers/customers.service.ts:89-110).
- **A bill paid off between two sendings.** The payment is added and the bill's row is not updated: it is as sent
  if and only if the server didn't have it or had it so (`ResentOutbox.BillUpToDate`); one shows a rupee owed though
  its payments come to all of it (`OneBill.PaidOffButOwed`).
- **A register closed online while the copy still has it open.** Its expected cash stays without the
  offline rows (`RegistersAgree.ClosedMeanwhileLacksOfflineCash`); `OneBill.RegisterShort` is a sync that is taken and
  leaves one short by its bill's payment.
- **Several order discounts.** Each is split over the lines on its own, so a line can be given more discount
  than its base while another keeps a paisa taxable (`SaleTotals.TwoHalvesLeaveAPaisa`); the excess is bounded
  and its absence characterised (`SaleTotals.DiscountsAndTaxableMakeTheSale`).
- **Returning very small amounts in small steps.** The refund's total can run ahead of its share
  (`Returns.RunsAhead`), though never any part of it past the line's (`Returns.ReturnedInSteps`). A pack of nine at 0.03
  and 18% GST does (`BillReturns.PackRunsAhead`).
- **A payment event delivered before its checkout is known.** It is not recorded, so it may count when it is
  delivered again (`BillingRuns.EarlyIsForgotten`); once delivered for a checkout begun it never does.
- **Large totals in the compact receipt.** On paper of 32 columns an item total of 1,00,000.00 is printed as
  "100000.0" (`ReceiptFigures.LakhIsCut`), and one digit less it runs into the price: a total stands whole if and
  only if it is narrower than its column (`ReceiptFigures.ItemTotalPrinted`).

## Model

| member | source | states |
|---|---|---|
| Rounding.RoundDiv | packages/contracts/src/pricing.ts:21-25 | The rounded value of a fraction is within half of it; a half goes away from zero |
| Rounding.RoundsTo | packages/contracts/src/pricing.ts:21-25 | It is the only whole number that near |
| Rounding.RoundDivMonotone | packages/contracts/src/pricing.ts:21-25 | A larger amount never rounds to less |
| Discounts.ResolveDiscountAmounts | packages/contracts/src/pricing.ts:150-202 | The two correction loops, whose rounds end, give the amounts the theorems below are about |
| Discounts.TakeExcess | packages/contracts/src/pricing.ts:177-184 | One round over amounts above zero gives back every excess paisa, and no amount goes below nothing |
| Discounts.GiveRemaining | packages/contracts/src/pricing.ts:193-199 | One round hands every missing paisa out, to the largest remainders |
| Discounts.CorrectedToBase | packages/contracts/src/pricing.ts:165-202 | Discounts that together exceed their base are cut to exactly the base, each between nothing and what was asked and within 1.5 paise of its proportional share |
| Discounts.DiscountsWithinBase | packages/contracts/src/pricing.ts:150-202 | Any list of discounts takes off at most the base, each between 0 and what it asks for |
| Discounts.ExcessFits | packages/contracts/src/pricing.ts:172-186 | When rounding gained paise there are amounts enough above zero to give them back in one round |
| Discounts.ShortfallFits | packages/contracts/src/pricing.ts:188-199 | When rounding lost paise there are as many remainders above zero to take them |
| Discounts.AllocateDiscountAcrossBases | packages/contracts/src/pricing.ts:209-239 | The leftover loop ends with nothing left and gives the parts the next two rows are about |
| Discounts.AllocationExact | packages/contracts/src/pricing.ts:204-239 | The parts of a discount add up to the capped discount exactly, each fair as in the next row |
| Discounts.AllocationFair | packages/contracts/src/pricing.ts:204-239 | A line's part is its exact proportional share rounded down or up by less than a paisa, never above its base |
| Discounts.OddPaiseToLargest | packages/contracts/src/pricing.ts:222-236 | A line rounded up has a larger remainder than one rounded down, or comes first of equal ones |
| Discounts.CorrectedLargest | packages/contracts/src/pricing.ts:172-199 | Cut to their base, paise gained come off the largest amounts and paise lost go to the largest remainders, the first of equal ones |
| SaleTotals.ExclusiveBase | packages/contracts/src/pricing.ts:52-54 | What a line comes to before tax is never more than its gross |
| SaleTotals.ShelfPriceKept | packages/contracts/src/pricing.ts:56-77 | An undiscounted tax-inclusive line costs exactly its shelf price, at every rate from 0 to 100% |
| SaleTotals.SplitGst | packages/contracts/src/pricing.ts:120-130 | Tax by kind adds up to the tax; inter-state it is all IGST, else SGST is CGST or a paisa more |
| SaleTotals.RoundOffFor | packages/contracts/src/pricing.ts:323-331 | Rounding leaves a whole rupee or half rupee, moves a total by at most half a step, and never below nothing |
| SaleTotals.ItemDiscountWithinBase | packages/contracts/src/pricing.ts:276-283 | A line's item discounts are between nothing and its base |
| SaleTotals.GrandTotalAddsUp | packages/contracts/src/pricing.ts:258-337 | The grand total is the lines' taxable values, CGST, SGST, IGST and the round-off; an inter-state bill has IGST only, any other none |
| SaleTotals.DiscountsAndTaxableMakeTheSale | packages/contracts/src/pricing.ts:258-321 | Discounts plus taxable are the subtotal, exactly with at most one order discount and at most P-1 paise a line more with P; equal if and only if no line was given more discount than its base |
| SaleTotals.OrderDiscountBound | packages/contracts/src/pricing.ts:287-293 | P order discounts take at most P-1 paise more than a line's base off it |
| SaleTotals.OvershootsWhen | packages/contracts/src/pricing.ts:292-295 | A line's discounts and taxable value exceed its base exactly when its discounts alone do |
| SaleTotals.TwoHalvesLeaveAPaisa | packages/contracts/src/pricing.ts:285-295 | Two order discounts of 50% on lines of 1.01 discount one by 1.02 and leave a paisa of the other taxable |
| SaleFigures.FiguresFit | packages/contracts/src/pricing.ts:258-337 | On every line of a sale gross, base, item discounts, taxable value, tax and its kinds are the whole numbers nearest to what its quantity, rate, tax and discounts make them (an exclusive line's tax of its taxable value, an inclusive line's of its gross in proportion); order discounts are given out whole, and totals are the lines' |
| SaleFigures.OnlyOneFits | packages/contracts/src/pricing.ts:28-84 | Given its order discount there is only one set of figures that fits a line so |
| Returns.ReturnedInSteps | packages/contracts/src/pricing.ts:86-118 | However a return is cut into steps: after k of S units each tax part is exactly round(part·k/S), no part exceeds the line's, and all S units give every part back |
| Returns.StaysOnTrack | packages/contracts/src/pricing.ts:94-118 | Any step keeps that, from wherever the return has got to |
| Returns.TotalStaysOnTrack | packages/contracts/src/pricing.ts:112-113 | A step keeps the refund's total at its share if and only if its taxable value needs no clamping |
| Returns.RefundTotalInSteps | packages/contracts/src/pricing.ts:86-118 | The refund's total after k of S units is round(total·k/S) in any steps, when each step's taxable share is at least 4 paise and what stays behind at least 2 |
| Returns.RunsAhead | packages/contracts/src/pricing.ts:94-118 | Of two steps the second breaks that when the taxable value left by rounding the parts drops, and refunds that much more than both steps' share |
| BillReturns.ShareSteps | packages/contracts/src/pricing.ts:132-141 | Shares of a round-off run from nothing to all of it in its own direction, and never make a refund negative |
| BillReturns.SplitReturn | packages/contracts/src/receiptDocuments.ts:205-212 | A return is split into due and refund without loss; money is handed back only once the due is gone |
| BillReturns.SettleKeeps | apps/api/src/returns/returns.service.ts:186-223 | Neither money guard ever refuses a return; what it takes off the due and hands back is its total, never negative, and the bill's money laws hold on |
| BillReturns.GiveBackKeeps | apps/api/src/returns/returns.service.ts:154-223 | A return is refused if and only if it is for more than was sold, and otherwise keeps every law of the bill |
| BillReturns.RunKeeps | apps/api/src/returns/returns.service.ts:154-223 | So does any run of returns and payments |
| BillReturns.StepDoes | apps/api/src/returns/returns.service.ts:154-223 | A return of no more than was sold brings back just those units and takes its total off what is owed before anything is handed back; any other does nothing; a payment counts up to what is owed and moves nothing else |
| BillReturns.WholeBillBack | apps/api/src/returns/returns.service.ts:154-223 | Once every unit is back, what came off the due plus what was handed back is exactly the grand total, in any steps with payments in between; before that never more |
| BillReturns.SaleMakesValidBill | packages/contracts/src/pricing.ts:258-337 | Every priced sale makes a bill the theorem above speaks of, with that grand total |
| BillReturns.PackRunsAhead | packages/contracts/src/pricing.ts:94-118 | A pack of nine, priced at 0.03 and 18% GST, given back four and then one at a time: three paise are refunded where the share is two |
| BillReturns.SaleBill.TakePayment | packages/contracts/src/receiptDocuments.ts:199-203 | Of a payment only what is due counts |
| BillReturns.SaleBill.RefundLines | apps/api/src/returns/returns.service.ts:154-188 | The loop over the lines stops exactly at a line of which more would come back than was sold |
| BillReturns.SaleBill.CreateReturn | apps/api/src/returns/returns.service.ts:154-223 | A refused return changes nothing; a taken one leaves the bill as the theorems have it |
| BatchShortfalls.PlaceBatchShortfalls | apps/api/src/fallback/batch-shortfalls.ts:30-84 | The loop's balances, cuts and shortfalls are those the theorems below are about |
| BatchShortfalls.PlacingKeepsItemStock | apps/api/src/fallback/batch-shortfalls.ts:64-83 | Placing keeps what the movements do to every item's stock at every branch |
| BatchShortfalls.ShortfallIsDeepestDeficit | apps/api/src/fallback/batch-shortfalls.ts:50-75 | A batch that starts at nothing or more, and that no movement but sales takes out of, ends there, and its shortfall is the deepest its movements, in time order, would have taken it below |
| BatchShortfalls.NoSmallerShortfall | apps/api/src/fallback/batch-shortfalls.ts:65-68 | No other way of keeping the batch from going below nothing leaves less of its sales out of it |
| BatchShortfalls.NeverBelowWhen | apps/api/src/fallback/batch-shortfalls.ts:59-68 | A batch is never below nothing if and only if each movement other than a sale that takes out takes no more than the stock at the start, the movements before it, sales in full, and the deepest those went below leave; and then its shortfall is the deepest deficit |
| BatchShortfalls.ReplacedAreSplits | apps/api/src/fallback/batch-shortfalls.ts:65-71 | Every replacement is a cut of one of the sales placed |
| VerifyOutbox.VerifyOutbox | apps/api/src/fallback/verify-outbox.ts:135-295 | The loops, with their maps of lines, returns and rounding, find exactly the conflicts the theorems below are about |
| VerifyOutbox.VerifyReturns | apps/api/src/fallback/verify-outbox.ts:230-293 | The returns' loop carries what each line and bill has given back so far |
| VerifyOutbox.VerifyRows | apps/api/src/fallback/verify-outbox.ts:241-268 | Its inner loop over a return's rows does too |
| VerifyOutbox.Recompute | apps/api/src/fallback/verify-outbox.ts:64-88 | A bill worked out again has one amount for each line stored |
| BillsChecked.ProblemsFound | apps/api/src/fallback/verify-outbox.ts:90-228 | Each problem is found of a bill exactly when there is that wrong with it, its stored figures against those of pricing its lines anew to five paise and against each other to one, its list prices, cashier's limit, GST, payments, status and stock; nothing is found if and only if all is right |
| ReturnsChecked.ReturnsFound | apps/api/src/fallback/verify-outbox.ts:230-293 | Nothing is found of the returns if and only if each is right after those before it: its rows, what was sold and taken, round-off, money and stock |
| ReturnsChecked.NothingFoundWhen | apps/api/src/fallback/verify-outbox.ts:135-295 | The whole check finds nothing if and only if every bill and every return is right |
| ReturnsChecked.ReportedOfBill | apps/api/src/fallback/verify-outbox.ts:135-228 | A bill's problem is reported under its own id, and exactly when it is found of such a bill within its seller's limit |
| ReturnsChecked.ProblemsOfReturn | apps/api/src/fallback/verify-outbox.ts:237-292 | Of the first return that anything is found of, each problem but goods returned past what was sold is named exactly when there is that wrong with it |
| HonestBills.BillReadBack | apps/api/src/sales/sale-lines.ts:239-298 | Priced anew from the rows a sale writes, a bill comes to the very sale they were written from, but for the rounding of its total |
| HonestBills.HonestBillPasses | apps/api/src/fallback/verify-outbox.ts:64-228 | Nothing is found wrong with the lines, prices, tax or amounts of a bill the till wrote: it passes if and only if its seller, discounts, payments, status and stock are right |
| VerifySoundness.BillsAreSound | apps/api/src/fallback/verify-outbox.ts:135-228 | Nothing found: on every bill stock out per item is what was sold, payments are what was paid and no more than the total, and totals are the lines' |
| VerifySoundness.ReturnsAreWithinSold | apps/api/src/fallback/verify-outbox.ts:230-272 | Nothing found: of every sale line given back, what the check was told had come back and all the returns sent are no more units than sold, and no part of the money by more than a paisa |
| VerifySoundness.RoundOffIsWithinBill | apps/api/src/fallback/verify-outbox.ts:273-279 | Nothing found: the returns take a bill's round-off back in its own direction and, with what the check was told, never more than there was |
| VerifySoundness.SplitSameProblems | apps/api/src/fallback/verify-outbox.ts:220-227 | Cutting a bill's movements for batch shortfalls neither adds nor hides a problem |
| VerifySoundness.SplitSameBackVerdict | apps/api/src/fallback/verify-outbox.ts:283-292 | Nor does it change what is found of a return's stock |
| HonestReturns.HonestReturnsPass | apps/api/src/fallback/verify-outbox.ts:230-293 | Returns made one after another with the shared return arithmetic pass the check whatever order their rows are listed in |
| HonestReturns.ReturnsKeepTrack | packages/contracts/src/pricing.ts:86-141 | Made that way, every sale line stays at its share through any number of returns |
| HonestReturns.TakenInAnyOrder | apps/api/src/fallback/verify-outbox.ts:242-268 | The same returns in another order take the same of every line |
| RegisterCash.CopyAgrees | apps/api/src/registers/registers.service.ts:50-100 | After the offline rows are in, the server's sums for a register are the copy's and those of the rows recorded online since; expected cash differs by exactly their net |
| RegisterCash.PaymentPutsIn | apps/api/src/registers/registers.service.ts:50-100 | A payment adds to the drawer what was paid in cash on the register, and to card and UPI sales what was paid so |
| RegisterCash.RefundTakesOut | apps/api/src/registers/registers.service.ts:50-100 | A return takes out of it what was handed back in cash there |
| RegisterCash.DrawerMoves | apps/api/src/registers/registers.service.ts:50-100 | Top-ups in cash and cash put in add to it; suppliers paid, cash taken out and expenses take out of it |
| RegisterCash.NothingMoved | apps/api/src/registers/registers.service.ts:50-100 | With nothing recorded the drawer is expected to hold what it opened with |
| RegisterCash.CopySumsAre | apps/api/src/fallback/register-baseline.ts:2-20 | The copy's sums are the server's when it was made plus the offline rows' |
| RegistersAgree.SyncAgreesWithCopy | apps/api/src/fallback/fallback.service.ts:412-421 | A register closed offline expects, after the sync, what the copy expected plus the net cash recorded online after the copy was made |
| RegistersAgree.ClosedIsReconciled | apps/api/src/fallback/fallback.service.ts:412-421 | A register sent as closed is reconciled with every row on it |
| RegistersAgree.ClosedMeanwhileLacksOfflineCash | apps/api/src/fallback/fallback.service.ts:328-335 | One closed online while the copy had it open keeps its expected cash, short of the offline rows' net by exactly that |
| Sync.FallbackServer.Sync | apps/api/src/fallback/fallback.service.ts:217-435 | A sync is taken exactly when every check passes; then the whole database is as specified, otherwise unchanged, and a clash is answered with every clash there is |
| Sync.PlaceOfflineCustomers | apps/api/src/fallback/fallback.service.ts:437-470 | The loop settles customers as the lemmas of GrownCustomers have it |
| Sync.TakeRegisters | apps/api/src/fallback/fallback.service.ts:309-336 | The loop over unknown registers closes the open one each replaces, at the moment the replacement opened |
| Sync.ReconcileRegisters | apps/api/src/fallback/fallback.service.ts:412-421 | Expected cash of each closed register is worked out from the rows, in any order of the registers |
| Sync.RecordMovements | apps/api/src/fallback/fallback.service.ts:367-388 | Movements are recorded, and move stock, once |
| Sync.RaiseSequences | apps/api/src/fallback/fallback.service.ts:404-409 | The loop raises each series to the highest of what was there and what was sent |
| Sync.AddOfflineCustomers | apps/api/src/fallback/fallback.service.ts:337-356 | Customers added get the branch's next codes in turn, and empty wallets |
| AcceptedWhen.AcceptedExactlyWhen | apps/api/src/fallback/fallback.service.ts:217-308 | A sync is taken if and only if it is of the server's version, every row is the counter's own, nothing it points at is gone, no number or batch is another's, its bills and returns are right, and on the tables its bills keep within what was sold and paid |
| AcceptedWhen.ContextIs | apps/api/src/fallback/sync-checks.ts:13-89 | The money check is told of exactly the server's bills that are returned and not sent, their lines and round-off as they are |
| TablesAfterSync.DocumentsAdded | apps/api/src/fallback/fallback.service.ts:357-366 | After a sync each of the eight tables of documents has every row sent, as sent if its id was unknown and as it was if not, every row it had, and nothing else |
| TablesAfterSync.ReturnClashesWhen | apps/api/src/fallback/sync-checks.ts:187-225 | Nothing clashes of the returns if and only if, with them on the tables, the bills they are of have no more of any line back than was sold, no more handed back than was paid nor than the bill's total, and nothing taken off what is owed |
| TablesAfterSync.BillsAfterReturns | apps/api/src/fallback/sync-checks.ts:187-225 | So it is of every such bill after a sync that is taken |
| ReferencesAfterSync.OwnedWhen | apps/api/src/fallback/fallback.service.ts:226-267 | An outbox is turned away as another's if and only if some row of it isn't the counter's own |
| ReferencesAfterSync.BatchClashesWhen | apps/api/src/fallback/sync-checks.ts:107-126 | Nothing clashes of batches if and only if every new movement is of its own item's batch, and no sale after its last day |
| ReferencesAfterSync.TakenStaysWhole | apps/api/src/fallback/fallback.service.ts:279-425 | After a sync that is taken every row points at rows that are there, if every one did before; but for the allocations' |
| ReferencesAfterSync.OnlyOwnIsAdded | apps/api/src/fallback/fallback.service.ts:217-425 | Whatever a sync that is taken adds is of the counter's own branch, series and registers, and of a document sent; a bill it returns is of the counter's series |
| RestAfterSync.NumbersAfter | apps/api/src/fallback/fallback.service.ts:404-411 | Each series, and the counter's receipts, end at the highest of what was there and was sent; no other counter's receipts move |
| RestAfterSync.CustomersAfter | apps/api/src/fallback/fallback.service.ts:337-356 | Customers added get the branch's next codes in turn, empty wallets and the counter's branch; everyone else stays |
| RestAfterSync.CodesStayApart | apps/api/src/fallback/fallback.service.ts:337-356 | No two customers of a branch get one code |
| RestAfterSync.CustomersSettledWhen | apps/api/src/fallback/fallback.service.ts:437-470 | A customer sent is added if and only if unknown with no one of their phone number there, and else taken for one who has it |
| RestAfterSync.RegistersAfter | apps/api/src/fallback/fallback.service.ts:309-336 | Every register after a sync: sent ones as sent or with their closing, one replaced closed when the next opened, those closed with expected cash worked out and the count less it as the difference, every other as it was |
| AcceptedOutbox.NothingClashes | apps/api/src/fallback/sync-checks.ts:97-235 | An outbox taken had no clash of any kind, nor anything the money check found |
| AcceptedOutbox.AcceptedSales | apps/api/src/fallback/verify-outbox.ts:220-227 | Its sales bring nothing in, cut or not |
| AcceptedOutbox.AcceptedPlaceable | apps/api/src/fallback/sync-checks.ts:107-126 | Its movements are each of their own item's batch, so all could be placed |
| AcceptedOutbox.WrongBatchClashes | apps/api/src/fallback/sync-checks.ts:110-116 | A movement of another item's batch is always among the clashes |
| AcceptedOutbox.MissingCustomerClashes | apps/api/src/fallback/sync-checks.ts:175-178 | So is a bill whose customer is neither on the server nor added |
| AcceptedOutbox.TakenWhateverRegisters | apps/api/src/fallback/fallback.service.ts:217-308 | Whether an outbox is taken has nothing to do with the registers the server has |
| AcceptedOutbox.AcceptedCustomers | apps/api/src/fallback/fallback.service.ts:437-470 | Every bill of an outbox taken ends on a customer the server has |
| ReturnsAfterSync.ReturnsAfter | apps/api/src/fallback/sync-checks.ts:28-77 | Of a line given back by an outbox taken, the server's tables then have what the check counted, within what was sold, and what the check doesn't see: it saw all if and only if that is nothing |
| ReturnsAfterSync.AllSeen | apps/api/src/fallback/sync-checks.ts:28-31 | Nothing is unseen of any line if and only if no return on the server, other than those sent, is of a line of a bill sent |
| ReturnsAfterSync.EveryLineWithinSold | apps/api/src/fallback/verify-outbox.ts:230-272 | Then, on the server's tables after a sync, no sale line has more back than was sold, nor any part of its money by more than a paisa, if none had before |
| ReturnsAfterSync.RoundOffsAfter | apps/api/src/fallback/sync-checks.ts:78-87 | Each return sent reverses a bill's round-off in its own direction, and on the server's tables no more of it than there is but for what the check doesn't see |
| ReturnsAfterSync.EveryRoundOffWithin | apps/api/src/fallback/verify-outbox.ts:232-279 | With no other return on the server of a bill sent, no bill's round-off is reversed beyond what there is after a sync, if none was before |
| BatchesAfterSync.AcceptedKinds | apps/api/src/fallback/verify-outbox.ts:221-292 | Of an outbox taken, sales bring nothing in and returns take nothing out, though what a return brings in may be negative |
| BatchesAfterSync.BatchesStayUp | apps/api/src/fallback/batch-shortfalls.ts:50-75 | After a sync a batch has what its movements leave of it plus the deepest they went below, never less than nothing, and that deficit is flagged, when no return sent takes out of it |
| BatchesAfterSync.BatchNeverBelow | apps/api/src/fallback/batch-shortfalls.ts:59-68 | Placing an outbox taken never has a batch below nothing if and only if that holds of each return with a negative quantity, read off the server's stock and the movements sent alone; and then the tables have the deficit of the row above |
| OneBill.IsTaken | apps/api/src/fallback/fallback.service.ts:217-425 | The server takes an outbox with one bill paid in cash and at most one return of it, whatever it has of the bill |
| OneBill.GivenBackTwice | apps/api/src/fallback/sync-checks.ts:28-31 | A bill sent before, returned online and again offline: taken, with two units back of one sold and twice the round-off |
| OneBill.BatchBelowNothing | apps/api/src/fallback/verify-outbox.ts:283-292 | A return of one unit as six into one batch and five less than none into another: taken, and an empty batch ends five below |
| OneBill.PaidOffButOwed | apps/api/src/fallback/fallback.service.ts:271-277 | A bill owed when first sent and paid off since: taken, its payment there, and its row still owing |
| OneBill.RegisterShort | apps/api/src/fallback/fallback.service.ts:328-335 | A bill paid in cash on a register closed online meanwhile: taken, and the register goes on expecting a rupee too little |
| TwoCustomers.CustomersTaken | apps/api/src/fallback/fallback.service.ts:217-308 | An outbox with customers of the counter's own and nothing else is always taken |
| TwoCustomers.SecondTakenForFirst | apps/api/src/fallback/fallback.service.ts:454-462 | Two customers with one phone number: taken alone and after the first was sent, adding both or only the first |
| SettledCustomers.FoundWhen | apps/api/src/fallback/fallback.service.ts:437-470 | A bill's customer, settled, is there or to be added if and only if the server has the customer on the bill or it is among those sent |
| SettledCustomers.SameConflicts | apps/api/src/fallback/verify-outbox.ts:135-295 | The money check finds the same whoever the bills are settled on |
| SettledCustomers.BareInTwo | apps/api/src/fallback/fallback.service.ts:357-366 | Sent in two or at once, whoever the bills are settled on each time, the bills on the server differ in nothing but customers |
| GrownCustomers.CreatedAre | apps/api/src/fallback/fallback.service.ts:449-463 | The customers added are exactly those with an unknown id whose phone number no one has |
| GrownCustomers.FirstAgain | apps/api/src/fallback/fallback.service.ts:449-463 | Sent again, customers are merged as before and none is added |
| GrownCustomers.CustomersAddedInTwo | apps/api/src/fallback/fallback.service.ts:437-470 | Adding some customers and then the rest gives the same customers, codes and wallets as all at once if and only if none of the rest has the phone number of one added first |
| GrownCustomers.SamePhoneDiffers | apps/api/src/fallback/fallback.service.ts:454-462 | One that does is added when all are sent at once, and not when the first was sent before |
| GrownStock.StockFollowsLedger | apps/api/src/fallback/fallback.service.ts:367-388 | What an item's and a batch's stock has beyond what the ledger comes to never changes |
| GrownStock.SameLedgerSameStock | apps/api/src/fallback/fallback.service.ts:367-388 | Recorded in one go or in two, stock depends only on the ledger in the end |
| Cuts.PiecesDistinct | apps/api/src/fallback/batch-shortfalls.ts:70-71 | Pieces of cut movements all have ids of their own |
| Cuts.PlacedMoves | apps/api/src/fallback/batch-shortfalls.ts:50-75 | A batch's balance moves by exactly what its pieces move |
| Cuts.SortedOnce | apps/api/src/fallback/batch-shortfalls.ts:38-40 | Movements have one time order only, however they were listed |
| GrownPlacing.PlacedInTurn | apps/api/src/fallback/batch-shortfalls.ts:35-40 | An outbox grown by later movements places the first ones first |
| GrownPlacing.PlacedInTime | apps/api/src/fallback/batch-shortfalls.ts:30-40 | What is placed are the unrecorded movements of a batch, each as often as sent, earliest first and by id at one time |
| GrownPlacing.OnlyLaterPlaced | apps/api/src/fallback/batch-shortfalls.ts:35-39 | Once the first are recorded only the later ones are placed |
| GrownPlacing.PlacingGoesOn | apps/api/src/fallback/batch-shortfalls.ts:50-75 | Placing the later ones goes on from where placing the first left off, cuts and shortfalls alike |
| GrownLedger.StockLeft | apps/api/src/fallback/fallback.service.ts:367-388 | Once recorded, a batch's stock is what placing its movements left of it |
| GrownLedger.StockInTwo | apps/api/src/fallback/fallback.service.ts:294-295 | Ledger, item stock, batch stock and shortfalls are the same sent in two as sent at once |
| GrownRegisters.RegistersInTwo | apps/api/src/fallback/fallback.service.ts:309-336 | So are the registers with their expected cash, some closed and others opened since |
| GrownSync.SequencesInTwo | apps/api/src/fallback/fallback.service.ts:404-409 | So are the number series |
| GrownSync.DocumentsInTwo | apps/api/src/fallback/fallback.service.ts:357-366 | So are the documents |
| GrownReturns.ClashesSame | apps/api/src/fallback/sync-checks.ts:187-225 | The first returns clashing with nothing, all of them clash with nothing if and only if the later ones don't once the first are the server's |
| GrownSync.GrownOutbox | apps/api/src/fallback/fallback.service.ts:279-425 | What taking an outbox and then taking it grown makes of the whole server is what taking the grown one alone makes of it, if and only if no customer added since has the phone number of one added first |
| GrownAccepted.GrownAccepts | apps/api/src/fallback/fallback.service.ts:217-308 | The server takes the grown outbox after its first part exactly when it takes it alone, phone numbers apart or not |
| GrownAccepted.SendingGrown | apps/api/src/fallback/fallback.service.ts:211-435 | Sending an outbox that is taken and then sending it grown ends, when the grown one would be taken alone, as that does, if and only if phone numbers are apart; when it wouldn't be, it is refused after the first part too, and the first part stays |
| ResentOutbox.ResendChangesNothing | apps/api/src/fallback/fallback.service.ts:211-425 | An outbox that was taken is taken again, and the whole server stays as it is |
| ResentOutbox.SameContext | apps/api/src/fallback/sync-checks.ts:13-89 | The money check is given the same context before and after, the outbox's own rows left out |
| ResentOutbox.BillUpToDate | apps/api/src/fallback/fallback.service.ts:271-277 | A bill sent is on the server as sent if and only if the server didn't have it or had it so; a row it has stays as it was, and payments are added either way |
| ResentOutbox.NumbersStayUnique | apps/api/src/fallback/sync-checks.ts:130-186 | With no number reported as used, every invoice and return number is one document's after the sync, by the check alone |
| ResentOutbox.ReceiptsStayUnique | apps/api/src/fallback/sync-checks.ts:142-152 | So is every receipt number |
| DocumentNumbers.NumberReadBack | apps/api/src/fallback/outbox.ts:69-74 | A number of the counter's own, printed, is read back as its series, year and count if and only if its financial year is one of 2000 to 2099 |
| DocumentNumbers.NumbersApart | packages/contracts/src/gst.ts:294-304 | Two of a counter's documents print alike only if they are of one kind, year and count |
| DocumentNumbers.AllNumbersApart | packages/contracts/src/gst.ts:294-304 | Over all branch codes, counters, kinds, years of a century and counts, no two documents print alike |
| DocumentNumbers.NumberFits | packages/contracts/src/gst.ts:294-304 | Up to 99 counters and 99999 documents a year a number is at most sixteen characters, the last five its count |
| DocumentNumbers.Example | packages/contracts/src/gst.ts:294-304 | The first bill and the last return note of a branch, printed |
| DocumentNumbers.SeriesApart | packages/contracts/src/gst.ts:294-299 | No text starts with both of a counter's series |
| DocumentNumbers.NotesItsNumber | apps/desktop/src/fallback-counter.ts:53-62 | Noting a number raises its own series and year to it, and no other |
| DocumentNumbers.CaughtUp | apps/desktop/src/fallback.ts:271-284 | Printing what was noted and reading it back makes each of the copy's series the higher of its own count and the one noted, in any order and whatever else was noted |
| DocumentNumbers.TakeNumbers | apps/api/src/fallback/outbox.ts:63-81 | The loop ignores other series' numbers and lowers none |
| DocumentNumbers.PaddedValue | packages/contracts/src/gst.ts:301-304 | A count padded with zeros is read back, five digits or more |
| NumbersRefineProtocol.NotedIsNote | apps/desktop/src/fallback-counter.ts:53-62 | What is noted as text standing for the protocol's counts, it does so still once a number of the counter's own is noted in both |
| NumbersRefineProtocol.CaughtUpIsStart | apps/desktop/src/fallback.ts:271-284 | Printing what was noted and reading it into the copy's table leaves the counts with which the protocol starts selling offline, in every series and year from 2000 to 2099 |
| FallbackProtocol.RunOneMore | apps/desktop/src/ipc-fallback.ts:22-138 | A run goes on by one step exactly when the step's guard allows |
| ProtocolSafety.NoNumberTwice | apps/api/src/fallback/sync-checks.ts:130-140 | In every run, with lost answers, refused syncs, overlapping handlers and late messages, the server never holds two documents with one number, and selling offline is on exactly while a sync is pending |
| ProtocolSafety.TakenNumbered | apps/api/src/fallback/fallback.service.ts:404-409 | A sync with no clash gives no number twice and leaves none above its series' last |
| ProtocolSafety.NextKeeps | apps/desktop/src/ipc-fallback.ts:22-138 | Every step keeps the invariant behind both |
| ProtocolGaps.NumbersRunOn | apps/api/src/fallback/fallback.service.ts:404-409 | In every run, careful or not, the numbers of a series' documents on the server are exactly those from one to its last, each of one document |
| ProtocolGaps.CopyRunsOn | apps/desktop/src/fallback-counter.ts:64-70 | In every run each number up to the copy's last is of a document of the copy's or the server's |
| ProtocolCauses.OneComputer | apps/desktop/src/ipc-fallback.ts:30-37 | In every run the register is open on no computer but the one the counter is bound to |
| ProtocolCauses.GivenUpForGood | apps/desktop/src/ipc-fallback.ts:73-83 | A key the server no longer takes it never takes again: in any run from there no message under it is taken and no snapshot given to it |
| ProtocolCauses.NothingWithoutTheServer | apps/desktop/src/ipc-fallback.ts:22-138 | In every run a finish, setting up and removing end well, a copy is loaded or sold from, and a number is noted only after the server did its part |
| ProtocolKeeping.NothingLost | apps/desktop/src/ipc-fallback.ts:26-138 | With finish pressed once at a time, and selling offline not begun while setting up or removing waits, every document made offline is on the server or in a copy with its sync pending |
| ProtocolKeeping.LosesExactly | apps/desktop/src/ipc-fallback.ts:42-132 | A step loses something if and only if it gives up a copy that holds what the server lacks, whatever else is going on |
| ProtocolKeeping.KeptExactlyWhen | apps/desktop/src/ipc-fallback.ts:26-138 | A whole run keeps everything made offline if and only if no step of it does that |
| ProtocolNumbers.NumbersAgree | apps/desktop/src/fallback.ts:185-284 | In careful runs, with the copy ready and nothing pending or on its way, the higher of the copy's count and the one noted is the server's last in every series and year |
| ProtocolNumbers.SyncNeverClashes | apps/api/src/fallback/sync-checks.ts:130-140 | In careful runs no message under the key the server takes is refused for its numbers |
| ProtocolNumbers.NumbersRight | apps/desktop/src/fallback.ts:185-284 | In careful runs all of that holds, and no document made offline ever has the number of another on the server |
| ProtocolNumbers.StartsLevel | apps/desktop/src/ipc-fallback.ts:96-100 | Selling offline starts from the server's own last counts |
| ProtocolRuns.StartDuringRefreshClashes | apps/desktop/src/fallback.ts:203-216 | A run that meets all else asked, in which selling offline starts during a refresh, ends with a number used twice and a sync refused |
| ProtocolRuns.FinishTwiceLoses | apps/desktop/src/ipc-fallback.ts:112-132 | One in which finish is pressed twice ends with a sale that is nowhere to be sent from and the counts apart |
| ProtocolRuns.StartDuringSetUpLoses | apps/desktop/src/ipc-fallback.ts:30-58 | One in which selling offline starts while setting up waits loses the sale with the copy, and gives its number again |
| ProtocolRuns.StartDuringRemoveLoses | apps/desktop/src/ipc-fallback.ts:73-83 | So does one in which it starts while removing waits |
| ProtocolRuns.LostAnswerIsRefused | apps/desktop/src/fallback-counter.ts:53-62 | In one whose online sale's answer is lost, the first offline sale takes its number and the sync is refused |
| ProtocolRuns.LateAnswerIsRefused | apps/desktop/src/fallback-counter.ts:55-55 | So it is when the answer comes after selling offline began |
| ProtocolRuns.SetUpDuringRefreshIsStale | apps/desktop/src/fallback.ts:196-216 | A snapshot from before other computers sold on the counter is loaded after it is set up here again |
| ProtocolRuns.RefreshDuringSetUpIsStale | apps/desktop/src/fallback.ts:189-216 | So is one asked for while the counter is being set up |
| ProtocolRuns.CarefulMeets | apps/desktop/src/ipc-fallback.ts:26-138 | A step is careful if and only if it meets each of eight things: one of them, whichever it is, and the other seven |
| ProtocolRuns.EachIsNeeded | apps/desktop/src/ipc-fallback.ts:26-138 | Leave out any one of the eight things a careful run meets, and some run that meets the other seven has its numbers wrong |
| ProtocolRuns.EachKeeps | apps/desktop/src/ipc-fallback.ts:26-138 | Leave out any of the three that keep what is sold offline, and some run that meets all the others loses a sale |
| SyncRefinesProtocol.TakenIsAStep | apps/api/src/fallback/fallback.service.ts:279-425 | Every sync the server takes is a step of the protocol: no number clashes, and documents, numbers and last counts are the protocol's |
| FallbackDesk.FallbackCounter.NoteInvoiceIssued | apps/desktop/src/fallback-counter.ts:53-62 | A number noted makes its series' last the higher of the two and changes nothing else, and nothing at all while selling offline |
| FallbackDesk.FallbackCounter.AskRefresh | apps/desktop/src/fallback.ts:189-192 | A refresh begins only when nothing is offline, pending, sending or already refreshing |
| FallbackDesk.FallbackCounter.EndRefresh | apps/desktop/src/fallback.ts:203-216 | The snapshot replaces the copy unless selling offline began meanwhile; otherwise copy and settings stay |
| FallbackDesk.FallbackCounter.StartOffline | apps/desktop/src/ipc-fallback.ts:91-106 | Selling offline starts only on a ready copy, whose documents stay and whose every count becomes the higher of its own and the one noted, with a sync pending |
| FallbackDesk.FallbackCounter.SellOffline | apps/desktop/src/fallback-counter.ts:64-70 | A sale is made on the copy only while active and not sending, under the next number |
| FallbackDesk.FallbackCounter.BeginFinish | apps/desktop/src/ipc-fallback.ts:112-119 | Exactly while a sync is pending everything made offline is read to be sent, there being a copy then, and requests wait |
| FallbackDesk.FallbackCounter.EndFinish | apps/desktop/src/ipc-fallback.ts:118-132 | The copy keeps its documents and the numbers noted stay; the sync is pending still unless it was sent |
| FallbackDesk.FallbackCounter.BeginSetUp | apps/desktop/src/ipc-fallback.ts:26-37 | Setting up is refused exactly while a sync is pending |
| FallbackDesk.FallbackCounter.EndSetUp | apps/desktop/src/ipc-fallback.ts:42-59 | Under the key the server gave, nothing is left of copy, numbers noted or pending sync, nor may selling offline start |
| FallbackDesk.FallbackCounter.BeginRemove | apps/desktop/src/ipc-fallback.ts:69-75 | Removing is refused while a sync is pending or nothing is set up |
| FallbackDesk.FallbackCounter.EndRemove | apps/desktop/src/ipc-fallback.ts:76-84 | Nothing is left to sell from or to send, and requests go to the server |
| Gstr1.BuildGstr1 | apps/api/src/gst/gstr1.ts:154-339 | The loops over bills, credit notes and the HSN summary build the sections the theorems below are about |
| Gstr1.GroupByRate | apps/api/src/gst/gstr1.ts:108-127 | The loop over a document's lines makes the items by rate that the theorems are about |
| Gstr1Rows.DocumentsListed | apps/api/src/gst/gstr1.ts:108-304 | B2B and credit notes list exactly each buyer's own reported documents, B2CL and unregistered credit notes exactly the large inter-state ones, in order, under number, place and value, with one item for each rate of its taxable lines and that rate's value and taxes |
| SummaryRows.SummaryRowsAre | apps/api/src/gst/gstr1.ts:177-315 | Each B2CS row is the net of the taxable lines of its place and rate, each nil row its nil-rated, exempt and non-GST lines apart, and there are no other rows |
| GstBooks.TaxableIsBooks | apps/api/src/gst/gstr1.ts:200-304 | The sections partition the books' taxable lines: each is shown once, at what its section shows of it, returns taken off |
| GstBooks.UntaxedIsBooks | apps/api/src/gst/gstr1.ts:208-217 | Nil-rated, exempt and non-GST lines are all in the nil section, whoever bought them |
| GstBooks.InterStateIsBooks | apps/api/src/gst/gstr3b.ts:44-55 | Table 3.2 at a place is what unregistered buyers there bought from another state, returns taken off |
| GstBooks.HsnIsBooks | apps/api/src/gst/gstr1.ts:317-339 | Both HSN tables together are the lines with an HSN code and a unit, returns taken off |
| HsnRows.HsnRowIsBooks | apps/api/src/gst/gstr1.ts:317-339 | Each row of the HSN summary is its lines less those returned, in quantity, value and each tax |
| Gstr3b.BuildGstr3b | apps/api/src/gst/gstr3b.ts:28-75 | The loops over the sections add up Table 3.1(a), (c), (e) and, place by place, 3.2, in value and every tax |
| Gstr3b.TableIsDirectSum | apps/api/src/gst/gstr3b.ts:32-38 | Table 3.1(a) is the taxable lines of reported bills less those returned, but for CGST and SGST left out of large inter-state bills; in value and IGST nothing is |
| Gstr3b.TableAgreesInEveryTax | apps/api/src/gst/gstr3b.ts:32-38 | With IGST alone on inter-state lines it is their sum in CGST and SGST too |
| Gstr3b.HsnTablesAgree | apps/api/src/gst/gstr1.ts:317-339 | With no HSN code or unit missing, the HSN tables come to Tables 3.1(a), (c) and (e) |
| Gstr3b.InterStateInAll | apps/api/src/gst/gstr3b.ts:44-55 | Table 3.2 over all places is the net of all inter-state taxable sales to unregistered buyers |
| Calendar.DateOf | packages/contracts/src/billing.ts:77-86 | Every day is one date, and that date's day number is the day |
| Calendar.LaterBy | packages/contracts/src/billing.ts:76-86 | A month later is 28 to 31 days on, a year later 365 or 366, from any day |
| Calendar.PeriodLength | packages/contracts/src/billing.ts:76-86 | So much time a billing period adds to any instant |
| Calendar.OneDate | packages/contracts/src/billing.ts:76-86 | No two dates are one day |
| Calendar.PeriodLater | packages/contracts/src/billing.ts:76-86 | A period later is the same day a month or a year on, or the last day of that month, at the same time |
| Calendar.FiscalYearIs | apps/api/src/billing/invoice.ts:32-36 | An instant is in the financial year that opened last, on 1 April in India |
| Billing.BillingService.ApplyEvent | apps/api/src/billing/billing.service.ts:270-335 | One event changes checkouts, businesses, sequence and invoices as the runs below have it |
| Billing.SplitSubscriptionGst | apps/api/src/billing/invoice.ts:25-30 | The parts of an invoice's GST are the GST |
| BillingRuns.ReplayChangesNothing | apps/api/src/billing/billing.service.ts:266-293 | An event once delivered for a checkout begun changes nothing at any later delivery, whatever came in between |
| BillingRuns.DeliveryChanges | apps/api/src/billing/billing.service.ts:270-304 | A delivery changes anything if and only if its checkout is known and its event unrecorded |
| BillingRuns.EarlyIsForgotten | apps/api/src/billing/billing.service.ts:284-287 | Delivered before its checkout is known it changes nothing and isn't recorded |
| BillingRuns.SettledStays | apps/api/src/billing/billing.service.ts:294-295 | A checkout leaves pending at most once: settled or failed it is the same in every continuation of the run, with no more invoices for it |
| BillingRuns.InvoicesInOrder | apps/api/src/billing/billing.service.ts:270-335 | Over any events, duplicated, reordered, failed or of a wrong amount: paid checkouts and invoices match one to one, each for its checkout's plan, period and money, and each financial year's invoices are numbered 1 to n with no gap |
| BillingRuns.SamePlanNeverShortens | apps/api/src/billing/billing.service.ts:46-64 | A payment for the same plan adds at least the period to the paid time, the trial and now |
| BillingRuns.CarriedKeepsValue | apps/api/src/billing/billing.service.ts:56-60 | Time carried to another plan keeps its value to within half a millisecond at the new price |
| BillingRuns.OtherPlanStartsAtOnce | apps/api/src/billing/billing.service.ts:41-64 | Another plan starts when the trial ends or now: after the time carried, a month of 28 to 31 days or a year of 365 or 366 |
| BillingRuns.CountedIsPaid | packages/contracts/src/billing.ts:60-74 | A payment counted leaves the business active, on the plan it paid for, until the invoice's end |
| BillingPaid.FirstEventDecides | apps/api/src/billing/billing.service.ts:284-325 | The first unrecorded event of a pending checkout settles it if and only if it succeeded with exactly its total: then one invoice with the right number, year, tax and period, and the business paid until its end; else it fails and no subscriber, series or invoice moves |
| BillingPaid.OthersChangeNothing | apps/api/src/billing/billing.service.ts:284-295 | Any other event only becomes known, if its checkout is |
| BillingPaid.BegunAtPrice | apps/api/src/billing/billing.service.ts:166-175 | A checkout begins pending at its plan's price, ten months' for a year, with GST to the paisa |
| BillingPaid.StatusDecided | apps/api/src/billing/billing.service.ts:270-335 | Over any run a checkout is pending until an event decides it, settled if and only if the one that did succeeded with its total, and else failed |
| BillingPaid.InvoicesPaidFor | apps/api/src/billing/billing.service.ts:270-335 | Every invoice of a run has a delivered event that succeeded with exactly its checkout's total, the checkout then pending, and says what that payment bought |
| BillingPaid.StandsWhen | packages/contracts/src/billing.ts:60-74 | A business is paid, in trial, a week late or read-only by what it has paid and its trial, each in its turn |
| WrapText.WrapText | packages/contracts/src/receiptLayout.ts:94-120 | The loop over the words makes the lines the theorems below are about |
| WrapText.LinesFit | packages/contracts/src/receiptLayout.ts:94-120 | No line is longer than the width |
| WrapText.WrapKeepsText | packages/contracts/src/receiptLayout.ts:94-120 | The lines hold every character that isn't white space, in order |
| WrapText.LinesAreWords | packages/contracts/src/receiptLayout.ts:94-120 | With no word too long the lines are the text's words in order, whole, those on one line joined by single spaces |
| WrapText.FewestLines | packages/contracts/src/receiptLayout.ts:94-120 | With no word too long, no other break between words that fits takes fewer lines |
| ReceiptLayout.KeyValue | packages/contracts/src/receiptLayout.ts:122-128 | A label and its value fill the width exactly |
| ReceiptLayout.LeftRight | packages/contracts/src/receiptLayout.ts:130-138 | So does every line of text with an amount against the right edge |
| ReceiptLayout.TableColumns | packages/contracts/src/receiptLayout.ts:140-146 | The columns fill the width, with room for a name |
| ReceiptLayout.RenderReceipt | packages/contracts/src/receiptLayout.ts:154-314 | The blocks pushed one after another make the receipt of the rows below, every line of it exact |
| ReceiptLayout.RenderItems | packages/contracts/src/receiptLayout.ts:188-240 | The loop over the items makes each style's lines |
| ReceiptLayout.EveryLineExact | packages/contracts/src/receiptLayout.ts:154-314 | Every line is exactly the paper's width, or half when large, for every document, style, choice of sections and width of at least 20 |
| ReceiptLayout.LegalFieldPrinted | packages/contracts/src/receiptLayout.ts:173-186 | A field with a value that is neither cashier nor customer is printed whatever the template shows |
| ReceiptLayout.ValueWhole | packages/contracts/src/receiptLayout.ts:122-128 | A value is printed whole exactly when it fits beside its label, and else cut at the end |
| ReceiptLayout.GstinWhole | packages/contracts/src/receiptLayout.ts:176-184 | A GSTIN is printed whole on paper of 30 columns or more |
| ReceiptLayout.TaxTotalPrinted | packages/contracts/src/receiptLayout.ts:242-254 | The tax in the total is printed, kind by kind, whatever the template |
| ReceiptLayout.DuePrinted | packages/contracts/src/receiptLayout.ts:263-270 | An unpaid balance is printed whatever the template |
| ReceiptLayout.LegalFooterPrinted | packages/contracts/src/receiptLayout.ts:304-305 | Every line of the legal footer is printed whatever the template |
| ReceiptLayout.SummaryAddsUp | packages/contracts/src/receiptLayout.ts:272-292 | The GST summary has each rate that any item is taxed at once, in order, with the taxable value and tax of all the items of that rate |
| ReceiptFigures.MoneyReadBack | packages/contracts/src/receiptLayout.ts:83-83 | An amount printed is read back to the paisa, so no two print alike |
| ReceiptFigures.QtyReadBack | packages/contracts/src/receiptLayout.ts:148-148 | A quantity printed is read back to the thousandth, a rate to the hundredth |
| ReceiptSays.ReceiptSaysWhen | packages/contracts/src/receiptLayout.ts:154-314 | A line is on the receipt if and only if the document and the template give a reason for it: header, field, item, money, tax, rewards, footer or barcode, each at its place on the paper |
| ReceiptFigures.LeftRightEnds | packages/contracts/src/receiptLayout.ts:130-138 | Money against the right edge stands whole on the last line if and only if the width holds it, however the text before it wraps |
| ReceiptFigures.KeyValueEnds | packages/contracts/src/receiptLayout.ts:122-128 | Beside a label, money stands whole at the end of its line if and only if the room left holds it |
| ReceiptFigures.GrandTotalPrinted | packages/contracts/src/receiptLayout.ts:255-260 | The total has bold lines of its own on every receipt, and the last ends with it whole if and only if there is room |
| ReceiptFigures.ItemTotalPrinted | packages/contracts/src/receiptLayout.ts:193-239 | Every item has its lines on the receipt, and where its total is printed its own line ends with it whole, apart from other figures, if and only if there is room |
| ReceiptFigures.CompactRowEnds | packages/contracts/src/receiptLayout.ts:199-208 | In the compact table a total is all there if and only if it is no wider than its column, and apart from the price if and only if narrower |
| ReceiptFigures.LakhIsCut | packages/contracts/src/receiptLayout.ts:140-146 | On 32 columns 1,00,000.00 ends its row as 100000.0 |
| Code128.PatternFits | packages/contracts/src/code128.ts:5-17 | Every pattern but the stop is three bars and three spaces over 11 modules, in no other place of the table |
| Code128.RunsOfBars | packages/contracts/src/code128.ts:45-52 | Measuring the bars and spaces drawn gives their widths back |
| Code128.SymbolRead | packages/contracts/src/code128.ts:45-52 | A symbol is 11 modules wide and reads as itself |
| Code128.SymbolsRead | packages/contracts/src/code128.ts:45-52 | A row of symbols with a stop is read back in windows of 11 modules |
| Code128.ModuleCount | packages/contracts/src/code128.ts:25-52 | There are modules exactly for 1 to 40 printable ASCII characters: 11(n+3)+2 for n data symbols |
| Code128.SymbolsAre | packages/contracts/src/code128.ts:32-42 | Start, data, checksum and stop of every text that can be encoded: pairs of digits or characters from the space, their weighted sum modulo 103 |
| Code128.KnownSymbols | packages/contracts/src/code128.ts:32-42 | The symbols of ABC and of 1234 |
| Code128.ReadBack | packages/contracts/src/code128.ts:32-52 | Reading the modules of any text that can be encoded gives the text, in pairs of digits or single characters |
| Code128.NoMultiple | packages/contracts/src/code128.ts:40-40 | 103 divides no product of a number it doesn't divide and a position below it |
| Code128.SubstitutionShows | packages/contracts/src/code128.ts:40-40 | One data symbol read as another changes the checksum |
| Code128.SwapShows | packages/contracts/src/code128.ts:40-40 | So do two different data symbols changing places, neighbours or not |
| Code128.WrongSymbol | packages/contracts/src/code128.ts:32-52 | A barcode with any one symbol replaced, start, data, checksum or stop, is not read at all |
| Code128.WrongOrder | packages/contracts/src/code128.ts:32-52 | Nor is one with two different data symbols in each other's place |

## Left out

- Binary floating point, NaN and infinities: amounts are exact whole numbers, so the small tolerances of the code (0.005, 0.011, 0.051, 1e-9) are the whole-number comparisons they stand for.
- JavaScript strings as UTF-16 units: text is a sequence of characters, so a character outside the basic plane counts once.
- Text after a document number's last slash that is neither digits nor empty: JavaScript's number syntax (signs, exponents, hexadecimal) is taken as no number.
- Ids: whole numbers with one fixed order; composite keys written as joined text are datatypes.
- Ids drawn at random for the second piece of a cut movement: one function of the movement's id, the same in the two sendings compared, so that their results can be equal.
- A customer found by phone number when several have it: the one with the smallest id; the code takes whichever the database returns first.
- Who sold a short batch and the text of the flag for it: what each batch was short is modelled.
- Which checks the database makes besides unique ids and numbers: an allocation's discount and line, and column types, are taken to hold; other references are shown to (`ReferencesAfterSync.TakenStaysWhole`).
- Expiry: the day an instant falls on, in the shop's time zone, is a given function; time zones and dates as text are not part of this model.
- The order of rows in a grown outbox: later documents come at the end of the lists sent.
- Rows sent: the rows of one table in an outbox have ids of their own. A return is made with its lines, of lines of its own bill, and neither they nor a bill's lines and round-off change afterwards; the results on growing outboxes and on the tables after a sync take rows to be so.
- The handlers' waiting points: start, and the check, restore and save at the end of a refresh, are one step each; a number noted between reading and saving the settings there is overwritten by the code. Setting up, removing and finishing do wait for the server in the model.
- Registers in the protocol: it has which computer has one open on the counter; registers sent by a sync are modelled in the sync, not there.
- Offline payments against bills of the copy: they carry no number and are not part of this model.
- Moving to another counter of the same computer, item pictures, local processes, files and timers: only what they come to (done, refused, answer lost) is a step.
- The GSTIN check character, HSN and unit checks: a GSTIN is none, valid or not.
- GST returns: dates, sorting and numbering of rows, the document summary and messages about problems; Table 4 (purchases).
- Emails, the text of subscription invoices and their printed numbers; a payment's event id and checkout are each one number, in place of a gateway's name and reference.
- Supplier returns use the same return arithmetic; their stock, tax credit and audit rows are not part of this model.
- The A4 page, labels and logos; toFixed on binary numbers.
- ReturnsChecked.ProblemsOfReturn: names the problems of the first return that has any; goods returned past what was sold are in `ReturnsFound`.
- HonestBills.BillOf: writes a sale's lines, discounts and allocations; its head, payments, receipts and movements are given.
- Services not shown by their callers: the rest of sales, settlement, sequences and tenancy.
- Code128.Read: the source has no reader; this one reads the two sets the encoder writes and takes no function or shift symbols.
