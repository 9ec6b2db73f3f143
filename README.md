# fairsplit in Dafny

fairsplit splits shared expenses in a group. It reads lines of the form
`<Person> <Sum> <Person> [Person...]`. Each line says that the first person
paid the sum on behalf of everybody listed after it. The program then prints
who must pay whom so that everybody is even. This project models the core of
the program, `buildGraphInteractively` in `main.go`, in four modules:

- `Balances` (`balances.dfy`): name-to-balance maps. A missing name reads as
  0, as it does in a Go map. `Total` is the sum of all balances.
- `Ledger` (`ledger.dfy`): the read loop.
  - A line already split into fields is classified as blank, short, carrying
    an unreadable sum, or a transaction.
  - A transaction debits its payer by the whole amount and credits each
    listed name `amount / len(beneficiaries)` once per listing. This is the
    exclusive split of the code: a payer who lists themself is both debited
    and credited.
  - The two loops of the code, over lines and over beneficiaries, are methods
    proved against the reference functions `Amends` and `Applied`.
- `Settlement` (`settlement.dfy`):
  - The conversion loop files every non-zero balance as a creditor (owed
    money, kept as a positive sum) or a debtor.
  - The greedy two-cursor scan updates two arrays in place and records one
    payment per step in the graph debtor -> creditor -> amount.
  - The scan is proved against the reference function `Drive`, and `Drive`
    is proved to yield a plan.
- `Fairsplit` (`fairsplit.dfy`): the whole of `buildGraphInteractively`, the
  empty-plan rule of `printTransactions`, and the two examples of the usage
  text.

Amounts are exact `real`s. The threshold 0.01, below which a debtor's
remaining sum is left alone, is the constant `Settlement.Threshold`. Go's map
iteration order is arbitrary, so the model picks keys with `:|`. Every
property about the conversion loop therefore holds for every iteration order.

Some behaviour one might expect of such a program is not in the code, and
the model follows the code:

- The code suppresses no small payments.
- The code orders nothing deterministically.
- The code raises no internal-consistency error.
- The code accepts zero and negative sums.
- The code compares raw values against 0.01 with no tolerance helper, and
  the model keeps those comparisons.

## Model

| member | source | states |
|---|---|---|
| Ledger.ParseLine | main.go:111-129 | no fields is a blank line; one or two fields is an invalid-format line; three or more fields with an unreadable sum is a bad number; otherwise the first field is the payer, the second the amount and all the rest, at least one, the beneficiaries in order |
| Ledger.Credited | main.go:132-136 | reference definition of a transaction with a given share: the payer loses the amount, every name gains the share once per listing, names appear the first time they are touched, nobody else changes |
| Ledger.Applied | main.go:131-136 | reference definition of one transaction under the exclusive split, the share being the amount over the number of listed names; `AppliedEffect` states it name by name: a name has an entry exactly when it had one, pays or is listed, and its balance is the old one (0 when absent), less the amount if it pays, plus one share per listing |
| Ledger.AppliedOthers | main.go:131-136 | a name that is neither the payer nor listed keeps its entry and its balance |
| Ledger.SharesSplit | main.go:132-136 | n shares of amount/n add up to the amount |
| Ledger.CreditedTotal | main.go:133-136 | debiting the payer and crediting the listed names changes the sum of all balances by the shares minus the amount |
| Ledger.AppliedConserves | main.go:131-136 | a transaction leaves the sum of all balances unchanged |
| Ledger.CreditEach | main.go:134-136 | the range loop over the listed names as a function: each name in list order gains one share, starting from 0 when absent |
| Ledger.CreditEachCredited | main.go:133-136 | crediting the names one at a time after the debit gives the reference effect of the transaction |
| Ledger.Apply | main.go:131-136 | the code's update of the balances yields the reference effect of the transaction and keeps the sum of all balances |
| Ledger.Step | main.go:111-136 | one line keeps the sum of all balances: a line that parses applies its transaction, a rejected line changes nothing |
| Ledger.Amends | main.go:98-137 | the balances after reading the lines in order from no entries, one line at a time (`AmendsSnoc`); whatever the input, they sum to zero |
| Ledger.Accumulate | main.go:98-137 | the read loop yields the balances the lines define, and they sum to zero |
| Ledger.BenPaysForFour | main.go:33-36 | Ben paying 40.00 for Ben, Lila, Carlos and Emil leaves Ben at -30 and the three others at 10 each, and nobody else |
| Settlement.WithCreditor | main.go:148-149 | reference definition: a negative balance adds a creditor owed its opposite, any other balance adds none |
| Settlement.WithDebtor | main.go:150-151 | reference definition: a positive balance adds a debtor owing it, any other balance adds none |
| Settlement.PartitionInvStep | main.go:147-153 | filing one more balance keeps both lists without repeated names, with positive sums, and accounts for exactly the names seen so far |
| Settlement.Partition | main.go:145-153 | for every iteration order: creditors are exactly the names with a negative balance, debtors exactly those with a positive one, each once and with its sum; their number is the number of non-zero balances, and debts minus credits is the sum of all balances |
| Settlement.PartitionWellFormed | main.go:145-153 | the lists the conversion loop builds have positive sums and no repeated names |
| Settlement.Record | main.go:159-169 | reference definition of recording a payment: the payer's row is created when missing and the payment to the payee set; `RecordShape`, `RecordPaid` and `RecordReceived` state what that changes |
| Settlement.RecordPairs | main.go:165-169 | a payment between a new pair of names adds one payment to the graph |
| Settlement.Split | main.go:164-167 | reference definition of a payment to a creditor owed more: the debtor pays all it owes, the creditor's sum drops by as much, the creditor stays current |
| Settlement.Close | main.go:168-172 | reference definition of a payment to a creditor owed no more: the debtor pays all the creditor is owed, the creditor drops to 0 and the next one becomes current |
| Settlement.Pay | main.go:164-173 | reference definition of one payment: `Split` when the creditor is owed more than the debtor owes, `Close` otherwise |
| Settlement.PayIsMin | main.go:163-173 | one payment is the smaller of the debt and the credit, is taken off both, leaves neither negative, clears at least one, and moves the creditor cursor exactly when it clears the creditor |
| Settlement.Next | main.go:156 | reference definition of moving to the next debtor, with creditor cursor and graph kept |
| Settlement.Drive | main.go:155-177 | reference definition of the scan: it ends after the last debtor; a debtor owing less than 0.01 gives way to the next; a debtor owing more with no creditor left is `OutOfRange`; otherwise one payment is made |
| Settlement.PayOne | main.go:163-173 | the in-place update of the two arrays and of the graph is one step of the reference scan |
| Settlement.Overrun | main.go:156-163 | the creditor cursor runs past the last creditor only when the debtors owe more in total than the creditors are owed |
| Settlement.DriveSettles | main.go:155-177 | from any state that keeps the scan invariant, and so takes the same amount off both sides at every payment, the scan never indexes past the last creditor when debts do not exceed credits, and when it finishes the graph is a plan |
| Settlement.Settles | main.go:155-177 | from the start, the scan finishes when debts do not exceed credits. Its graph is a plan: each debtor with at least 0.01 has a non-empty row and pays all but less than 0.01; rows belong to debtors; payments are positive and go to creditors, none of whom gets more than owed; each payment clears its debtor or its creditor; creditors are served in list order; there are fewer payments than creditors and debtors; what the creditors are still owed in all is what the debtors still owe in all plus the credits beyond the debts, and the debtors still owe less than 0.01 apiece |
| Settlement.Settle | main.go:155-177 | the settlement loop's result is that of the reference scan from the start |
| Fairsplit.PlanForBalances | main.go:140-177 | a plan for the conversion loop's lists is a plan for the balances themselves, stated over names only, so it holds whatever the iteration order |
| Fairsplit.BuildGraph | main.go:89-177 | the graph returned settles the balances the input defines: every debtor's row exists exactly when it owes at least 0.01, and it then pays all but less than 0.01; payments are positive, go to names owed money and never overpay them; each payment clears its debtor or its creditor; at most one creditor is left partly paid; there are fewer payments than names with a non-zero balance; and the creditors are still owed in all exactly what the debtors still owe in all, less than 0.01 per name with a non-zero balance |
| Fairsplit.AllIsWell | main.go:182-186 | the graph is empty, and "ALL IS WELL" is printed, exactly when no balance reaches 0.01 |
| Fairsplit.UsageParsed | main.go:41-44 | the four lines of the usage example parse as the four transactions they write |
| Fairsplit.UsageBalances | main.go:41-44 | in exact arithmetic the usage example leaves Ben at 0, Reed at -51.71 and Sonia at 51.71 |
| Fairsplit.UsagePlan | main.go:47-49 | for those balances the only graph whose payments meet the plan is Sonia paying Reed 51.71 |
| Fairsplit.UsageExample | main.go:38-49 | on the usage example's input, in exact arithmetic and for every iteration order, the graph returned holds one payment: Sonia pays Reed 51.71 (printing it is left out) |

## Left out

- Reading standard input, the prompts and the messages are left out. So are
  the stop on a read error and the stop at end of input. The input is a finite
  sequence of lines, each already split into fields.
- `strings.Fields` is left out: each line arrives as its list of fields.
- `strconv.ParseFloat` is left out: each field carries the number its text
  reads as, or none.
- float64 arithmetic is left out: balances, shares and comparisons are exact
  `real`s. Rounding, NaN and infinities are not modelled. For reals the
  code's `else if get.v <= put.v` always holds after `get.v > put.v` fails,
  so it is modelled as `else`. In the Go program the two values compared
  there are never NaN either: a NaN balance is filed neither as a creditor
  nor as a debtor (main.go:148-151), a NaN debt ends the inner loop
  (main.go:158), and a creditor's remaining sum becomes either a positive
  difference (main.go:166) or 0 (main.go:171).
- Settlement.Settle: indexing past the last creditor panics in Go. The model
  returns `OutOfRange` instead and proves this cannot happen when the sum of
  all balances is zero. Float rounding could still reach it in the Go
  program; that is not modelled.
- Which of several valid plans comes out depends on Go's map iteration
  order, which the model leaves open. The contracts of `Fairsplit.BuildGraph`
  hold for every order, but the model does not say which plan a given run
  yields.
- Of `printTransactions` only the empty-plan rule is modelled. Skipping empty
  rows needs no model, because rows are proved never to be empty. The
  printing itself and the `%.2f` formatting are left out.
- `usage`, `main` and the command-line check are left out, since they are
  I/O around the core.
- Settlement.Partition: the slice capacities given to `make` only size the
  slices and do not change their contents.
