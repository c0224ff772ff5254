# OwlMoney credit-card ledger, modelled in Dafny

This project models the credit-card ledger of OwlMoney, a personal-finance
ledger. A card has a name, a monthly spending `limit`, a stored `rebate`
and two expenditure lists. `unpaid` holds the running bill and `paid` holds
bills already settled.

- Adding an expenditure is refused when its amount is strictly greater than
  what the limit leaves for that expenditure's month. The figure is the
  limit minus the unpaid total of that month, and it is used for both the
  unpaid and the paid list.
- An edit checks the new amount against that month's remaining limit plus
  the entry's existing amount.
- A bill cycle moves every entry of a year-month from one list to the other.
  It searches for the first match again after each delete, because the later
  entries shift up.

Files:

- `wrappers.dfy` (module `Wrappers`): `Option` stands for a parameter the user
  may leave blank. `Result` and `Outcome` stand for a value or a thrown
  exception.
- `transaction.dfy` (module `Transactions`): the expenditure record `Txn`,
  `Date`, `YearMonth` and the two error kinds. `InvalidIndex` stands for a
  `TransactionException` about a position. `LimitExceeded` stands for a
  `CardException`.
- `transaction_list.dfy` (module `TransactionLists`): the operations a card
  calls on its transaction lists, as functions over `seq<Txn>`. These are the
  monthly total, add, delete and edit by 1-based index, and the year-month
  search that returns a 0-based position or `NotFound` (-1). The module also
  has `Matching` and `NotMatching`, the entries of one month and of all other
  months in list order, and the lemmas about them.
- `card.dfy` (module `Cards`): the class `Card`. Its fields are updated in
  place by its methods, as in the source. The two bill-cycle transfers are
  `while` loops that step the loop index back after each move. The module
  also holds the limit invariant `WithinLimit` (no month's unpaid total above
  the limit), the lemmas saying which operations keep it, and three client
  scenarios: `AddScenario`, `EditScenario` and `BillCycleScenario`.

Modelling choices:

- Money is a whole number of cents. The parsers accept at most two decimal
  places. A `Txn` amount is a `nat` and the limit is an `int`.
- A new entry is appended at the end of its list. The source of the
  transaction list is not part of this model, so this position is a choice.
  Properties that do not depend on it are stated with multisets.
- Blank edit fields are `None`. A given date arrives already parsed, as a
  `Date`. The current month for `GetRemainingLimitNow` is a parameter.
- The source asks the list for the entry's month and amount before the
  limit check. The model therefore rejects an out-of-range edit position
  with `InvalidIndex` before it looks at the limit.
- A transfer whose source list is empty changes nothing and throws
  nothing, because the loop body never runs (Card.java:279, 302). The
  `TransactionException` that the transfers catch and rethrow cannot occur,
  because the position deleted is always one the search has just found.
  The model shows this with `Delete(...).value`, which must be proved `Ok`.

## Model

| member | source | states |
|---|---|---|
| `TransactionLists.MonthSum` | src/main/java/owlmoney/model/card/Card.java:103 | The month total is 0 when no entry falls in the month, and it is at least the amount of every entry of that month. |
| `TransactionLists.Add` | src/main/java/owlmoney/model/card/Card.java:121 | The new entry is last, every earlier entry keeps its position, and the multiset gains exactly that entry. |
| `TransactionLists.Delete` | src/main/java/owlmoney/model/card/Card.java:175-177 | Succeeds iff 1 <= index <= size, and otherwise fails with `InvalidIndex`. Earlier entries keep their positions and later ones move up by one with no gap. Exactly the entry at `index` leaves the multiset. |
| `TransactionLists.Edit` | src/main/java/owlmoney/model/card/Card.java:212 | Succeeds iff the 1-based index is in range. Every other entry is unchanged. Each given field replaces the old value and each blank field keeps it. |
| `TransactionLists.FindByYearMonth` | src/main/java/owlmoney/model/card/Card.java:280-281 | Returns `NotFound` (-1) iff no entry is in the month. Otherwise it returns the 0-based position of the first entry that is. |
| `TransactionLists.Matching` | src/main/java/owlmoney/model/card/Card.java:279-287 | Every entry it returns is in the month. This is what a transfer moves. |
| `TransactionLists.NotMatching` | src/main/java/owlmoney/model/card/Card.java:279-287 | No entry it returns is in the month. This is what a transfer leaves behind, in list order. |
| `TransactionLists.MonthSumConcat` | src/main/java/owlmoney/model/card/Card.java:256-268 | The total of two lists joined together is the sum of their totals. |
| `TransactionLists.MonthSumAdd` | src/main/java/owlmoney/model/card/Card.java:119-122 | An add raises its own month's total by its amount and leaves every other month's total unchanged. |
| `TransactionLists.MonthSumDelete` | src/main/java/owlmoney/model/card/Card.java:175-177 | A delete lowers its entry's month total by that entry's amount and leaves every other month's total unchanged. |
| `TransactionLists.MonthSumUpdate` | src/main/java/owlmoney/model/card/Card.java:206-212 | Replacing one entry removes the old entry's contribution from every month's total and adds the new entry's. |
| `TransactionLists.SplitPartitions` | src/main/java/owlmoney/model/card/Card.java:279-287 | Every entry lands in exactly one of `Matching` and `NotMatching`. This holds as multisets and as counts. |
| `TransactionLists.SplitMonthSums` | src/main/java/owlmoney/model/card/Card.java:256-268 | The whole total of month ym is in `Matching`, and `NotMatching` contributes 0 to it. Every other month's total is wholly in `NotMatching`. |
| `TransactionLists.NoMatchLeavesAll` | src/main/java/owlmoney/model/card/Card.java:280-281 | When the search answers -1, the list has no entry of the month, so a transfer leaves it as it is. |
| `TransactionLists.DeleteFirstMatch` | src/main/java/owlmoney/model/card/Card.java:280-284 | The delete at `id + 1` succeeds and removes the entry found at `id`, the first of `Matching`. It leaves `NotMatching` unchanged. |
| `Cards.ExceedsIffMonthOverLimit` | src/main/java/owlmoney/model/card/Card.java:101-109 | The add check refuses exactly those expenditures that would put their month's unpaid total strictly above the limit. Equal to the remaining limit is allowed. |
| `Cards.AddKeepsWithinLimit` | src/main/java/owlmoney/model/card/Card.java:101-122 | An add that passes the check keeps every month of the unpaid list within the limit. |
| `Cards.DeleteKeepsWithinLimit` | src/main/java/owlmoney/model/card/Card.java:175-177 | Deleting an unpaid entry keeps every month within the limit. |
| `Cards.EditInPlaceMonthDelta` | src/main/java/owlmoney/model/card/Card.java:193-212 | With no new date, an amount edit changes the entry's month total by exactly new minus existing and leaves every other month's total unchanged. |
| `Cards.EditInPlaceRefusedIff` | src/main/java/owlmoney/model/card/Card.java:193-211 | With no new date, the check refuses an amount edit iff the entry's month total would then be strictly above the limit. |
| `Cards.EditInPlaceKeepsWithinLimit` | src/main/java/owlmoney/model/card/Card.java:193-212 | An edit that keeps the entry in its own month (no new date, or a new date in that same month) and passes the check keeps every month within the limit. This holds whether the amount is given or blank. |
| `Cards.EditAcrossMonthsBreaksLimit` | src/main/java/owlmoney/model/card/Card.java:198-211 | The edit check as written accepts two edits that move an entry into a full month and push that month over the limit: the same amount with a new date, and a new date with a blank amount. |
| `Cards.CorrectedEditKeepsWithinLimit` | src/main/java/owlmoney/model/card/Card.java:193-211 | Every edit that passes the corrected check keeps every month within the limit, whether or not it changes the date. |
| `Cards.CorrectedAgreesInPlace` | src/main/java/owlmoney/model/card/Card.java:194-211 | On an amount edit with no new date, the corrected check and the check as written agree. |
| `Cards.TransferMonthSums` | src/main/java/owlmoney/model/card/Card.java:277-314 | After a transfer, the source's month total is 0 and the destination's is its old total plus the source's. The totals of other months are unchanged in both lists. |
| `Cards.TransferConservesEntries` | src/main/java/owlmoney/model/card/Card.java:277-314 | A transfer is a move. The multiset union of both lists and the total number of entries are unchanged. |
| `Cards.TransferOutKeepsWithinLimit` | src/main/java/owlmoney/model/card/Card.java:277-291 | A bill cycle from unpaid to paid keeps every unpaid month within the limit. |
| `Cards.PaidToUnpaidCanBreakLimit` | src/main/java/owlmoney/model/card/Card.java:300-314 | Moving a month back from paid to unpaid has no limit check and can push an unpaid month over the limit. |
| `Cards.TransferStep` | src/main/java/owlmoney/model/card/Card.java:280-285 | One pass of a transfer loop succeeds in deleting at `id + 1`. The entry copied at `id` extends the moved prefix of `Matching`, and `NotMatching` is untouched. |
| `Cards.Card.constructor` | src/main/java/owlmoney/model/card/Card.java:32-38 | A new card has the given name, limit and rebate and two empty lists, so `IsEmpty()` holds. |
| `Cards.Card.SetName` | src/main/java/owlmoney/model/card/Card.java:54-56 | Sets the name and changes no other field. |
| `Cards.Card.SetLimit` | src/main/java/owlmoney/model/card/Card.java:73-75 | Sets the limit and changes no other field. |
| `Cards.Card.SetRebate` | src/main/java/owlmoney/model/card/Card.java:91-93 | Sets the rebate and changes no other field. |
| `Cards.Card.AddInExpenditure` | src/main/java/owlmoney/model/card/Card.java:119-122 | Fails with `LimitExceeded` iff the check refuses, and then nothing changes. Otherwise `unpaid` gains exactly the entry. `paid` is never touched, and the limit invariant is kept. |
| `Cards.Card.AddInPaidExpenditure` | src/main/java/owlmoney/model/card/Card.java:132-135 | Applies the same check against the unpaid total. On success it appends to `paid`. `unpaid` is never modified, and on refusal nothing changes. |
| `Cards.Card.DeleteExpenditure` | src/main/java/owlmoney/model/card/Card.java:175-177 | Succeeds iff the 1-based index is in range and removes exactly that unpaid entry. Otherwise it fails with `InvalidIndex` and changes nothing. The limit invariant is kept. |
| `Cards.Card.EditExpenditureDetails` | src/main/java/owlmoney/model/card/Card.java:191-213 | Checks against the new date's month if a date is given, otherwise the entry's own month. It fails, changing nothing, iff the index is bad or an amount is given that exceeds that month's remaining limit plus the existing amount. A blank amount skips the check. An edit that keeps the entry in its own month keeps the limit invariant. |
| `Cards.Card.GetRemainingLimitNow` | src/main/java/owlmoney/model/card/Card.java:219-224 | Equals the limit minus the total of exactly this month's unpaid entries, is never above the limit, and reads state without changing it. |
| `Cards.Card.IsEmpty` | src/main/java/owlmoney/model/card/Card.java:231-233 | True exactly when `unpaid` has no entries. |
| `Cards.Card.GetUnpaidBillAmount` | src/main/java/owlmoney/model/card/Card.java:256-258 | Equals the total of exactly the unpaid entries of the year-month. |
| `Cards.Card.GetPaidBillAmount` | src/main/java/owlmoney/model/card/Card.java:266-268 | Equals the total of exactly the paid entries of the year-month. |
| `Cards.Card.TransferExpUnpaidToPaid` | src/main/java/owlmoney/model/card/Card.java:277-291 | The loop terminates. Afterwards `unpaid` is exactly its entries of other months, in their old order, and `paid` is its old contents followed by the month's entries, in unpaid order. The limit invariant is kept. |
| `Cards.Card.TransferExpPaidToUnpaid` | src/main/java/owlmoney/model/card/Card.java:300-314 | The symmetric loop terminates. `paid` keeps only its other months, and `unpaid` gains the month's paid entries with no limit check. |

## Findings

| source | as written | input that shows it | evidently intended | confidence | as-written member | corrected member |
|---|---|---|---|---|---|---|
| src/main/java/owlmoney/model/card/Card.java:198-211 | When a new date moves an entry to another month, the existing amount is still added back to that month's remaining limit, although it is not part of that month's total. A blank amount skips the check even when the month changes. | Limit 100.00, unpaid = [50.00 in March, 100.00 in April]. Editing the March entry to April with amount 50.00, or with a blank amount, is accepted, and April then holds 150.00. | The existing amount is added back only when the entry already counts in the target month, and a blank amount is checked as the existing amount. Every accepted edit then keeps every month within the limit. | medium, not executed | `Cards.EditAcrossMonthsBreaksLimit` (about `Cards.EditRefused`) | `Cards.CorrectedEditKeepsWithinLimit` (about `Cards.CorrectedEditRefused`) |

`Cards.Card.EditExpenditureDetails` keeps the check as written, so that the
class behaves like the source. Its limit-invariant guarantee therefore
covers only edits that keep the date.

## Left out

- `listAllExpenditure`, `listAllPaidExpenditure` and `findTransaction` are not modelled. They only hand the lists to console printing and to keyword and date filtering in the transaction list. That code is not part of this model.
- The `Ui` and `type` parameters of the adds, delete, edit and transfers are left out. They only choose console messages.
- The trivial getters `getName`, `getLimit` and `getRebate` are not modelled as separate members. They are read as the fields `name`, `limit` and `rebate`.
- The clock is left out. `LocalDate.now()` in `getRemainingLimitNow` is replaced by a `now` parameter.
- `dd/MM/yyyy` date parsing is left out, along with its `DateTimeParseException`. A given date arrives already parsed.
- Floating-point arithmetic is left out. `double` rounding and `Double.parseDouble` are replaced by exact integer cents.
- `rebate` is stored and set but never used. It is a `real`.
- The transaction list's capacity, and any pruning of old entries when it is exceeded, are left out. Neither is visible from the card.
- `Cards.Card.TransferExpPaidToUnpaid` does not promise the limit invariant, because the source performs no limit check there. `Cards.PaidToUnpaidCanBreakLimit` shows it can be broken.
- `Cards.Card.EditExpenditureDetails` promises the limit invariant only for edits that keep the entry in its own month (no new date, or a new date in the same month). For an edit that moves the entry to another month the source's check adds back an amount that is not in the target month's total, so the invariant can fail. See Findings.
- The three parser classes and the goals-list test are not part of this model. The parsers check input formats through helpers that are not shown, and the test exercises a goals list that is not shown.
