/** The expenditure record kept in a card's two ledgers. */
module Transactions {

  /** A month of a year: the key of every monthly total. */
  datatype YearMonth = YearMonth(year: int, month: int)

  /** A calendar date, as the command parser hands it over. */
  datatype Date = Date(year: int, month: int, day: int) {
    function Month(): YearMonth { YearMonth(year, month) }
  }

  /**
   * Why an operation was refused: a 1-based index outside the ledger
   * (a TransactionException), or a monthly limit that would be exceeded
   * (a CardException).
   */
  datatype Error = InvalidIndex | LimitExceeded

  /** One expenditure. Money is counted in whole cents and is never negative. */
  datatype Txn = Txn(description: string, amount: nat, date: Date, category: string) {

    predicate InMonth(ym: YearMonth) { date.Month() == ym }

    /** What this entry adds to the total of month ym. */
    function AmountIn(ym: YearMonth): nat { if InMonth(ym) then amount else 0 }
  }
}
