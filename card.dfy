/**
 * A credit card: a monthly spending limit and two expenditure lists,
 * `unpaid` (the running bill) and `paid` (bills already settled).
 * Every add is checked against the unpaid total of the expenditure's month;
 * a bill cycle moves a whole month from one list to the other.
 */
module Cards {
  import opened Wrappers
  import opened Transactions
  import opened TransactionLists

  /** Gap between the 0-based position the search answers and the 1-based index delete expects. */
  const OneArrayIndex: int := 1

  /** The limit invariant: no month's unpaid total is above the limit. */
  ghost predicate WithinLimit(unpaid: seq<Txn>, limit: int) {
    forall ym: YearMonth :: MonthSum(unpaid, ym) <= limit
  }

  /** The test of checkExpExceedRemainingLimit: exp is refused when its amount is strictly above what the limit leaves for its month. */
  predicate ExceedsRemainingLimit(limit: int, unpaid: seq<Txn>, exp: Txn) {
    var monthAmountSpent := MonthSum(unpaid, exp.date.Month());
    var remainingMonthAmount := limit - monthAmountSpent;
    exp.amount > remainingMonthAmount
  }

  /** The add check refuses exactly the expenditures that would put their month's unpaid total above the limit. */
  lemma ExceedsIffMonthOverLimit(limit: int, unpaid: seq<Txn>, exp: Txn)
    ensures ExceedsRemainingLimit(limit, unpaid, exp) <==> MonthSum(Add(unpaid, exp), exp.date.Month()) > limit
  {
    MonthSumAdd(unpaid, exp, exp.date.Month());
  }

  /** An add that passes the check keeps every month of the unpaid list within the limit. */
  lemma AddKeepsWithinLimit(limit: int, unpaid: seq<Txn>, exp: Txn)
    requires WithinLimit(unpaid, limit)
    requires !ExceedsRemainingLimit(limit, unpaid, exp)
    ensures WithinLimit(Add(unpaid, exp), limit)
  {
    forall ym: YearMonth ensures MonthSum(Add(unpaid, exp), ym) <= limit {
      MonthSumAdd(unpaid, exp, ym);
    }
  }

  /** Deleting an unpaid entry only frees limit. */
  lemma DeleteKeepsWithinLimit(limit: int, unpaid: seq<Txn>, index: int)
    requires WithinLimit(unpaid, limit)
    requires 1 <= index <= |unpaid|
    ensures WithinLimit(Delete(unpaid, index).value, limit)
  {
    forall ym: YearMonth ensures MonthSum(Delete(unpaid, index).value, ym) <= limit {
      MonthSumDelete(unpaid, index, ym);
    }
  }

  /** Month an edit is checked against: the new date's month when a date is given, else the entry's own month. */
  function EditTargetMonth(existing: Txn, date: Option<Date>): YearMonth {
    if date.Some? then date.value.Month() else existing.date.Month()
  }

  /**
   * The test of editExpenditureDetails as written: the existing amount is
   * added back to what the limit leaves for the target month, and only a
   * given amount is compared with that figure.
   */
  predicate EditRefused(limit: int, unpaid: seq<Txn>, expNum: int, amount: Option<nat>, date: Option<Date>)
    requires 1 <= expNum <= |unpaid|
  {
    var existing := unpaid[expNum - 1];
    var remainingLimit := limit - MonthSum(unpaid, EditTargetMonth(existing, date));
    var limitLeftExcludeExistingExp := remainingLimit + existing.amount;
    amount.Some? && limitLeftExcludeExistingExp < amount.value
  }

  /**
   * An edit that keeps the entry's date moves its month's total by exactly
   * new minus existing and leaves every other month alone.
   */
  lemma EditInPlaceMonthDelta(unpaid: seq<Txn>, expNum: int, description: Option<string>,
                              newAmount: nat, category: Option<string>, ym: YearMonth)
    requires 1 <= expNum <= |unpaid|
    ensures var edited := Edit(unpaid, expNum, description, Some(newAmount), None, category).value;
            MonthSum(edited, ym) == if ym == unpaid[expNum - 1].date.Month()
                                    then MonthSum(unpaid, ym) - unpaid[expNum - 1].amount + newAmount
                                    else MonthSum(unpaid, ym)
  {
    var k := expNum - 1;
    MonthSumUpdate(unpaid, k, Amend(unpaid[k], description, Some(newAmount), None, category), ym);
  }

  /** An amount edit that keeps the entry's date is refused exactly when its month's total would go above the limit. */
  lemma EditInPlaceRefusedIff(limit: int, unpaid: seq<Txn>, expNum: int, description: Option<string>,
                              newAmount: nat, category: Option<string>)
    requires 1 <= expNum <= |unpaid|
    ensures EditRefused(limit, unpaid, expNum, Some(newAmount), None)
        <==> MonthSum(Edit(unpaid, expNum, description, Some(newAmount), None, category).value,
                      unpaid[expNum - 1].date.Month()) > limit
  {
    EditInPlaceMonthDelta(unpaid, expNum, description, newAmount, category, unpaid[expNum - 1].date.Month());
  }

  /**
   * An edit that keeps the entry in its own month (no new date, or a new
   * date in the same month) and passes the check keeps every month within
   * the limit.
   */
  lemma EditInPlaceKeepsWithinLimit(limit: int, unpaid: seq<Txn>, expNum: int, description: Option<string>,
                                    amount: Option<nat>, date: Option<Date>, category: Option<string>)
    requires WithinLimit(unpaid, limit)
    requires 1 <= expNum <= |unpaid|
    requires EditTargetMonth(unpaid[expNum - 1], date) == unpaid[expNum - 1].date.Month()
    requires !EditRefused(limit, unpaid, expNum, amount, date)
    ensures WithinLimit(Edit(unpaid, expNum, description, amount, date, category).value, limit)
  {
    var k := expNum - 1;
    var t := Amend(unpaid[k], description, amount, date, category);
    var edited := unpaid[k := t];
    forall ym: YearMonth ensures MonthSum(edited, ym) <= limit {
      MonthSumUpdate(unpaid, k, t, ym);
    }
  }

  /**
   * The edit check as written lets an entry move into a month that has no
   * room for it: the existing amount is added back although it is not part
   * of the target month's total, and a blank amount is not checked at all.
   */
  lemma EditAcrossMonthsBreaksLimit()
    ensures var march, april := Date(2024, 3, 5), Date(2024, 4, 5);
            var unpaid := [Txn("lunch", 5000, march, "food"), Txn("rent", 10000, april, "home")];
            var moveSameAmount := Edit(unpaid, 1, None, Some(5000), Some(april), None).value;
            var moveOnly := Edit(unpaid, 1, None, None, Some(april), None).value;
            && WithinLimit(unpaid, 10000)
            && !EditRefused(10000, unpaid, 1, Some(5000), Some(april))
            && MonthSum(moveSameAmount, april.Month()) > 10000
            && !EditRefused(10000, unpaid, 1, None, Some(april))
            && MonthSum(moveOnly, april.Month()) > 10000
  {
    var march, april := Date(2024, 3, 5), Date(2024, 4, 5);
    var unpaid := [Txn("lunch", 5000, march, "food"), Txn("rent", 10000, april, "home")];
    forall ym: YearMonth ensures MonthSum(unpaid, ym) <= 10000 {
      assert unpaid[1..][1..] == [];
    }
    var moved := [Txn("lunch", 5000, april, "food"), Txn("rent", 10000, april, "home")];
    assert moved[1..][1..] == [];
    assert MonthSum(moved, april.Month()) == 15000;
  }

  /**
   * The edit check with the existing amount added back only when the entry
   * already counts in the target month, and with a blank amount standing for
   * the existing one.
   */
  predicate CorrectedEditRefused(limit: int, unpaid: seq<Txn>, expNum: int, amount: Option<nat>, date: Option<Date>)
    requires 1 <= expNum <= |unpaid|
  {
    var existing := unpaid[expNum - 1];
    var target := EditTargetMonth(existing, date);
    var limitLeft := limit - MonthSum(unpaid, target) + existing.AmountIn(target);
    limitLeft < amount.GetOr(existing.amount)
  }

  /** Every edit that passes the corrected check keeps every month within the limit. */
  lemma CorrectedEditKeepsWithinLimit(limit: int, unpaid: seq<Txn>, expNum: int, description: Option<string>,
                                      amount: Option<nat>, date: Option<Date>, category: Option<string>)
    requires WithinLimit(unpaid, limit)
    requires 1 <= expNum <= |unpaid|
    requires !CorrectedEditRefused(limit, unpaid, expNum, amount, date)
    ensures WithinLimit(Edit(unpaid, expNum, description, amount, date, category).value, limit)
  {
    var k := expNum - 1;
    var t := Amend(unpaid[k], description, amount, date, category);
    var target := EditTargetMonth(unpaid[k], date);
    assert t.date.Month() == target;
    var edited := unpaid[k := t];
    forall ym: YearMonth ensures MonthSum(edited, ym) <= limit {
      MonthSumUpdate(unpaid, k, t, ym);
    }
  }

  /** On an edit that keeps the date and gives an amount, the corrected check agrees with the one as written. */
  lemma CorrectedAgreesInPlace(limit: int, unpaid: seq<Txn>, expNum: int, newAmount: nat)
    requires 1 <= expNum <= |unpaid|
    ensures CorrectedEditRefused(limit, unpaid, expNum, Some(newAmount), None)
        <==> EditRefused(limit, unpaid, expNum, Some(newAmount), None)
  {
  }

  /**
   * A bill-cycle transfer of month ym empties that month in the source list,
   * adds the source's total for it to the destination, and leaves every
   * other month's totals alone in both lists.
   */
  lemma TransferMonthSums(src: seq<Txn>, dst: seq<Txn>, ym: YearMonth, other: YearMonth)
    ensures MonthSum(NotMatching(src, ym), ym) == 0
    ensures MonthSum(dst + Matching(src, ym), ym) == MonthSum(dst, ym) + MonthSum(src, ym)
    ensures other != ym ==> MonthSum(NotMatching(src, ym), other) == MonthSum(src, other)
    ensures other != ym ==> MonthSum(dst + Matching(src, ym), other) == MonthSum(dst, other)
  {
    SplitMonthSums(src, ym, ym);
    SplitMonthSums(src, ym, other);
    MonthSumConcat(dst, Matching(src, ym), ym);
    MonthSumConcat(dst, Matching(src, ym), other);
  }

  /** A bill-cycle transfer is a move: no entry is lost, copied or altered. */
  lemma TransferConservesEntries(src: seq<Txn>, dst: seq<Txn>, ym: YearMonth)
    ensures multiset(NotMatching(src, ym)) + multiset(dst + Matching(src, ym)) == multiset(src) + multiset(dst)
    ensures |NotMatching(src, ym)| + |dst + Matching(src, ym)| == |src| + |dst|
  {
    SplitPartitions(src, ym);
  }

  /** Moving a month out of the unpaid list keeps every month within the limit. */
  lemma TransferOutKeepsWithinLimit(limit: int, unpaid: seq<Txn>, ym: YearMonth)
    requires WithinLimit(unpaid, limit)
    ensures WithinLimit(NotMatching(unpaid, ym), limit)
  {
    forall other: YearMonth ensures MonthSum(NotMatching(unpaid, ym), other) <= limit {
      SplitMonthSums(unpaid, ym, other);
    }
  }

  /** Moving a month back from paid to unpaid is not checked against the limit and can exceed it. */
  lemma PaidToUnpaidCanBreakLimit()
    ensures var march := Date(2024, 3, 5);
            var unpaid := [Txn("lunch", 5000, march, "food")];
            var paid := [Txn("books", 6000, march, "study")];
            && WithinLimit(unpaid, 10000)
            && MonthSum(unpaid + Matching(paid, march.Month()), march.Month()) > 10000
  {
    var march := Date(2024, 3, 5);
    var unpaid := [Txn("lunch", 5000, march, "food")];
    var paid := [Txn("books", 6000, march, "study")];
    forall ym: YearMonth ensures MonthSum(unpaid, ym) <= 10000 {
      assert unpaid[1..] == [];
    }
    assert paid[1..] == [];
    assert Matching(paid, march.Month()) == [paid[0]] + Matching(paid[1..], march.Month());
    var both := unpaid + Matching(paid, march.Month());
    assert both == [unpaid[0], paid[0]];
    assert both[1..][1..] == [];
  }

  /**
   * One pass of a transfer loop: the entry the search found joins the moved
   * prefix of Matching, and deleting it at 1-based id + 1 leaves NotMatching alone.
   */
  lemma TransferStep(src: seq<Txn>, moved: seq<Txn>, ym: YearMonth, id: int)
    requires id == FindByYearMonth(src, ym) && id != NotFound
    ensures Delete(src, id + OneArrayIndex).Ok?
    ensures (moved + [src[id]]) + Matching(Delete(src, id + OneArrayIndex).value, ym) == moved + Matching(src, ym)
    ensures NotMatching(Delete(src, id + OneArrayIndex).value, ym) == NotMatching(src, ym)
  {
    DeleteFirstMatch(src, ym, id);
  }

  class Card {
    var name: string
    var limit: int
    var rebate: real
    var paid: seq<Txn>
    var unpaid: seq<Txn>

    /** A new card starts with both lists empty. */
    constructor (name: string, limit: int, rebate: real)
      ensures this.name == name && this.limit == limit && this.rebate == rebate
      ensures paid == [] && unpaid == []
      ensures IsEmpty()
    {
      this.name := name;
      this.limit := limit;
      this.rebate := rebate;
      this.paid := [];
      this.unpaid := [];
    }

    method SetName(name: string)
      modifies this`name
      ensures this.name == name
    {
      this.name := name;
    }

    method SetLimit(limit: int)
      modifies this`limit
      ensures this.limit == limit
    {
      this.limit := limit;
    }

    method SetRebate(rebate: real)
      modifies this`rebate
      ensures this.rebate == rebate
    {
      this.rebate := rebate;
    }

    /**
     * The card's limit invariant. Three operations can break it: SetLimit
     * (no check), TransferExpPaidToUnpaid (no check) and an edit that moves
     * an entry to another month (see EditAcrossMonthsBreaksLimit).
     */
    ghost predicate UnpaidWithinLimit()
      reads this
    {
      WithinLimit(unpaid, limit)
    }

    /** Adds an expenditure to the unpaid list, unless it exceeds what the limit leaves for its month. */
    method AddInExpenditure(exp: Txn) returns (r: Outcome<Error>)
      modifies this`unpaid
      ensures r == if ExceedsRemainingLimit(limit, old(unpaid), exp) then Fail(LimitExceeded) else Pass
      ensures unpaid == if r.Pass? then Add(old(unpaid), exp) else old(unpaid)
      ensures old(UnpaidWithinLimit()) ==> UnpaidWithinLimit()
    {
      if ExceedsRemainingLimit(limit, unpaid, exp) {
        return Fail(LimitExceeded);
      }
      if WithinLimit(unpaid, limit) {
        AddKeepsWithinLimit(limit, unpaid, exp);
      }
      unpaid := Add(unpaid, exp);
      r := Pass;
    }

    /** Adds an expenditure to the paid list, after the same check against the unpaid total. */
    method AddInPaidExpenditure(exp: Txn) returns (r: Outcome<Error>)
      modifies this`paid
      ensures r == if ExceedsRemainingLimit(limit, unpaid, exp) then Fail(LimitExceeded) else Pass
      ensures paid == if r.Pass? then Add(old(paid), exp) else old(paid)
    {
      if ExceedsRemainingLimit(limit, unpaid, exp) {
        return Fail(LimitExceeded);
      }
      paid := Add(paid, exp);
      r := Pass;
    }

    /** Deletes the unpaid expenditure at 1-based position exId. */
    method DeleteExpenditure(exId: int) returns (r: Outcome<Error>)
      modifies this`unpaid
      ensures r.Pass? <==> 1 <= exId <= |old(unpaid)|
      ensures r.Fail? ==> r.error == InvalidIndex && unpaid == old(unpaid)
      ensures r.Pass? ==> unpaid == Delete(old(unpaid), exId).value
      ensures old(UnpaidWithinLimit()) ==> UnpaidWithinLimit()
    {
      match Delete(unpaid, exId)
      case Ok(rest) =>
        if WithinLimit(unpaid, limit) {
          DeleteKeepsWithinLimit(limit, unpaid, exId);
        }
        unpaid := rest;
        r := Pass;
      case Err(e) =>
        r := Fail(e);
    }

    /**
     * Edits the unpaid expenditure at 1-based position expNum; blank fields
     * are None. A bad position is refused first, then an amount the limit
     * check rejects; otherwise the edit is applied.
     */
    method EditExpenditureDetails(expNum: int, description: Option<string>, amount: Option<nat>,
                                  date: Option<Date>, category: Option<string>) returns (r: Outcome<Error>)
      modifies this`unpaid
      ensures !(1 <= expNum <= |old(unpaid)|) ==> r == Fail(InvalidIndex)
      ensures 1 <= expNum <= |old(unpaid)| ==>
        r == if EditRefused(limit, old(unpaid), expNum, amount, date) then Fail(LimitExceeded) else Pass
      ensures unpaid == if r.Pass? then Edit(old(unpaid), expNum, description, amount, date, category).value
                        else old(unpaid)
      ensures (&& 1 <= expNum <= |old(unpaid)|
               && EditTargetMonth(old(unpaid)[expNum - 1], date) == old(unpaid)[expNum - 1].date.Month()
               && old(UnpaidWithinLimit()))
              ==> UnpaidWithinLimit()
    {
      if !(1 <= expNum <= |unpaid|) {
        return Fail(InvalidIndex);
      }
      var remainingLimit: int;
      if date.None? {
        var expMonth := unpaid[expNum - 1].date.Month();
        remainingLimit := limit - MonthSum(unpaid, expMonth);
      } else {
        remainingLimit := limit - MonthSum(unpaid, date.value.Month());
      }
      var existingExpAmount := unpaid[expNum - 1].amount;
      var limitLeftExcludeExistingExp := remainingLimit + existingExpAmount;
      if amount.Some? && limitLeftExcludeExistingExp < amount.value {
        return Fail(LimitExceeded);
      }
      if EditTargetMonth(unpaid[expNum - 1], date) == unpaid[expNum - 1].date.Month() && WithinLimit(unpaid, limit) {
        EditInPlaceKeepsWithinLimit(limit, unpaid, expNum, description, amount, date, category);
      }
      unpaid := Edit(unpaid, expNum, description, amount, date, category).value;
      r := Pass;
    }

    /** What the limit leaves for month now, the current month read from the clock by the caller. */
    function GetRemainingLimitNow(now: YearMonth): (r: int)
      reads this
      ensures r <= limit
      ensures r + MonthSum(Matching(unpaid, now), now) == limit
    {
      SplitMonthSums(unpaid, now, now);
      limit - MonthSum(unpaid, now)
    }

    /** True exactly when the unpaid list has no entries. */
    predicate IsEmpty()
      reads this
      ensures IsEmpty() <==> unpaid == []
    {
      |unpaid| == 0
    }

    /** The unpaid bill of month ym: the total of exactly the unpaid entries of that month. */
    function GetUnpaidBillAmount(ym: YearMonth): (r: nat)
      reads this
      ensures r == MonthSum(Matching(unpaid, ym), ym)
    {
      SplitMonthSums(unpaid, ym, ym);
      MonthSum(unpaid, ym)
    }

    /** The paid bill of month ym: the total of exactly the paid entries of that month. */
    function GetPaidBillAmount(ym: YearMonth): (r: nat)
      reads this
      ensures r == MonthSum(Matching(paid, ym), ym)
    {
      SplitMonthSums(paid, ym, ym);
      MonthSum(paid, ym)
    }

    /**
     * Bill cycle: moves every unpaid expenditure of month cardDate to the
     * paid list, one at a time, querying the first match afresh after each
     * delete because the later entries shift up.
     */
    method TransferExpUnpaidToPaid(cardDate: YearMonth)
      modifies this`unpaid, this`paid
      ensures unpaid == NotMatching(old(unpaid), cardDate)
      ensures paid == old(paid) + Matching(old(unpaid), cardDate)
      ensures old(UnpaidWithinLimit()) ==> UnpaidWithinLimit()
    {
      ghost var src0, dst0 := unpaid, paid;
      ghost var moved: seq<Txn> := [];
      var i := 0;
      while i < |unpaid|
        invariant 0 <= i
        invariant i > 0 ==> FindByYearMonth(unpaid, cardDate) == NotFound
        invariant moved + Matching(unpaid, cardDate) == Matching(src0, cardDate)
        invariant NotMatching(unpaid, cardDate) == NotMatching(src0, cardDate)
        invariant paid == dst0 + moved
        decreases |unpaid| - i
      {
        var id := FindByYearMonth(unpaid, cardDate);
        if id != NotFound {
          var exp := unpaid[id];
          paid := Add(paid, exp);
          TransferStep(unpaid, moved, cardDate, id);
          unpaid := Delete(unpaid, id + OneArrayIndex).value;
          moved := moved + [exp];
          i := i - OneArrayIndex;
        }
        i := i + 1;
      }
      NoMatchLeavesAll(unpaid, cardDate);
      if WithinLimit(old(unpaid), limit) {
        TransferOutKeepsWithinLimit(limit, old(unpaid), cardDate);
      }
    }

    /**
     * Reversal of a bill cycle: moves every paid expenditure of month
     * cardDate back to the unpaid list, with no limit check.
     */
    method TransferExpPaidToUnpaid(cardDate: YearMonth)
      modifies this`unpaid, this`paid
      ensures paid == NotMatching(old(paid), cardDate)
      ensures unpaid == old(unpaid) + Matching(old(paid), cardDate)
    {
      ghost var src0, dst0 := paid, unpaid;
      ghost var moved: seq<Txn> := [];
      var i := 0;
      while i < |paid|
        invariant 0 <= i
        invariant i > 0 ==> FindByYearMonth(paid, cardDate) == NotFound
        invariant moved + Matching(paid, cardDate) == Matching(src0, cardDate)
        invariant NotMatching(paid, cardDate) == NotMatching(src0, cardDate)
        invariant unpaid == dst0 + moved
        decreases |paid| - i
      {
        var id := FindByYearMonth(paid, cardDate);
        if id != NotFound {
          var exp := paid[id];
          unpaid := Add(unpaid, exp);
          TransferStep(paid, moved, cardDate, id);
          paid := Delete(paid, id + OneArrayIndex).value;
          moved := moved + [exp];
          i := i - OneArrayIndex;
        }
        i := i + 1;
      }
      NoMatchLeavesAll(paid, cardDate);
    }
  }

  /**
   * A card with a 500.00 limit: 300.00 in March 2024 leaves 200.00, and a
   * further 250.00 is refused and changes nothing.
   */
  method AddScenario() {
    var march := YearMonth(2024, 3);
    var card := new Card("visa", 50000, 1.5);
    var laptop := Txn("laptop", 30000, Date(2024, 3, 5), "tech");
    var r := card.AddInExpenditure(laptop);
    assert r == Pass && card.unpaid == [laptop];
    assert [laptop][1..] == [];
    assert card.GetRemainingLimitNow(march) == 20000;

    r := card.AddInExpenditure(Txn("phone", 25000, Date(2024, 3, 5), "tech"));
    assert r == Fail(LimitExceeded) && card.unpaid == [laptop];
    assert card.GetRemainingLimitNow(march) == 20000;
  }

  /** A fresh card with a 500.00 limit holding 300.00 and then 100.00 of March 2024 expenditure. */
  method MarchCard() returns (card: Card)
    ensures fresh(card) && card.limit == 50000 && card.paid == []
    ensures card.unpaid == [Txn("laptop", 30000, Date(2024, 3, 5), "tech"),
                            Txn("dinner", 10000, Date(2024, 3, 5), "food")]
  {
    var laptop := Txn("laptop", 30000, Date(2024, 3, 5), "tech");
    var dinner := Txn("dinner", 10000, Date(2024, 3, 5), "food");
    card := new Card("visa", 50000, 1.5);
    var r := card.AddInExpenditure(laptop);
    assert r == Pass && card.unpaid == [laptop];
    assert MonthSum([laptop], dinner.date.Month()) == 30000 by { assert [laptop][1..] == []; }
    r := card.AddInExpenditure(dinner);
    assert r == Pass;
  }

  /**
   * With 400.00 of a 500.00 limit spent in March 2024, the 100.00 entry can
   * be edited up to 150.00: its own 100.00 is added back before the check.
   */
  method EditScenario() {
    var march := YearMonth(2024, 3);
    var card := MarchCard();
    var laptop := Txn("laptop", 30000, Date(2024, 3, 5), "tech");
    var dinner := Txn("dinner", 10000, Date(2024, 3, 5), "food");
    assert MonthSum(card.unpaid, march) == 40000 by {
      assert card.unpaid[1..] == [dinner] && [dinner][1..] == [];
    }

    var bigDinner := Txn("dinner", 15000, Date(2024, 3, 5), "food");
    assert Edit([laptop, dinner], 2, None, Some(15000), None, None) == Ok([laptop, bigDinner]) by {
      assert Amend(dinner, None, Some(15000), None, None) == bigDinner;
      assert [laptop, dinner][1 := bigDinner] == [laptop, bigDinner];
    }
    var r := card.EditExpenditureDetails(2, None, Some(15000), None, None);
    assert r == Pass && card.unpaid == [laptop, bigDinner];
    assert MonthSum([bigDinner], march) == 15000 by { assert [bigDinner][1..] == []; }
    assert MonthSum(card.unpaid, march) == 45000 by { assert card.unpaid[1..] == [bigDinner]; }
    assert card.GetRemainingLimitNow(march) == 5000;

    r := card.EditExpenditureDetails(3, None, Some(100), None, None);
    assert r == Fail(InvalidIndex);
  }

  /** A fresh card whose unpaid list holds a March and an April 2024 expenditure, added in that order. */
  method TwoMonthCard() returns (card: Card)
    ensures fresh(card) && card.paid == []
    ensures card.unpaid == [Txn("groceries", 8000, Date(2024, 3, 1), "food"),
                            Txn("taxi", 2000, Date(2024, 4, 1), "transport")]
  {
    var groceries := Txn("groceries", 8000, Date(2024, 3, 1), "food");
    var taxi := Txn("taxi", 2000, Date(2024, 4, 1), "transport");
    card := new Card("visa", 50000, 1.5);
    var r := card.AddInExpenditure(groceries);
    assert r == Pass && card.unpaid == [groceries];
    assert MonthSum([groceries], taxi.date.Month()) == 0 by { assert [groceries][1..] == []; }
    r := card.AddInExpenditure(taxi);
    assert r == Pass;
  }

  /** The March bill cycle moves only the March entry. */
  method BillCycleScenario() {
    var march, april := YearMonth(2024, 3), YearMonth(2024, 4);
    var groceries := Txn("groceries", 8000, Date(2024, 3, 1), "food");
    var taxi := Txn("taxi", 2000, Date(2024, 4, 1), "transport");
    var card := TwoMonthCard();
    assert NotMatching([groceries, taxi], march) == [taxi] by {
      assert [groceries, taxi][1..] == [taxi] && [taxi][1..] == [];
      assert NotMatching([taxi], march) == [taxi] + NotMatching([], march);
    }
    assert Matching([groceries, taxi], march) == [groceries] by {
      assert [groceries, taxi][1..] == [taxi] && [taxi][1..] == [];
      assert Matching([taxi], march) == Matching([], march);
    }
    card.TransferExpUnpaidToPaid(march);
    assert card.unpaid == [taxi] && card.paid == [groceries];
    assert card.GetPaidBillAmount(march) == 8000 by { assert [groceries][1..] == []; }
    assert card.GetUnpaidBillAmount(march) == 0 && card.GetUnpaidBillAmount(april) == 2000 by {
      assert [taxi][1..] == [];
    }
  }
}
