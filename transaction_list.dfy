/**
 * The ordered list of expenditures a card keeps twice (unpaid and paid),
 * reduced to the operations a card calls on it. Positions handed to
 * delete and edit are 1-based; the year-month search answers a 0-based
 * position, or NotFound. New entries are appended at the end.
 */
module TransactionLists {
  import opened Wrappers
  import opened Transactions

  /** What the year-month search answers when no entry matches. */
  const NotFound: int := -1

  /** Total of the amounts of the entries that fall in month ym, rescanned on every call. */
  function MonthSum(s: seq<Txn>, ym: YearMonth): (r: nat)
    ensures (forall i | 0 <= i < |s| :: !s[i].InMonth(ym)) ==> r == 0
    ensures forall i | 0 <= i < |s| && s[i].InMonth(ym) :: s[i].amount <= r
  {
    if s == [] then 0
    else
      var rest := MonthSum(s[1..], ym);
      assert forall i | 1 <= i < |s| :: s[i] == s[1..][i - 1];
      s[0].AmountIn(ym) + rest
  }

  /** Adds an entry after all the others; no limit is enforced here. */
  function Add(s: seq<Txn>, t: Txn): (r: seq<Txn>)
    ensures |r| == |s| + 1 && r[|s|] == t
    ensures forall i | 0 <= i < |s| :: r[i] == s[i]
    ensures multiset(r) == multiset(s) + multiset{t}
  {
    s + [t]
  }

  /** Removes the entry at 1-based position index; the later entries move up by one. */
  function Delete(s: seq<Txn>, index: int): (r: Result<seq<Txn>, Error>)
    ensures r.Ok? <==> 1 <= index <= |s|
    ensures r.Err? ==> r.error == InvalidIndex
    ensures r.Ok? ==> |r.value| == |s| - 1
    ensures r.Ok? ==> forall i | 0 <= i < index - 1 :: r.value[i] == s[i]
    ensures r.Ok? ==> forall i | index - 1 <= i < |r.value| :: r.value[i] == s[i + 1]
    ensures r.Ok? ==> multiset(r.value) + multiset{s[index - 1]} == multiset(s)
  {
    if 1 <= index <= |s| then
      assert s == s[..index - 1] + [s[index - 1]] + s[index..];
      Ok(s[..index - 1] + s[index..])
    else
      Err(InvalidIndex)
  }

  /** The entry t with every field that is given replaced. */
  function Amend(t: Txn, description: Option<string>, amount: Option<nat>,
                 date: Option<Date>, category: Option<string>): Txn
  {
    Txn(description.GetOr(t.description), amount.GetOr(t.amount),
        date.GetOr(t.date), category.GetOr(t.category))
  }

  /** Edits the entry at 1-based position index; a field left blank keeps its value. */
  function Edit(s: seq<Txn>, index: int, description: Option<string>, amount: Option<nat>,
                date: Option<Date>, category: Option<string>): (r: Result<seq<Txn>, Error>)
    ensures r.Ok? <==> 1 <= index <= |s|
    ensures r.Err? ==> r.error == InvalidIndex
    ensures r.Ok? ==> |r.value| == |s|
    ensures r.Ok? ==> forall i | 0 <= i < |s| && i != index - 1 :: r.value[i] == s[i]
    ensures r.Ok? ==>
      && r.value[index - 1].description == (if description.Some? then description.value else s[index - 1].description)
      && r.value[index - 1].amount == (if amount.Some? then amount.value else s[index - 1].amount)
      && r.value[index - 1].date == (if date.Some? then date.value else s[index - 1].date)
      && r.value[index - 1].category == (if category.Some? then category.value else s[index - 1].category)
  {
    if 1 <= index <= |s| then
      Ok(s[index - 1 := Amend(s[index - 1], description, amount, date, category)])
    else
      Err(InvalidIndex)
  }

  /** 0-based position of the first entry in month ym, or NotFound. */
  function FindByYearMonth(s: seq<Txn>, ym: YearMonth): (r: int)
    ensures r == NotFound <==> forall i | 0 <= i < |s| :: !s[i].InMonth(ym)
    ensures r != NotFound ==> 0 <= r < |s| && s[r].InMonth(ym)
    ensures r != NotFound ==> forall i | 0 <= i < r :: !s[i].InMonth(ym)
  {
    if s == [] then NotFound
    else if s[0].InMonth(ym) then 0
    else
      var k := FindByYearMonth(s[1..], ym);
      assert forall i | 1 <= i < |s| :: s[i] == s[1..][i - 1];
      if k == NotFound then NotFound else k + 1
  }

  /** The entries of month ym, in list order. */
  function Matching(s: seq<Txn>, ym: YearMonth): (r: seq<Txn>)
    ensures forall t | t in r :: t.InMonth(ym)
  {
    if s == [] then []
    else
      assert s == [s[0]] + s[1..];
      if s[0].InMonth(ym) then [s[0]] + Matching(s[1..], ym) else Matching(s[1..], ym)
  }

  /** The entries of every other month, in list order. */
  function NotMatching(s: seq<Txn>, ym: YearMonth): (r: seq<Txn>)
    ensures forall t | t in r :: !t.InMonth(ym)
  {
    if s == [] then []
    else
      assert s == [s[0]] + s[1..];
      if s[0].InMonth(ym) then NotMatching(s[1..], ym) else [s[0]] + NotMatching(s[1..], ym)
  }

  /** A total over two lists put together is the sum of their totals. */
  lemma {:induction false} MonthSumConcat(a: seq<Txn>, b: seq<Txn>, ym: YearMonth)
    ensures MonthSum(a + b, ym) == MonthSum(a, ym) + MonthSum(b, ym)
  {
    if a != [] {
      assert (a + b)[1..] == a[1..] + b;
      MonthSumConcat(a[1..], b, ym);
    } else {
      assert a + b == b;
    }
  }

  /** Adding an entry raises the total of its own month by its amount and no other total. */
  lemma MonthSumAdd(s: seq<Txn>, t: Txn, ym: YearMonth)
    ensures MonthSum(Add(s, t), ym) == MonthSum(s, ym) + t.AmountIn(ym)
  {
    MonthSumConcat(s, [t], ym);
  }

  /** Deleting an entry lowers the total of its own month by its amount and no other total. */
  lemma MonthSumDelete(s: seq<Txn>, index: int, ym: YearMonth)
    requires 1 <= index <= |s|
    ensures MonthSum(Delete(s, index).value, ym) + s[index - 1].AmountIn(ym) == MonthSum(s, ym)
  {
    var k := index - 1;
    assert s == s[..k] + ([s[k]] + s[k + 1..]);
    MonthSumConcat(s[..k], [s[k]] + s[k + 1..], ym);
    MonthSumConcat([s[k]], s[k + 1..], ym);
    MonthSumConcat(s[..k], s[k + 1..], ym);
  }

  /** Replacing the entry at position k swaps its contribution to every monthly total. */
  lemma {:induction false} MonthSumUpdate(s: seq<Txn>, k: nat, t: Txn, ym: YearMonth)
    requires k < |s|
    ensures MonthSum(s[k := t], ym) + s[k].AmountIn(ym) == MonthSum(s, ym) + t.AmountIn(ym)
  {
    if k > 0 {
      assert s[k := t][1..] == s[1..][k - 1 := t];
      MonthSumUpdate(s[1..], k - 1, t, ym);
    } else {
      assert s[k := t][1..] == s[1..];
    }
  }

  /** Every entry lands in exactly one of Matching and NotMatching. */
  lemma {:induction false} SplitPartitions(s: seq<Txn>, ym: YearMonth)
    ensures multiset(Matching(s, ym)) + multiset(NotMatching(s, ym)) == multiset(s)
    ensures |Matching(s, ym)| + |NotMatching(s, ym)| == |s|
  {
    if s != [] {
      assert s == [s[0]] + s[1..];
      SplitPartitions(s[1..], ym);
    }
  }

  /** Month ym's total lives wholly in Matching; every other month's wholly in NotMatching. */
  lemma {:induction false} SplitMonthSums(s: seq<Txn>, ym: YearMonth, other: YearMonth)
    ensures MonthSum(Matching(s, ym), other) == if other == ym then MonthSum(s, ym) else 0
    ensures MonthSum(NotMatching(s, ym), other) == if other == ym then 0 else MonthSum(s, other)
  {
    if s != [] {
      SplitMonthSums(s[1..], ym, other);
      if s[0].InMonth(ym) {
        MonthSumConcat([s[0]], Matching(s[1..], ym), other);
      } else {
        MonthSumConcat([s[0]], NotMatching(s[1..], ym), other);
      }
    }
  }

  /** When the search finds nothing, the list has no entry of month ym. */
  lemma {:induction false} NoMatchLeavesAll(s: seq<Txn>, ym: YearMonth)
    requires FindByYearMonth(s, ym) == NotFound
    ensures Matching(s, ym) == [] && NotMatching(s, ym) == s
  {
    if s != [] {
      assert !s[0].InMonth(ym);
      assert forall i | 0 <= i < |s| - 1 :: s[1..][i] == s[i + 1];
      NoMatchLeavesAll(s[1..], ym);
      assert s == [s[0]] + s[1..];
    }
  }

  /**
   * Deleting the entry the search found (at 0-based position id, so 1-based
   * id + 1) takes the first entry of Matching and leaves NotMatching alone.
   */
  lemma {:induction false} DeleteFirstMatch(s: seq<Txn>, ym: YearMonth, id: int)
    requires id == FindByYearMonth(s, ym) && id != NotFound
    ensures Delete(s, id + 1).Ok?
    ensures Matching(s, ym) == [s[id]] + Matching(Delete(s, id + 1).value, ym)
    ensures NotMatching(Delete(s, id + 1).value, ym) == NotMatching(s, ym)
  {
    if id == 0 {
      assert Delete(s, 1).value == s[1..];
    } else {
      var k := FindByYearMonth(s[1..], ym);
      assert id == k + 1;
      DeleteFirstMatch(s[1..], ym, k);
      var rest := Delete(s[1..], k + 1).value;
      assert Delete(s, id + 1).value == [s[0]] + rest;
      assert ([s[0]] + rest)[1..] == rest;
    }
  }
}
