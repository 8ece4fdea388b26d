/** The ledger evaluator of AccountService: the per-transaction step
    `calculateNetBalance` and the specification of the balance fold that
    `calculateBalance` runs over the stored transaction ids. Amounts are
    whole numbers (cents, say), so every statement here is exact. */
module Ledger {
  import opened Options

  /** The constants of the transaction-type enum the step recognises.
      `Other` stands for any further constant; the enum's full list is not
      part of this model. A null type is `None` in `Option<TransactionType>`. */
  datatype TransactionType = Income | Expence | Other(name: string)

  /** A stored transaction: its id, the id of the account it belongs to,
      its amount and its (possibly null) type. */
  datatype Transaction = Transaction(id: int, accountId: int, amount: int, kind: Option<TransactionType>)

  /** Reference definition: the signed amount a transaction adds to a balance. */
  function Contribution(kind: Option<TransactionType>, amount: int): int
  {
    match kind
    case Some(Income) => amount
    case Some(Expence) => -amount
    case _ => 0
  }

  /** `calculateNetBalance`: one step of the balance fold. */
  function NetBalance(budget: int, kind: Option<TransactionType>, amount: int): (r: int)
    ensures kind == Some(Income) ==> r == budget + amount
    ensures kind == Some(Expence) ==> r == budget - amount
    ensures kind != Some(Income) && kind != Some(Expence) ==> r == budget
    ensures r - budget == Contribution(kind, amount)
  {
    if kind == Some(Income) then budget + amount
    else if kind == Some(Expence) then budget - amount
    else budget
  }

  /** `Objects.isNull(initialValue) ? 0 : initialValue`. */
  function InitialValue(initial: Option<int>): (r: int)
    ensures initial.None? ==> r == 0
    ensures initial.Some? ==> r == initial.value
  {
    if initial.None? then 0 else initial.value
  }

  /** The fold takes transaction `id` into account: its lookup is present
      and the transaction's account id equals the view's id (a view with a
      null id matches nothing). */
  predicate Counts(id: int, txs: map<int, Transaction>, account: Option<int>)
  {
    id in txs && Some(txs[id].accountId) == account
  }

  /** What transaction `id` adds to the balance of `account`. */
  function Effect(id: int, txs: map<int, Transaction>, account: Option<int>): int
  {
    if Counts(id, txs, account) then Contribution(txs[id].kind, txs[id].amount) else 0
  }

  /** The present transactions of `account`, in the order of `ids`. */
  function Matching(ids: seq<int>, txs: map<int, Transaction>, account: Option<int>): (r: seq<Transaction>)
    ensures |r| <= |ids|
    ensures forall t :: t in r ==> exists i :: 0 <= i < |ids| && Counts(ids[i], txs, account) && txs[ids[i]] == t
    decreases |ids|
  {
    if |ids| == 0 then []
    else
      var last := ids[|ids| - 1];
      Matching(ids[..|ids| - 1], txs, account) + (if Counts(last, txs, account) then [txs[last]] else [])
  }

  /** Every listed id whose lookup is present and whose transaction belongs
      to the account contributes its transaction to `Matching`. */
  lemma {:induction false} MatchingComplete(ids: seq<int>, txs: map<int, Transaction>, account: Option<int>, i: int)
    requires 0 <= i < |ids| && Counts(ids[i], txs, account)
    ensures txs[ids[i]] in Matching(ids, txs, account)
    decreases |ids|
  {
    if i < |ids| - 1 {
      MatchingComplete(ids[..|ids| - 1], txs, account, i);
    }
  }

  /** Sum of the amounts of the `INCOME` transactions in `ts`. */
  function IncomeTotal(ts: seq<Transaction>): int
    decreases |ts|
  {
    if |ts| == 0 then 0
    else IncomeTotal(ts[..|ts| - 1]) + (if ts[|ts| - 1].kind == Some(Income) then ts[|ts| - 1].amount else 0)
  }

  /** Sum of the amounts of the `EXPENCE` transactions in `ts`. */
  function ExpenceTotal(ts: seq<Transaction>): int
    decreases |ts|
  {
    if |ts| == 0 then 0
    else ExpenceTotal(ts[..|ts| - 1]) + (if ts[|ts| - 1].kind == Some(Expence) then ts[|ts| - 1].amount else 0)
  }

  lemma TotalsAppend(ts: seq<Transaction>, t: Transaction)
    ensures IncomeTotal(ts + [t]) == IncomeTotal(ts) + (if t.kind == Some(Income) then t.amount else 0)
    ensures ExpenceTotal(ts + [t]) == ExpenceTotal(ts) + (if t.kind == Some(Expence) then t.amount else 0)
  {
    assert (ts + [t])[..|ts + [t]| - 1] == ts;
  }

  /** One more id adds its effect to the income-minus-expence totals. */
  lemma TotalsStep(ids: seq<int>, txs: map<int, Transaction>, account: Option<int>)
    requires |ids| > 0
    ensures IncomeTotal(Matching(ids, txs, account)) - ExpenceTotal(Matching(ids, txs, account))
         == IncomeTotal(Matching(ids[..|ids| - 1], txs, account)) - ExpenceTotal(Matching(ids[..|ids| - 1], txs, account))
            + Effect(ids[|ids| - 1], txs, account)
  {
    var prefix, last := ids[..|ids| - 1], ids[|ids| - 1];
    if Counts(last, txs, account) {
      TotalsAppend(Matching(prefix, txs, account), txs[last]);
    } else {
      assert Matching(ids, txs, account) == Matching(prefix, txs, account);
    }
  }

  /** The signed sum over a list of transaction ids, built up from the left
      as the loop of `calculateBalance` visits them: the `INCOME` amounts
      minus the `EXPENCE` amounts of exactly the present transactions of
      the account. */
  function SignedSum(ids: seq<int>, txs: map<int, Transaction>, account: Option<int>): (r: int)
    ensures r == IncomeTotal(Matching(ids, txs, account)) - ExpenceTotal(Matching(ids, txs, account))
    decreases |ids|
  {
    if |ids| == 0 then 0
    else
      TotalsStep(ids, txs, account);
      SignedSum(ids[..|ids| - 1], txs, account) + Effect(ids[|ids| - 1], txs, account)
  }

  /** The value `calculateBalance` stores in `calculatedBalance`: the
      initial value (0 when null) plus the `INCOME` amounts minus the
      `EXPENCE` amounts of exactly the present transactions of the account. */
  function Balance(initial: Option<int>, ids: seq<int>, txs: map<int, Transaction>, account: Option<int>): (r: int)
    ensures r == InitialValue(initial) + IncomeTotal(Matching(ids, txs, account)) - ExpenceTotal(Matching(ids, txs, account))
  {
    InitialValue(initial) + SignedSum(ids, txs, account)
  }

  /** A null initial value gives the same balance as an initial value 0. */
  lemma NullInitialIsZero(ids: seq<int>, txs: map<int, Transaction>, account: Option<int>)
    ensures Balance(None, ids, txs, account) == Balance(Some(0), ids, txs, account)
  {
  }

  /** Ids whose lookup is empty and transactions of other accounts
      contribute nothing: with no counted id the balance is the initial value. */
  lemma {:induction false} NoMatchKeepsInitial(initial: Option<int>, ids: seq<int>, txs: map<int, Transaction>, account: Option<int>)
    requires forall i :: 0 <= i < |ids| ==> !Counts(ids[i], txs, account)
    ensures Balance(initial, ids, txs, account) == InitialValue(initial)
    decreases |ids|
  {
    if |ids| > 0 {
      NoMatchKeepsInitial(initial, ids[..|ids| - 1], txs, account);
    }
  }

  lemma {:induction false} SignedSumConcat(a: seq<int>, b: seq<int>, txs: map<int, Transaction>, account: Option<int>)
    ensures SignedSum(a + b, txs, account) == SignedSum(a, txs, account) + SignedSum(b, txs, account)
    decreases |b|
  {
    if |b| == 0 {
      assert a + b == a;
    } else {
      var b' := b[..|b| - 1];
      assert (a + b)[..|a + b| - 1] == a + b';
      SignedSumConcat(a, b', txs, account);
    }
  }

  /** Taking one id out of a list takes its effect out of the signed sum. */
  lemma SignedSumRemoveAt(b: seq<int>, j: int, txs: map<int, Transaction>, account: Option<int>)
    requires 0 <= j < |b|
    ensures SignedSum(b, txs, account)
         == SignedSum(b[..j] + b[j + 1..], txs, account) + Effect(b[j], txs, account)
  {
    assert b == b[..j] + [b[j]] + b[j + 1..];
    SignedSumConcat(b[..j] + [b[j]], b[j + 1..], txs, account);
    SignedSumConcat(b[..j], [b[j]], txs, account);
    SignedSumConcat(b[..j], b[j + 1..], txs, account);
    assert [b[j]][..0] == [];
  }

  /** Inserting an id that does not count (empty lookup, or a transaction
      of another account) anywhere in the list leaves the balance unchanged. */
  lemma IgnoredIdContributesNothing(u: seq<int>, x: int, v: seq<int>, txs: map<int, Transaction>, account: Option<int>)
    requires !Counts(x, txs, account)
    ensures SignedSum(u + [x] + v, txs, account) == SignedSum(u + v, txs, account)
  {
    var b := u + [x] + v;
    assert b[..|u|] == u && b[|u| + 1..] == v;
    SignedSumRemoveAt(b, |u|, txs, account);
  }

  lemma MultisetRemoveAt(b: seq<int>, j: int)
    requires 0 <= j < |b|
    ensures multiset(b[..j] + b[j + 1..]) == multiset(b) - multiset{b[j]}
  {
    assert b == b[..j] + [b[j]] + b[j + 1..];
  }

  /** The final balance does not depend on the order of the id list. */
  lemma {:induction false} BalanceIgnoresOrder(initial: Option<int>, a: seq<int>, b: seq<int>, txs: map<int, Transaction>, account: Option<int>)
    requires multiset(a) == multiset(b)
    ensures Balance(initial, a, txs, account) == Balance(initial, b, txs, account)
    decreases |a|
  {
    if |a| == 0 {
      assert |b| == |multiset(b)| == 0;
    } else {
      var x, a' := a[|a| - 1], a[..|a| - 1];
      assert x in multiset(b) by {
        assert a == a' + [x];
      }
      var j :| 0 <= j < |b| && b[j] == x;
      MultisetRemoveAt(a, |a| - 1);
      assert a[..|a| - 1] + a[|a|..] == a';
      MultisetRemoveAt(b, j);
      BalanceIgnoresOrder(initial, a', b[..j] + b[j + 1..], txs, account);
      SignedSumRemoveAt(b, j, txs, account);
    }
  }

}
