/**
  The funds-transfer ledger as values: the balances of all registered accounts
  as a map from account id to balance, one transfer as a function on that map,
  the total of all balances, and the lock order a transfer uses.

  Amounts are whole units of currency (the Java code keeps them in a double).
*/
module Ledger {

  /** Account id to balance, for every registered account. */
  type Balances = map<int, int>

  /** What one transferMoney call reports. */
  datatype TransferOutcome = Transferred | InvalidAccount | InsufficientFunds

  datatype TransferRequest = TransferRequest(fromId: int, toId: int, amount: int)

  /** The id of the account whose lock transferMoney takes first: the lower of the two. */
  function FirstLock(fromId: int, toId: int): int
  {
    if fromId < toId then fromId else toId
  }

  /** The id of the account whose lock transferMoney takes second. */
  function SecondLock(fromId: int, toId: int): int
  {
    if fromId < toId then toId else fromId
  }

  /**
    One transferMoney step: an unknown id on either side changes nothing; a
    withdrawal the sending balance does not cover changes nothing; otherwise
    the amount is withdrawn from the sending account and then deposited to the
    destination (which, for a self-transfer, is the same account).
  */
  function Transfer(b: Balances, fromId: int, toId: int, amount: int): (Balances, TransferOutcome)
  {
    if fromId !in b || toId !in b then (b, InvalidAccount)
    else if b[fromId] < amount then (b, InsufficientFunds)
    else
      var afterWithdraw := b[fromId := b[fromId] - amount];
      (afterWithdraw[toId := afterWithdraw[toId] + amount], Transferred)
  }

  /** The balances after running the requests one after another. */
  function TransferAll(b: Balances, reqs: seq<TransferRequest>): Balances
    decreases |reqs|
  {
    if reqs == [] then b
    else TransferAll(Transfer(b, reqs[0].fromId, reqs[0].toId, reqs[0].amount).0, reqs[1..])
  }

  // ---------------------------------------------------------------------------
  // The total of all balances

  /** The sum of the balances of the accounts in ids. */
  ghost function SumOver(b: Balances, ids: set<int>): int
    requires ids <= b.Keys
    decreases ids
  {
    if exists k :: k in ids then var k :| k in ids; b[k] + SumOver(b, ids - {k}) else 0
  }

  /** The sum of all balances in the ledger. */
  ghost function Total(b: Balances): int
  {
    SumOver(b, b.Keys)
  }

  /** Any account of ids can be taken out of the sum first. */
  lemma {:induction false} SumOverRemove(b: Balances, ids: set<int>, k: int)
    requires ids <= b.Keys && k in ids
    ensures SumOver(b, ids) == b[k] + SumOver(b, ids - {k})
    decreases ids
  {
    var j :| j in ids && SumOver(b, ids) == b[j] + SumOver(b, ids - {j});
    if j != k {
      SumOverRemove(b, ids - {j}, k);
      SumOverRemove(b, ids - {k}, j);
      assert ids - {j} - {k} == ids - {k} - {j};
    }
  }

  /** Two ledgers that agree on the balances of ids have the same sum over ids. */
  lemma {:induction false} SumOverAgree(b1: Balances, b2: Balances, ids: set<int>)
    requires ids <= b1.Keys && ids <= b2.Keys
    requires forall i :: i in ids ==> b1[i] == b2[i]
    ensures SumOver(b1, ids) == SumOver(b2, ids)
    decreases ids
  {
    if exists k :: k in ids {
      var k :| k in ids && SumOver(b1, ids) == b1[k] + SumOver(b1, ids - {k});
      SumOverRemove(b2, ids, k);
      SumOverAgree(b1, b2, ids - {k});
    }
  }

  /** Setting one balance to v changes the total by v minus the old balance. */
  lemma TotalUpdate(b: Balances, k: int, v: int)
    requires k in b
    ensures Total(b[k := v]) == Total(b) - b[k] + v
  {
    var b' := b[k := v];
    assert b'.Keys == b.Keys;
    SumOverRemove(b, b.Keys, k);
    SumOverRemove(b', b.Keys, k);
    SumOverAgree(b, b', b.Keys - {k});
  }

  // ---------------------------------------------------------------------------
  // Properties of one transfer

  /**
    The outcomes of a transfer and their effects: an unknown id reports
    InvalidAccount and an uncovered amount reports InsufficientFunds, both with
    no balance changed; a covered amount moves from the sending account to the
    destination, and a self-transfer leaves its account as it was. No other
    account and no id is ever touched.
  */
  lemma TransferEffect(b: Balances, fromId: int, toId: int, amount: int)
    ensures var (b', outcome) := Transfer(b, fromId, toId, amount);
      && b'.Keys == b.Keys
      && (outcome == InvalidAccount <==> fromId !in b || toId !in b)
      && (outcome == InsufficientFunds <==> fromId in b && toId in b && b[fromId] < amount)
      && (outcome != Transferred ==> b' == b)
      && (outcome == Transferred && fromId != toId ==>
            b'[fromId] == b[fromId] - amount && b'[toId] == b[toId] + amount)
      && (outcome == Transferred && fromId == toId ==> b'[fromId] == b[fromId])
      && (forall id :: id in b && id != fromId && id != toId ==> b'[id] == b[id])
  {
  }

  /** Conservation: no transfer, successful or not, changes the total of all balances. */
  lemma TransferConservesTotal(b: Balances, fromId: int, toId: int, amount: int)
    ensures Total(Transfer(b, fromId, toId, amount).0) == Total(b)
  {
    if fromId in b && toId in b && b[fromId] >= amount {
      var afterWithdraw := b[fromId := b[fromId] - amount];
      TotalUpdate(b, fromId, b[fromId] - amount);
      TotalUpdate(afterWithdraw, toId, afterWithdraw[toId] + amount);
    }
  }

  /** Conservation over any sequence of transfers, whichever of them succeed. */
  lemma {:induction false} TransferAllConservesTotal(b: Balances, reqs: seq<TransferRequest>)
    ensures Total(TransferAll(b, reqs)) == Total(b)
    ensures TransferAll(b, reqs).Keys == b.Keys
    decreases |reqs|
  {
    if reqs != [] {
      var r := reqs[0];
      TransferConservesTotal(b, r.fromId, r.toId, r.amount);
      TransferEffect(b, r.fromId, r.toId, r.amount);
      TransferAllConservesTotal(Transfer(b, r.fromId, r.toId, r.amount).0, reqs[1..]);
    }
  }

  /** With no negative balance and an amount that is not negative, no transfer makes a balance negative. */
  lemma TransferKeepsNonNegative(b: Balances, fromId: int, toId: int, amount: int)
    requires forall id :: id in b ==> b[id] >= 0
    requires amount >= 0
    ensures var b' := Transfer(b, fromId, toId, amount).0; forall id :: id in b' ==> b'[id] >= 0
  {
  }

  /**
    The Java code does not reject a negative amount: the withdrawal then always
    succeeds on a balance that is not negative and the deposit takes money
    away, so the destination can end up negative.
  */
  lemma NegativeAmountOverdrawsDestination()
    ensures Transfer(map[1 := 0, 2 := 0], 1, 2, -5) == (map[1 := 5, 2 := -5], Transferred)
  {
    var b := map[1 := 0, 2 := 0];
    assert Transfer(b, 1, 2, -5).0 == b[1 := 5][2 := -5] == map[1 := 5, 2 := -5];
  }

  // ---------------------------------------------------------------------------
  // Lock order

  /**
    The lock order is canonical: the lower id first, independent of which
    account is the sender, and the two locks are exactly the two accounts.
  */
  lemma LockOrderCanonical(fromId: int, toId: int)
    ensures FirstLock(fromId, toId) <= SecondLock(fromId, toId)
    ensures FirstLock(fromId, toId) == FirstLock(toId, fromId)
    ensures SecondLock(fromId, toId) == SecondLock(toId, fromId)
    ensures multiset{FirstLock(fromId, toId), SecondLock(fromId, toId)} == multiset{fromId, toId}
    ensures fromId == toId ==> FirstLock(fromId, toId) == SecondLock(fromId, toId) == fromId
  {
  }

  function FirstLockOf(t: TransferRequest): int
  {
    FirstLock(t.fromId, t.toId)
  }

  function SecondLockOf(t: TransferRequest): int
  {
    SecondLock(t.fromId, t.toId)
  }

  /**
    A circular wait among transfers in progress: each holds its first lock and
    waits for its second, a different account (a self-transfer takes the same
    reentrant lock twice and never waits on itself), and that second lock is
    the first lock of the next transfer around the ring.
  */
  ghost predicate CircularWait(ts: seq<TransferRequest>)
  {
    && |ts| > 0
    && (forall i :: 0 <= i < |ts| ==> FirstLockOf(ts[i]) != SecondLockOf(ts[i]))
    && (forall i :: 0 <= i < |ts| - 1 ==> SecondLockOf(ts[i]) == FirstLockOf(ts[i + 1]))
    && SecondLockOf(ts[|ts| - 1]) == FirstLockOf(ts[0])
  }

  /** Along a chain of waits, the first locks strictly increase. */
  lemma {:induction false} WaitChainIncreases(ts: seq<TransferRequest>, k: nat)
    requires 0 < k < |ts|
    requires forall i :: 0 <= i < |ts| ==> FirstLockOf(ts[i]) != SecondLockOf(ts[i])
    requires forall i :: 0 <= i < |ts| - 1 ==> SecondLockOf(ts[i]) == FirstLockOf(ts[i + 1])
    ensures FirstLockOf(ts[0]) < FirstLockOf(ts[k])
  {
    LockOrderCanonical(ts[k - 1].fromId, ts[k - 1].toId);
    if k > 1 {
      WaitChainIncreases(ts, k - 1);
    }
  }

  /** Deadlock freedom: because every transfer locks in ascending id order, no circular wait can arise. */
  lemma NoCircularWait(ts: seq<TransferRequest>)
    ensures !CircularWait(ts)
  {
    if CircularWait(ts) {
      var n := |ts| - 1;
      LockOrderCanonical(ts[n].fromId, ts[n].toId);
      if n > 0 {
        WaitChainIncreases(ts, n);
      }
      assert false;
    }
  }

  // ---------------------------------------------------------------------------
  // The demonstration scenario

  const DemoAccounts: Balances := map[101 := 1000, 102 := 2000, 103 := 1500]
  const DemoFinal: Balances := map[101 := 900, 102 := 1800, 103 := 1800]

  const T1 := TransferRequest(101, 102, 300)
  const T2 := TransferRequest(102, 103, 500)
  const T3 := TransferRequest(103, 101, 200)

  /** The demo balances once the demo transfers flagged as done have run, in whatever order. */
  function DemoState(done1: bool, done2: bool, done3: bool): Balances
  {
    map[101 := 1000 - (if done1 then 300 else 0) + (if done3 then 200 else 0),
        102 := 2000 + (if done1 then 300 else 0) - (if done2 then 500 else 0),
        103 := 1500 + (if done2 then 500 else 0) - (if done3 then 200 else 0)]
  }

  /** t is one of the demo transfers and has not run yet. */
  predicate Pending(t: TransferRequest, done1: bool, done2: bool, done3: bool)
  {
    (t == T1 && !done1) || (t == T2 && !done2) || (t == T3 && !done3)
  }

  /** Whatever has run already, each demo transfer that has not run yet is covered and succeeds. */
  lemma DemoStep(done1: bool, done2: bool, done3: bool, t: TransferRequest)
    requires Pending(t, done1, done2, done3)
    ensures Transfer(DemoState(done1, done2, done3), t.fromId, t.toId, t.amount) ==
      (DemoState(done1 || t == T1, done2 || t == T2, done3 || t == T3), Transferred)
  {
    var b := DemoState(done1, done2, done3);
    var b' := DemoState(done1 || t == T1, done2 || t == T2, done3 || t == T3);
    assert b[t.fromId] >= t.amount;
    var afterWithdraw := b[t.fromId := b[t.fromId] - t.amount];
    assert afterWithdraw[t.toId := afterWithdraw[t.toId] + t.amount] == b';
  }

  /** Running distinct demo transfers that have not run yet, in any order, flags exactly them as done. */
  lemma {:induction false} DemoRun(done1: bool, done2: bool, done3: bool, reqs: seq<TransferRequest>)
    requires forall i :: 0 <= i < |reqs| ==> Pending(reqs[i], done1, done2, done3)
    requires forall i, j :: 0 <= i < j < |reqs| ==> reqs[i] != reqs[j]
    ensures TransferAll(DemoState(done1, done2, done3), reqs) ==
      DemoState(done1 || T1 in reqs, done2 || T2 in reqs, done3 || T3 in reqs)
    decreases |reqs|
  {
    if reqs != [] {
      var t, rest := reqs[0], reqs[1..];
      var d1, d2, d3 := done1 || t == T1, done2 || t == T2, done3 || t == T3;
      DemoStep(done1, done2, done3, t);
      forall i | 0 <= i < |rest| ensures Pending(rest[i], d1, d2, d3) {
        assert rest[i] == reqs[i + 1] && reqs[0] != reqs[i + 1];
      }
      forall i, j | 0 <= i < j < |rest| ensures rest[i] != rest[j] {
        assert rest[i] == reqs[i + 1] && rest[j] == reqs[j + 1];
      }
      DemoRun(d1, d2, d3, rest);
      assert forall u :: u in reqs <==> u == t || u in rest;
    }
  }

  /**
    The three demo transfers reach the final balances {101: 900, 102: 1800,
    103: 1800} in every order of execution.
  */
  lemma DemoAnyOrder(order: seq<TransferRequest>)
    requires |order| == 3
    requires forall i :: 0 <= i < 3 ==> Pending(order[i], false, false, false)
    requires order[0] != order[1] && order[0] != order[2] && order[1] != order[2]
    ensures TransferAll(DemoAccounts, order) == DemoFinal
  {
    assert DemoState(false, false, false) == DemoAccounts;
    assert forall i, j :: 0 <= i < j < 3 ==> order[i] != order[j];
    DemoRun(false, false, false, order);
    assert T1 in order && T2 in order && T3 in order;
    assert DemoState(true, true, true) == DemoFinal;
  }

  /** A transfer beyond the sending balance, and one from an unknown account, change nothing. */
  lemma DemoFailures()
    ensures Transfer(DemoAccounts, 101, 102, 5000) == (DemoAccounts, InsufficientFunds)
    ensures Transfer(DemoAccounts, 999, 101, 100) == (DemoAccounts, InvalidAccount)
  {
  }
}
