/**
  The bank transaction system: accounts whose balance is updated in place, and
  a registry of accounts keyed by id that moves money between two of them.
  Each operation is one atomic step; the locks themselves are not modelled,
  only the order in which a transfer takes them.
*/
module BankTransaction {
  import opened Ledger

  /** An account with a fixed id and a balance that deposits and withdrawals update. */
  class BankAccount {
    const id: int
    var balance: int

    constructor (accountId: int, initialBalance: int)
      ensures id == accountId && balance == initialBalance
    {
      id := accountId;
      balance := initialBalance;
    }

    /** Adds amount to the balance; the Java code checks nothing about amount. */
    method Deposit(amount: int)
      modifies this`balance
      ensures balance == old(balance) + amount
    {
      balance := balance + amount;
    }

    /**
      Takes amount from the balance when the balance covers it, and reports
      whether it did; an uncovered amount leaves the balance as it was.
    */
    method Withdraw(amount: int) returns (ok: bool)
      modifies this`balance
      ensures ok <==> old(balance) >= amount
      ensures balance == if ok then old(balance) - amount else old(balance)
      ensures old(balance) >= 0 && amount >= 0 ==> balance >= 0
    {
      if balance >= amount {
        balance := balance - amount;
        return true;
      }
      return false;
    }
  }

  /** The registry of accounts, keyed by account id. */
  class BankTransactionSystem {
    var accounts: map<int, BankAccount>
    /** The ids of the accounts whose locks transfers have taken, in the order they took them. */
    ghost var lockTrace: seq<int>

    /** Every account is registered under its own id, so distinct keys hold distinct accounts. */
    ghost predicate Valid()
      reads this, accounts.Values
    {
      forall id :: id in accounts ==> accounts[id].id == id
    }

    /** The balance of every registered account, by id. */
    ghost function Balances(): Ledger.Balances
      reads this, accounts.Values
    {
      map id | id in accounts :: accounts[id].balance
    }

    constructor ()
      ensures Valid() && accounts == map[] && lockTrace == []
    {
      accounts := map[];
      lockTrace := [];
    }

    /** Registers an account under its id, replacing any account registered under that id before. */
    method AddAccount(account: BankAccount)
      requires Valid()
      modifies this`accounts
      ensures Valid()
      ensures accounts == old(accounts)[account.id := account]
      ensures Balances() == old(Balances())[account.id := account.balance]
    {
      accounts := accounts[account.id := account];
    }

    /**
      Moves amount from the account fromId to the account toId, as the pure
      Ledger.Transfer describes, and reports the outcome. When both ids are
      registered it first takes the lock of the lower id, then the other.
      The total of all balances is unchanged whatever the outcome.
    */
    method TransferMoney(fromId: int, toId: int, amount: int) returns (outcome: TransferOutcome)
      requires Valid()
      modifies this`lockTrace, accounts.Values
      ensures Valid() && accounts == old(accounts)
      ensures (Balances(), outcome) == Transfer(old(Balances()), fromId, toId, amount)
      ensures Total(Balances()) == Total(old(Balances()))
      ensures lockTrace == old(lockTrace) +
        (if outcome == InvalidAccount then [] else [FirstLock(fromId, toId), SecondLock(fromId, toId)])
    {
      ghost var before := Balances();
      TransferConservesTotal(before, fromId, toId, amount);
      if fromId !in accounts || toId !in accounts {
        return InvalidAccount;
      }
      var fromAccount := accounts[fromId];
      var toAccount := accounts[toId];

      var firstLock := if fromId < toId then fromAccount else toAccount;
      var secondLock := if fromId < toId then toAccount else fromAccount;
      lockTrace := lockTrace + [firstLock.id, secondLock.id];

      assert forall id :: id in accounts && id != fromId ==> accounts[id] != fromAccount;
      var ok := fromAccount.Withdraw(amount);
      if ok {
        ghost var afterWithdraw := Balances();
        assert afterWithdraw.Keys == before.Keys;
        assert forall id :: id in accounts && id != fromId ==> afterWithdraw[id] == before[id];
        assert afterWithdraw == before[fromId := before[fromId] - amount];
        assert forall id :: id in accounts && id != toId ==> accounts[id] != toAccount;
        toAccount.Deposit(amount);
        assert Balances().Keys == afterWithdraw.Keys;
        assert forall id :: id in accounts && id != toId ==> Balances()[id] == afterWithdraw[id];
        assert Balances() == afterWithdraw[toId := afterWithdraw[toId] + amount];
        outcome := Transferred;
      } else {
        assert Balances() == before;
        outcome := InsufficientFunds;
      }
    }
  }

  /**
    The demonstration: accounts 101, 102 and 103 with balances 1000, 2000 and
    1500, then the transfers 101 to 102 of 300, 102 to 103 of 500 and 103 to
    101 of 200. All three succeed and the final balances are 900, 1800, 1800.
  */
  method RunDemo() returns (outcome1: TransferOutcome, outcome2: TransferOutcome, outcome3: TransferOutcome,
                            balance101: int, balance102: int, balance103: int)
    ensures outcome1 == Transferred && outcome2 == Transferred && outcome3 == Transferred
    ensures balance101 == 900 && balance102 == 1800 && balance103 == 1800
  {
    var bank := new BankTransactionSystem();
    var a101 := new BankAccount(101, 1000);
    var a102 := new BankAccount(102, 2000);
    var a103 := new BankAccount(103, 1500);
    bank.AddAccount(a101);
    bank.AddAccount(a102);
    bank.AddAccount(a103);
    assert bank.accounts == map[101 := a101, 102 := a102, 103 := a103];
    assert bank.Balances() == DemoState(false, false, false);
    DemoStep(false, false, false, T1);
    outcome1 := bank.TransferMoney(101, 102, 300);
    assert bank.Balances() == DemoState(true, false, false);
    DemoStep(true, false, false, T2);
    outcome2 := bank.TransferMoney(102, 103, 500);
    assert bank.Balances() == DemoState(true, true, false);
    DemoStep(true, true, false, T3);
    outcome3 := bank.TransferMoney(103, 101, 200);
    assert bank.Balances() == DemoState(true, true, true);
    assert bank.accounts[101] == a101 && bank.accounts[102] == a102 && bank.accounts[103] == a103;
    assert a101.balance == bank.Balances()[101];
    assert a102.balance == bank.Balances()[102];
    assert a103.balance == bank.Balances()[103];
    balance101, balance102, balance103 := a101.balance, a102.balance, a103.balance;
  }
}
