/** The methods of bank.go as they run when no other thread comes between: accounts are
    objects, locks are fields, and every method is proved against `Serial`. That the
    interleaved steps of `BankSystem` amount to such runs is `BankTheorems.Serialisable`. */
module BankMethods {
  import B = BankSystem

  class Account {
    var balance: int
    var locked: bool

    constructor ()
      ensures balance == 0 && !locked
    {
      balance, locked := 0, false;
    }

    method Lock()
      requires !locked
      modifies `locked
      ensures locked
    {
      locked := true;
    }

    method Unlock()
      requires locked
      modifies `locked
      ensures !locked
    {
      locked := false;
    }
  }

  class Bank {
    var bankLock: bool
    var accounts: map<int, Account>

    /** No two ids share an account. */
    ghost predicate Valid()
      reads this
    {
      forall i, j :: i in accounts && j in accounts && i != j ==> accounts[i] != accounts[j]
    }

    /** The locks a call on these accounts takes are free; others may be held. */
    ghost predicate Free(ids: set<int>)
      reads this, accounts.Values
    {
      !bankLock && forall id :: id in ids && id in accounts ==> !accounts[id].locked
    }

    /** Every account lock is as before, and the bank's is free. */
    twostate predicate LocksKept()
      reads this, accounts.Values
    {
      && !bankLock && accounts == old(accounts)
      && forall id :: id in accounts ==> accounts[id].locked == old(accounts[id].locked)
    }

    ghost function Balances(): map<int, int>
      reads this, accounts.Values
    {
      map id | id in accounts :: accounts[id].balance
    }

    /** Writing one account's balance. */
    twostate lemma Written(id: int)
      requires old(Valid()) && accounts == old(accounts) && id in accounts
      requires forall a :: a in accounts.Values && a != accounts[id] ==> a.balance == old(a.balance)
      ensures Balances() == old(Balances())[id := accounts[id].balance]
    {
      forall k | k in accounts && k != id ensures accounts[k].balance == old(accounts[k].balance) {
        assert accounts[k] != accounts[id];
      }
    }

    twostate lemma Unwritten()
      requires accounts == old(accounts) && forall a :: a in accounts.Values ==> a.balance == old(a.balance)
      ensures Balances() == old(Balances())
    {
    }

    constructor ()
      ensures Valid() && Free({}) && Balances() == map[]
    {
      bankLock, accounts := false, map[];
    }

    method CreateAccount(id: int) returns (r: B.Outcome)
      requires Valid() && Free({})
      modifies this
      ensures Valid() && Free({id} - old(accounts).Keys)
      ensures (Balances(), r) == B.Serial(old(Balances()), B.Create(id))
      ensures var m := old(Balances());
        if id in m then r == B.Panic && Balances() == m else r == B.Unit && Balances() == m[id := 0]
      ensures forall k :: k in old(accounts) ==> k in accounts && accounts[k] == old(accounts[k])
    {
      bankLock := true;
      if id !in accounts {
        var account := new Account();
        accounts := accounts[id := account];
        bankLock := false;
        r := B.Unit;
        assert Balances() == old(Balances())[id := 0];
      } else {
        bankLock := false;
        r := B.Panic;
        assert Balances() == old(Balances());
      }
    }

    method Deposit(id: int, amount: int) returns (r: B.Outcome)
      requires Valid() && Free({id})
      modifies `bankLock, accounts.Values
      ensures Valid() && LocksKept()
      ensures (Balances(), r) == B.Serial(old(Balances()), B.Deposit(id, amount))
      ensures var m := old(Balances());
        r == B.Unit && Balances() == if id in m then m[id := m[id] + amount] else m
    {
      bankLock := true;
      if id !in accounts {
        bankLock := false;
        return B.Unit;
      }
      var account := accounts[id];
      bankLock := false;
      account.Lock();
      var newBalance := account.balance + amount;
      account.balance := newBalance;
      account.Unlock();
      r := B.Unit;
      Written(id);
    }

    /** The account stays locked if and only if its balance is negative and at least the amount. */
    method Withdraw(id: int, amount: int) returns (r: B.Outcome)
      requires Valid() && Free({id})
      modifies `bankLock, accounts.Values
      ensures Valid()
      ensures (Balances(), r) == B.Serial(old(Balances()), B.Withdraw(id, amount))
      ensures var m := old(Balances());
        && (r == B.Panic <==> id !in m)
        && (r == B.Bool(true) <==> id in m && m[id] >= amount && m[id] >= 0)
        && (r == B.Bool(true) || r == B.Bool(false) || r == B.Panic)
        && Balances() == if r == B.Bool(true) then m[id := m[id] - amount] else m
      ensures !bankLock
      ensures forall k :: k in accounts ==>
        accounts[k].locked == (old(accounts[k].locked) || (k == id && amount <= accounts[k].balance < 0))
    {
      bankLock := true;
      if id !in accounts {
        bankLock := false;
        return B.Panic;
      }
      var account := accounts[id];
      bankLock := false;
      account.Lock();
      if account.balance >= amount {
        var newBalance := account.balance - amount;
        if account.balance < 0 {
          assert Balances() == old(Balances());
          return B.Bool(false);
        }
        account.balance := newBalance;
        account.Unlock();
        r := B.Bool(true);
        Written(id);
      } else {
        account.Unlock();
        r := B.Bool(false);
        assert Balances() == old(Balances());
      }
    }

    method Transfer(sender: int, receiver: int, amount: int, allowOverdraw: bool) returns (r: B.Outcome)
      requires Valid() && Free({sender, receiver})
      modifies `bankLock, accounts.Values
      ensures Valid() && LocksKept()
      ensures (Balances(), r) == B.Serial(old(Balances()), B.Transfer(sender, receiver, amount, allowOverdraw))
      ensures var m := old(Balances());
        && (r == B.Bool(true) || r == B.Bool(false))
        && (r == B.Bool(true) <==>
              sender in m && receiver in m && sender != receiver && (m[sender] >= amount || allowOverdraw))
        && Balances() ==
           if r == B.Bool(true) then m[sender := m[sender] - amount][receiver := m[receiver] + amount] else m
    {
      if sender == receiver {
        return B.Bool(false);
      }
      bankLock := true;
      if sender !in accounts || receiver !in accounts {
        bankLock := false;
        assert Balances() == old(Balances());
        return B.Bool(false);
      }
      bankLock := false;
      var success := Exchange(sender, receiver, amount, allowOverdraw);
      r := B.Bool(success);
    }

    /** Transfer from the first account lock on. */
    method Exchange(sender: int, receiver: int, amount: int, allowOverdraw: bool) returns (success: bool)
      requires Valid() && Free({sender, receiver}) && sender in accounts && receiver in accounts && sender != receiver
      modifies accounts.Values
      ensures LocksKept()
      ensures var m := old(Balances());
        && success == (m[sender] >= amount || allowOverdraw)
        && Balances() == if success then m[sender := m[sender] - amount][receiver := m[receiver] + amount] else m
    {
      var senderAccount, receiverAccount := accounts[sender], accounts[receiver];
      var first, second := receiverAccount, senderAccount;
      if sender < receiver {
        first, second := senderAccount, receiverAccount;
      }
      first.Lock();
      second.Lock();
      Unwritten();
      success := false;
      if senderAccount.balance >= amount || allowOverdraw {
        Move(senderAccount, receiverAccount, amount, sender, receiver);
        success := true;
      }
      label moved:
      second.Unlock();
      first.Unlock();
      Unwritten@moved();
    }

    method Move(from: Account, to: Account, amount: int, ghost sender: int, ghost receiver: int)
      requires Valid() && sender in accounts && receiver in accounts && sender != receiver
      requires from == accounts[sender] && to == accounts[receiver]
      modifies from`balance, to`balance
      ensures var m := old(Balances());
        Balances() == m[sender := m[sender] - amount][receiver := m[receiver] + amount]
    {
      label before:
      from.balance := from.balance - amount;
      Written@before(sender);
      label between:
      to.balance := to.balance + amount;
      Written@between(receiver);
    }

    method DepositAndCompare(id: int, amount: int, compareThreshold: int) returns (r: B.Outcome)
      requires Valid() && Free({id})
      modifies `bankLock, accounts.Values
      ensures Valid() && LocksKept()
      ensures (Balances(), r) == B.Serial(old(Balances()), B.DepositAndCompare(id, amount, compareThreshold))
      ensures var m := old(Balances());
        && r == B.Bool(id in m && amount > 0 && m[id] + amount >= compareThreshold)
        && Balances() == if id in m && amount > 0 then m[id := m[id] + amount] else m
    {
      bankLock := true;
      var known := id in accounts;
      bankLock := false;
      if !(known && amount > 0) {
        return B.Bool(false);
      }
      var account := accounts[id];
      account.Lock();
      account.balance := account.balance + amount;
      var compareResult := account.balance >= compareThreshold;
      account.Unlock();
      r := B.Bool(compareResult);
      Written(id);
    }

    method GetBalance(id: int) returns (r: B.Outcome)
      requires Valid() && Free({id})
      modifies `bankLock, accounts.Values
      ensures Valid() && LocksKept()
      ensures (Balances(), r) == B.Serial(old(Balances()), B.GetBalance(id))
      ensures Balances() == old(Balances()) && r == if id in Balances() then B.Num(Balances()[id]) else B.Panic
    {
      bankLock := true;
      var known := id in accounts;
      bankLock := false;
      if !known {
        return B.Panic;
      }
      var account := accounts[id];
      account.Lock();
      r := B.Num(account.balance);
      account.Unlock();
      assert Balances() == old(Balances());
    }
  }
}
