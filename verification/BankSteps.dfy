/** Every interleaved step of the bank keeps its invariant.

    A step of thread t is first framed (`Acts`, `Framed`): what other threads know and
    hold is as before, and t holds the locks its program counter says. Then the step
    either takes no effect, and the balances with transfers in flight given back are
    as before (SilentInv), or it is the point where its call takes effect, and those
    balances change as the call run alone would change them (EffectInv). There is one
    such pair of lemmas for each program counter; AdvanceInv puts them together. */
module BankSteps {
  import opened BankSystem

  /** From b to d only thread t acted: other threads, and the accounts and the bank
      lock they hold, are as before. */
  ghost predicate Acts(b: Bank, d: Bank, t: nat) {
    && t in d.threads && d.threads.Keys == b.threads.Keys + {t}
    && (forall u | u in b.threads && u != t :: d.threads[u] == b.threads[u])
    && b.accounts.Keys <= d.accounts.Keys
    && (forall id | id in b.accounts && b.accounts[id].holder.By? && b.accounts[id].holder.t != t ::
          d.accounts[id] == b.accounts[id])
    && (forall u: nat | u != t :: d.bankHolder == By(u) <==> b.bankHolder == By(u))
  }

  lemma OthersKeep(b: Bank, d: Bank, t: nat)
    requires Inv(b) && Acts(b, d, t)
    ensures forall u {:trigger ThreadOk(d, u)} | u in d.threads && u != t :: ThreadOk(d, u)
    ensures forall u {:trigger Settled(d, u)} | u in d.threads && u != t :: Settled(d, u) == Settled(b, u)
  {
    forall u | u in d.threads && u != t ensures ThreadOk(d, u) && Settled(d, u) == Settled(b, u) {
      assert ThreadOk(b, u);
      var c, pc := b.threads[u].call, b.threads[u].pc;
      forall id | id in Locks(c, pc) ensures d.accounts[id] == b.accounts[id] {
        assert b.accounts[id].holder == By(u);
      }
    }
  }

  /** A step that takes no effect leaves the order as it is. */
  lemma SilentOrder(b: Bank, d: Bank, t: nat)
    requires Inv(b) && Acts(b, d, t) && d.order == b.order && Balances(d) == Balances(b)
    requires if t in b.threads then d.threads[t].call == b.threads[t].call && Settled(d, t) == Settled(b, t)
             else Settled(d, t) == Pending
    ensures OrderOk(d)
  {
    OthersKeep(b, d, t);
    forall i | 0 <= i < |d.order| ensures Recorded(d, d.order[i]) {
      assert Recorded(b, b.order[i]);
    }
    forall u | u in d.threads && Settled(d, u).Known? ensures Placed(d, u) {
      assert Placed(b, u);
    }
  }

  lemma AppendFaithful(order: seq<Event>, e: Event)
    requires Faithful(order) && e.r == Serial(Play(order), e.call).1
    ensures Faithful(order + [e]) && Play(order + [e]) == Serial(Play(order), e.call).0
  {
    var order' := order + [e];
    assert order'[..|order|] == order;
    forall i | 0 <= i < |order'| ensures EventOk(order', i) {
      if i < |order| {
        assert EventOk(order, i);
        assert order'[..i] == order[..i];
      }
    }
  }

  /** A step that takes effect is the call run alone on the balances before it. */
  lemma EffectOrder(b: Bank, d: Bank, t: nat, r: Outcome)
    requires Inv(b) && t in b.threads && Acts(b, d, t) && d.threads[t].call == b.threads[t].call
    requires d.order == b.order + [Event(t, b.threads[t].call, r)]
    requires Settled(b, t) == Pending && Settled(d, t) == Known(r)
    requires Serial(Balances(b), b.threads[t].call) == (Balances(d), r)
    ensures OrderOk(d)
  {
    OthersKeep(b, d, t);
    var n := |b.order|;
    AppendFaithful(b.order, Event(t, b.threads[t].call, r));
    forall i | 0 <= i < |d.order| ensures Recorded(d, d.order[i]) && (i < n ==> d.order[i].t != t) {
      if i < n {
        assert Recorded(b, b.order[i]);
      }
    }
    forall u | u in d.threads && Settled(d, u).Known? ensures Placed(d, u) {
      if u == t {
        assert d.order[n].t == t;
      } else {
        assert Placed(b, u);
        var i :| 0 <= i < n && b.order[i].t == u;
        assert d.order[i].t == u;
      }
    }
  }

  lemma InvokeInv(b: Bank, t: nat, c: Call)
    requires Inv(b) && t !in b.threads
    ensures Inv(Invoke(b, t, c))
  {
    var d := Invoke(b, t, c);
    forall id | id in b.accounts && b.accounts[id].holder.By? ensures b.accounts[id].holder.t != t {
      assert HolderOk(b, id);
    }
    assert Acts(b, d, t);
    OthersKeep(b, d, t);
    assert ThreadOk(d, t);
    forall id | id in d.accounts ensures HolderOk(d, id) && Effective(d, id) == Effective(b, id) {
      assert HolderOk(b, id);
    }
    assert Balances(d) == Balances(b);
    SilentOrder(b, d, t);
  }

  lemma HoldersKeep(b: Bank, d: Bank, t: nat)
    requires Inv(b) && Acts(b, d, t)
    requires forall id | id in d.accounts :: d.accounts[id].holder == By(t) ==>
      id in Locks(d.threads[t].call, d.threads[t].pc)
    requires forall id | id in d.accounts && d.accounts[id].holder.By? && d.accounts[id].holder.t != t ::
      id in b.accounts && d.accounts[id].holder == b.accounts[id].holder
    ensures forall id {:trigger HolderOk(d, id)} | id in d.accounts :: HolderOk(d, id)
  {
    forall id | id in d.accounts ensures HolderOk(d, id) {
      if id in b.accounts { assert HolderOk(b, id); }
    }
  }

  /** All of the invariant but the order. */
  ghost predicate Framed(b: Bank, d: Bank, t: nat) {
    && Acts(b, d, t) && ThreadOk(d, t)
    && (forall id {:trigger HolderOk(d, id)} | id in d.accounts :: HolderOk(d, id))
    && (d.bankHolder.By? ==> d.bankHolder.t in d.threads)
  }

  lemma SilentInv(b: Bank, d: Bank, t: nat)
    requires Inv(b) && t in b.threads && Framed(b, d, t) && d.order == b.order && Balances(d) == Balances(b)
    requires d.threads[t].call == b.threads[t].call && Settled(d, t) == Settled(b, t)
    ensures Inv(d)
  {
    OthersKeep(b, d, t);
    SilentOrder(b, d, t);
  }

  lemma EffectInv(b: Bank, d: Bank, t: nat, r: Outcome)
    requires Inv(b) && t in b.threads && Framed(b, d, t) && d.threads[t].call == b.threads[t].call
    requires d.order == b.order + [Event(t, b.threads[t].call, r)]
    requires Settled(b, t) == Pending && Settled(d, t) == Known(r)
    requires Serial(Balances(b), b.threads[t].call) == (Balances(d), r)
    ensures Inv(d)
  {
    OthersKeep(b, d, t);
    EffectOrder(b, d, t, r);
  }

  /** A thread holds exactly the locks its program counter says. */
  lemma OwnLocks(b: Bank, t: nat)
    requires Inv(b) && t in b.threads
    ensures forall id ::
      id in b.accounts && b.accounts[id].holder == By(t) <==> id in Locks(b.threads[t].call, b.threads[t].pc)
    ensures forall id | id in b.accounts && b.accounts[id].holder.By? :: b.accounts[id].holder.t in b.threads
  {
    assert ThreadOk(b, t);
    forall id | id in b.accounts ensures HolderOk(b, id) {}
  }

  // ----- step by step ----------------------------------------------------------

  lemma ReadyInv(b: Bank, t: nat)
    requires Inv(b) && CanStep(b, t) && b.threads[t].pc.Ready?
    ensures Inv(Advance(b, t))
  {
    var d := Advance(b, t);
    var c := b.threads[t].call;
    assert ThreadOk(b, t);
    assert Acts(b, d, t);
    OthersKeep(b, d, t);
    assert ThreadOk(d, t);
    forall id | id in b.accounts ensures b.accounts[id].holder != By(t) && Effective(d, id) == Effective(b, id) {
      assert HolderOk(b, id);
    }
    HoldersKeep(b, d, t);
    assert Balances(d) == Balances(b);
    if c.Transfer? && c.from == c.to {
      EffectOrder(b, d, t, Bool(false));
    } else {
      SilentOrder(b, d, t);
    }
  }

  lemma LookFrame(b: Bank, t: nat)
    requires Inv(b) && CanStep(b, t) && b.threads[t].pc.Looking?
    ensures Framed(b, Advance(b, t), t)
  {
    var d := Advance(b, t);
    assert ThreadOk(b, t);
    OwnLocks(b, t);
    assert Acts(b, d, t);
    assert ThreadOk(d, t);
    HoldersKeep(b, d, t);
  }

  lemma LookBalances(b: Bank, t: nat)
    requires Inv(b) && CanStep(b, t) && b.threads[t].pc.Looking?
    ensures var c := b.threads[t].call;
      Balances(Advance(b, t)) == if c.Create? && c.id !in b.accounts then Balances(b)[c.id := 0] else Balances(b)
  {
    var d := Advance(b, t);
    OwnLocks(b, t);
    forall id | id in b.accounts ensures Effective(d, id) == Effective(b, id) {
    }
  }

  lemma LookInv(b: Bank, t: nat)
    requires Inv(b) && CanStep(b, t) && b.threads[t].pc.Looking?
    ensures Inv(Advance(b, t))
  {
    var d := Advance(b, t);
    LookFrame(b, t);
    LookBalances(b, t);
    assert Balances(b).Keys == b.accounts.Keys;
    if d.order == b.order {
      SilentInv(b, d, t);
    } else {
      EffectInv(b, d, t, d.order[|b.order|].r);
    }
  }

  lemma LeaveInv(b: Bank, t: nat)
    requires Inv(b) && CanStep(b, t) && b.threads[t].pc.LeavingBank?
    ensures Inv(Advance(b, t))
  {
    var d := Advance(b, t);
    assert ThreadOk(b, t);
    assert Acts(b, d, t);
    OthersKeep(b, d, t);
    assert ThreadOk(d, t);
    forall id | id in b.accounts ensures b.accounts[id].holder != By(t) && Effective(d, id) == Effective(b, id) {
      assert HolderOk(b, id);
    }
    HoldersKeep(b, d, t);
    assert Balances(d) == Balances(b);
    SilentOrder(b, d, t);
  }

  lemma LockThread(b: Bank, t: nat)
    requires Inv(b) && CanStep(b, t)
    requires var pc := b.threads[t].pc; pc.WantFirst? || pc.WantSecond? || pc.Releasing? || pc.LastLock?
    ensures Acts(b, Advance(b, t), t) && ThreadOk(Advance(b, t), t)
  {
    assert ThreadOk(b, t);
  }

  lemma LockFrame(b: Bank, t: nat)
    requires Inv(b) && CanStep(b, t)
    requires var pc := b.threads[t].pc; pc.WantFirst? || pc.WantSecond? || pc.Releasing? || pc.LastLock?
    ensures Framed(b, Advance(b, t), t)
  {
    LockThread(b, t);
    OwnLocks(b, t);
    HoldersKeep(b, Advance(b, t), t);
  }

  lemma LockBalances(b: Bank, t: nat)
    requires Inv(b) && CanStep(b, t)
    requires var pc := b.threads[t].pc; pc.WantFirst? || pc.WantSecond? || pc.Releasing? || pc.LastLock?
    ensures Balances(Advance(b, t)) == Balances(b)
  {
    OwnLocks(b, t);
    forall id | id in b.accounts ensures Effective(Advance(b, t), id) == Effective(b, id) {
      assert Advance(b, t).accounts[id].balance == b.accounts[id].balance;
    }
  }

  lemma LockInv(b: Bank, t: nat)
    requires Inv(b) && CanStep(b, t)
    requires var pc := b.threads[t].pc; pc.WantFirst? || pc.WantSecond? || pc.Releasing? || pc.LastLock?
    ensures Inv(Advance(b, t))
  {
    LockFrame(b, t);
    LockBalances(b, t);
    SilentInv(b, Advance(b, t), t);
  }

  lemma InsideThread(b: Bank, t: nat)
    requires Inv(b) && CanStep(b, t) && b.threads[t].pc.Inside?
    ensures Acts(b, Advance(b, t), t) && ThreadOk(Advance(b, t), t)
  {
    assert ThreadOk(b, t);
  }

  lemma InsideHolders(b: Bank, t: nat)
    requires Inv(b) && CanStep(b, t) && b.threads[t].pc.Inside?
    ensures var d := Advance(b, t);
      && d.accounts == b.accounts && d.bankHolder == b.bankHolder && t in d.threads
      && forall id | id in d.accounts :: d.accounts[id].holder == By(t) ==>
        id in Locks(d.threads[t].call, d.threads[t].pc)
  {
    OwnLocks(b, t);
  }

  lemma InsideFrame(b: Bank, t: nat)
    requires Inv(b) && CanStep(b, t) && b.threads[t].pc.Inside?
    ensures Framed(b, Advance(b, t), t)
  {
    InsideThread(b, t);
    InsideHolders(b, t);
    HoldersKeep(b, Advance(b, t), t);
  }

  lemma InsideBalances(b: Bank, t: nat)
    requires Inv(b) && CanStep(b, t) && b.threads[t].pc.Inside?
    ensures Balances(Advance(b, t)) == Balances(b)
  {
    forall id | id in b.accounts ensures Effective(Advance(b, t), id) == Effective(b, id) {
    }
  }

  lemma InsideInv(b: Bank, t: nat)
    requires Inv(b) && CanStep(b, t) && b.threads[t].pc.Inside?
    ensures Inv(Advance(b, t))
  {
    var d := Advance(b, t);
    var c := b.threads[t].call;
    InsideFrame(b, t);
    InsideBalances(b, t);
    assert ThreadOk(b, t);
    OwnLocks(b, t);
    assert Balances(b).Keys == b.accounts.Keys;
    assert Balances(b)[Main(c)] == b.accounts[Main(c)].balance;
    if d.order == b.order {
      SilentInv(b, d, t);
    } else {
      EffectInv(b, d, t, d.order[|b.order|].r);
    }
  }

  /** A step that takes and releases no account lock leaves every account with its holder. */
  lemma SameHolders(b: Bank, d: Bank, t: nat)
    requires Inv(b) && Acts(b, d, t) && t in b.threads && d.accounts.Keys == b.accounts.Keys
    requires forall id | id in b.accounts :: d.accounts[id].holder == b.accounts[id].holder
    requires Locks(d.threads[t].call, d.threads[t].pc) == Locks(b.threads[t].call, b.threads[t].pc)
    ensures forall id {:trigger HolderOk(d, id)} | id in d.accounts :: HolderOk(d, id)
  {
    forall id | id in d.accounts ensures HolderOk(d, id) {
      assert HolderOk(b, id);
    }
  }

  lemma StoreFrame(b: Bank, t: nat)
    requires Inv(b) && CanStep(b, t) && b.threads[t].pc.Loaded?
    ensures Framed(b, Advance(b, t), t)
  {
    StoreThread(b, t);
    SameHolders(b, Advance(b, t), t);
  }

  lemma StoreThread(b: Bank, t: nat)
    requires Inv(b) && CanStep(b, t) && b.threads[t].pc.Loaded?
    ensures Acts(b, Advance(b, t), t) && ThreadOk(Advance(b, t), t)
  {
    assert ThreadOk(b, t);
  }

  lemma StoreBalances(b: Bank, t: nat)
    requires Inv(b) && CanStep(b, t) && b.threads[t].pc.Loaded?
    ensures var c := b.threads[t].call;
      && Main(c) in Balances(b) && Balances(b)[Main(c)] == b.accounts[Main(c)].balance
      && Balances(Advance(b, t)) == if c.Transfer? then Balances(b) else Balances(b)[Main(c) := b.threads[t].pc.x]
  {
    var d := Advance(b, t);
    var c := b.threads[t].call;
    assert ThreadOk(b, t);
    OwnLocks(b, t);
    forall id | id in b.accounts && id != Main(c) ensures Effective(d, id) == Effective(b, id) {
    }
    assert Effective(d, Main(c)) == if c.Transfer? then b.accounts[Main(c)].balance else b.threads[t].pc.x;
  }

  lemma StoreInv(b: Bank, t: nat)
    requires Inv(b) && CanStep(b, t) && b.threads[t].pc.Loaded?
    ensures Inv(Advance(b, t))
  {
    var d := Advance(b, t);
    StoreFrame(b, t);
    StoreBalances(b, t);
    assert ThreadOk(b, t);
    assert Balances(b).Keys == b.accounts.Keys;
    if b.threads[t].call.Transfer? {
      SilentInv(b, d, t);
    } else {
      EffectInv(b, d, t, d.order[|b.order|].r);
    }
  }

  lemma CompareInv(b: Bank, t: nat)
    requires Inv(b) && CanStep(b, t) && b.threads[t].pc.Stored?
    ensures Inv(Advance(b, t))
  {
    var d := Advance(b, t);
    assert ThreadOk(b, t);
    OwnLocks(b, t);
    assert Acts(b, d, t);
    assert ThreadOk(d, t);
    HoldersKeep(b, d, t);
    forall id | id in b.accounts ensures Effective(d, id) == Effective(b, id) {
    }
    assert Balances(d) == Balances(b);
    SilentInv(b, d, t);
  }

  lemma CreditThread(b: Bank, t: nat)
    requires Inv(b) && CanStep(b, t) && b.threads[t].pc.Debited?
    ensures Acts(b, Advance(b, t), t) && ThreadOk(Advance(b, t), t) && b.threads[t].call.Transfer?
    ensures b.threads[t].call.from != b.threads[t].call.to
  {
    assert ThreadOk(b, t);
  }

  lemma CreditFrame(b: Bank, t: nat)
    requires Inv(b) && CanStep(b, t) && b.threads[t].pc.Debited?
    ensures Framed(b, Advance(b, t), t)
  {
    CreditThread(b, t);
    SameHolders(b, Advance(b, t), t);
  }

  lemma CreditBalances(b: Bank, t: nat)
    requires Inv(b) && CanStep(b, t) && b.threads[t].pc.Debited? && b.threads[t].call.Transfer?
    ensures var c := b.threads[t].call;
      && c.from in b.accounts && c.to in b.accounts
      && Balances(b)[c.from] == b.accounts[c.from].balance + c.amount && Balances(b)[c.to] == b.accounts[c.to].balance
      && Balances(Advance(b, t)) ==
         Balances(b)[c.from := b.accounts[c.from].balance][c.to := b.accounts[c.to].balance + c.amount]
  {
    var c := b.threads[t].call;
    CreditThread(b, t);
    OwnLocks(b, t);
    forall id | id in b.accounts && id !in Needs(c) ensures Effective(Advance(b, t), id) == Effective(b, id) {
    }
  }

  lemma CreditInv(b: Bank, t: nat)
    requires Inv(b) && CanStep(b, t) && b.threads[t].pc.Debited?
    ensures Inv(Advance(b, t))
  {
    CreditFrame(b, t);
    CreditThread(b, t);
    CreditBalances(b, t);
    assert ThreadOk(b, t);
    assert Balances(b).Keys == b.accounts.Keys;
    EffectInv(b, Advance(b, t), t, Bool(true));
  }

  lemma AdvanceInv(b: Bank, t: nat)
    requires Inv(b) && CanStep(b, t)
    ensures Inv(Advance(b, t))
  {
    match b.threads[t].pc
    case Ready => ReadyInv(b, t);
    case Looking => LookInv(b, t);
    case LeavingBank(_) => LeaveInv(b, t);
    case Inside => InsideInv(b, t);
    case Loaded(_) => StoreInv(b, t);
    case Debited => CreditInv(b, t);
    case Stored => CompareInv(b, t);
    case _ => LockInv(b, t);
  }
}
