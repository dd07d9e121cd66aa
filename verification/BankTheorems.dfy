/** What holds in every interleaving of bank calls. */
module BankTheorems {
  import opened Collections
  import opened BankSystem
  import opened BankSteps

  lemma {:induction false} RunInv(states: seq<Bank>, i: nat)
    requires Run(states) && i < |states|
    ensures Inv(states[i])
  {
    if i > 0 {
      RunInv(states, i - 1);
      assert Follows(states, i - 1);
      NextInv(states[i - 1], states[i]);
    }
  }

  lemma NextInv(b: Bank, d: Bank)
    requires Inv(b) && Next(b, d)
    ensures Inv(d)
  {
    if t: nat, c: Call :| Begins(b, d, t, c) {
      InvokeInv(b, t, c);
    } else {
      var t: nat :| Moves(b, d, t);
      AdvanceInv(b, t);
    }
  }

  /** No transfer stands between its two writes. */
  predicate Quiet(b: Bank) {
    forall t | t in b.threads :: !b.threads[t].pc.Debited?
  }

  predicate AllDone(b: Bank) {
    forall t | t in b.threads :: b.threads[t].pc.Done?
  }

  /** The balances a reader of the account structs would see. */
  function Visible(b: Bank): map<int, int> {
    map id | id in b.accounts :: b.accounts[id].balance
  }

  lemma QuietBalances(b: Bank)
    requires Quiet(b)
    ensures Balances(b) == Visible(b)
  {
  }

  /** `order` explains b: a one-at-a-time execution with the same outcomes. */
  ghost predicate Explains(b: Bank, order: seq<Event>) {
    && Faithful(order) && Once(order)
    && (forall i :: 0 <= i < |order| ==> order[i].t in b.threads && b.threads[order[i].t].call == order[i].call)
    && (forall t | t in b.threads && b.threads[t].pc.Done? ::
          Event(t, b.threads[t].call, b.threads[t].pc.r) in order)
    && (Quiet(b) ==> Play(order) == Visible(b))
  }

  lemma DoneIsInOrder(b: Bank, t: nat)
    requires Inv(b) && t in b.threads && b.threads[t].pc.Done?
    ensures Event(t, b.threads[t].call, b.threads[t].pc.r) in b.order
  {
    assert Placed(b, t);
    var i :| 0 <= i < |b.order| && b.order[i].t == t;
    assert Recorded(b, b.order[i]);
  }

  lemma OrderExplains(b: Bank)
    requires Inv(b)
    ensures Explains(b, b.order)
  {
    forall i | 0 <= i < |b.order| ensures b.order[i].t in b.threads && b.threads[b.order[i].t].call == b.order[i].call {
      assert Recorded(b, b.order[i]);
    }
    forall t | t in b.threads && b.threads[t].pc.Done?
      ensures Event(t, b.threads[t].call, b.threads[t].pc.r) in b.order
    {
      DoneIsInOrder(b, t);
    }
    if Quiet(b) {
      QuietBalances(b);
    }
  }

  /** A call that finished in some state up to j, before another had begun, comes first. */
  ghost predicate RespectsRealTime(states: seq<Bank>, j: nat, order: seq<Event>)
    requires j < |states|
  {
    forall i: nat, p: nat, q: nat ::
      i <= j && p < |order| && q < |order| && Finished(states[i], order[p].t) && order[q].t !in states[i].threads ==>
        p < q
  }

  predicate Finished(b: Bank, t: nat) {
    t in b.threads && b.threads[t].pc.Done?
  }

  /** Linearisability: whatever the interleaving, some one-at-a-time order of the calls
      that respects real time gives every finished call its outcome and, once no transfer
      is between its two writes, every account its balance; the order is only extended. */
  lemma Serialisable(states: seq<Bank>, i: nat, j: nat)
    requires Run(states) && i <= j < |states|
    ensures exists early, late ::
      && early <= late
      && Explains(states[i], early) && RespectsRealTime(states, i, early)
      && Explains(states[j], late) && RespectsRealTime(states, j, late)
  {
    RunInv(states, i);
    RunInv(states, j);
    OrderGrows(states, i, j);
    OrderExplains(states[i]);
    OrderExplains(states[j]);
    OrderIsRealTime(states, i);
    OrderIsRealTime(states, j);
  }

  lemma {:induction false} OrderGrows(states: seq<Bank>, i: nat, j: nat)
    requires Run(states) && i <= j < |states|
    ensures states[i].order <= states[j].order
    decreases j
  {
    if i < j {
      OrderGrows(states, i, j - 1);
      assert Follows(states, j - 1);
      StepOrder(states[j - 1], states[j]);
    }
  }

  lemma StepOrder(b: Bank, d: Bank)
    requires Next(b, d)
    ensures b.order <= d.order
  {
  }

  lemma OrderIsRealTime(states: seq<Bank>, j: nat)
    requires Run(states) && j < |states|
    ensures RespectsRealTime(states, j, states[j].order)
  {
    forall i: nat, p: nat, q: nat |
      i <= j && p < |states[j].order| && q < |states[j].order|
      && Finished(states[i], states[j].order[p].t) && states[j].order[q].t !in states[i].threads
      ensures p < q
    {
      FinishedComesFirst(states, i, j, p, q);
    }
  }

  lemma FinishedComesFirst(states: seq<Bank>, i: nat, j: nat, p: nat, q: nat)
    requires Run(states) && i <= j < |states|
    requires p < |states[j].order| && q < |states[j].order|
    requires Finished(states[i], states[j].order[p].t) && states[j].order[q].t !in states[i].threads
    ensures p < q
  {
    RunInv(states, i);
    RunInv(states, j);
    OrderGrows(states, i, j);
    var u := states[j].order[p].t;
    var order := states[i].order;
    DoneIsInOrder(states[i], u);
    var k :| 0 <= k < |order| && order[k].t == u;
    assert states[j].order[k] == order[k];
    forall l | 0 <= l < |order| ensures states[j].order[l].t in states[i].threads {
      assert Recorded(states[i], order[l]);
    }
  }

  // ----- progress --------------------------------------------------------------

  predicate Wants(b: Bank, u: nat) {
    u in b.threads && (b.threads[u].pc.WantFirst? || b.threads[u].pc.WantSecond?)
  }

  /** The account whose lock u waits for. */
  function Wanted(b: Bank, u: nat): int
    requires Wants(b, u)
  {
    if b.threads[u].pc.WantFirst? then First(b.threads[u].call) else Second(b.threads[u].call)
  }

  /** u waits for an account that v holds. */
  predicate BlockedBy(b: Bank, u: nat, v: nat) {
    Wants(b, u) && Wanted(b, u) in b.accounts && b.accounts[Wanted(b, u)].holder == By(v)
  }

  /** Each thread of q waits for the next, and the last one has finished with a lock. */
  ghost predicate Chain(b: Bank, q: seq<nat>) {
    && |q| >= 2 && Finished(b, q[|q| - 1])
    && forall k {:trigger q[k]} :: 0 <= k < |q| - 1 ==> BlockedBy(b, q[k], q[k + 1])
  }

  /** u waits, directly or behind others, for an account that a finished call never unlocks. */
  ghost predicate Doomed(b: Bank, u: nat) {
    exists q :: Chain(b, q) && q[0] == u
  }

  predicate Unfinished(b: Bank, u: nat) {
    u in b.threads && !b.threads[u].pc.Done?
  }

  function Above(b: Bank, x: int): set<int> {
    set id | id in b.accounts && id > x
  }

  /** If nobody can step, everybody who is not finished waits for an account lock. */
  lemma StuckWaits(b: Bank, u: nat)
    requires Inv(b) && Unfinished(b, u) && forall t :: !CanStep(b, t)
    ensures Wants(b, u) && Wanted(b, u) in b.accounts && b.accounts[Wanted(b, u)].holder.By?
  {
    assert ThreadOk(b, u);
    if b.bankHolder.By? {
      assert ThreadOk(b, b.bankHolder.t);
      assert CanStep(b, b.bankHolder.t);
    }
    assert !CanStep(b, u);
  }

  /** And whoever holds that account is finished, or waits for one with a greater id. */
  lemma HolderIsHigher(b: Bank, u: nat)
    requires Inv(b) && Wants(b, u) && Wanted(b, u) in b.accounts && b.accounts[Wanted(b, u)].holder.By?
    ensures var v := b.accounts[Wanted(b, u)].holder.t;
      v in b.threads && (Wants(b, v) ==> Wanted(b, v) > Wanted(b, u))
  {
    var id := Wanted(b, u);
    var v := b.accounts[id].holder.t;
    assert HolderOk(b, id) && ThreadOk(b, v);
  }

  lemma {:induction false} StuckIsDoomed(b: Bank, u: nat) returns (q: seq<nat>)
    requires Inv(b) && Unfinished(b, u) && forall t :: !CanStep(b, t)
    ensures Chain(b, q) && q[0] == u
    decreases if Wants(b, u) then |Above(b, Wanted(b, u))| else 0
  {
    StuckWaits(b, u);
    HolderIsHigher(b, u);
    var v := b.accounts[Wanted(b, u)].holder.t;
    if b.threads[v].pc.Done? {
      q := [u, v];
    } else {
      StuckWaits(b, v);
      assert Wanted(b, v) in Above(b, Wanted(b, u)) - Above(b, Wanted(b, v));
      SubsetSize(Above(b, Wanted(b, v)), Above(b, Wanted(b, u)));
      var r := StuckIsDoomed(b, v);
      q := [u] + r;
    }
  }

  /** Deadlock, exactly: some thread can take a step if and only if some unfinished call
      does not wait, directly or behind others, for an account that a finished call left
      locked. Nothing is asked of the amounts. */
  lemma DeadlockIff(states: seq<Bank>, i: nat)
    requires Run(states) && i < |states|
    ensures (exists t :: CanStep(states[i], t)) <==> (exists u :: Unfinished(states[i], u) && !Doomed(states[i], u))
  {
    RunInv(states, i);
    var b := states[i];
    if t :| CanStep(b, t) {
      forall q | Chain(b, q) ensures q[0] != t {
        ChainHead(b, q);
      }
      assert Unfinished(b, t) && !Doomed(b, t);
    } else if u :| Unfinished(b, u) && !Doomed(b, u) {
      var q := StuckIsDoomed(b, u);
      assert false;
    }
  }

  /** So there is no deadlock while nobody waits for an account of a finished call. */
  lemma DeadlockFree(states: seq<Bank>, i: nat, u: nat)
    requires Run(states) && i < |states| && Unfinished(states[i], u)
    requires forall w, v :: BlockedBy(states[i], w, v) ==> !Finished(states[i], v)
    ensures exists t :: CanStep(states[i], t)
  {
    RunInv(states, i);
    var b := states[i];
    forall q | Chain(b, q) ensures false {
      ChainEnds(b, q);
    }
    assert !Doomed(b, u);
    DeadlockIff(states, i);
  }

  /** In particular if no Withdraw has a negative amount. */
  lemma DeadlockFreeIfNonNegative(states: seq<Bank>, i: nat, u: nat)
    requires Run(states) && i < |states| && Unfinished(states[i], u)
    requires forall t | t in states[i].threads && states[i].threads[t].call.Withdraw? ::
      states[i].threads[t].call.amount >= 0
    ensures exists t :: CanStep(states[i], t)
  {
    RunInv(states, i);
    var b := states[i];
    forall w, v | BlockedBy(b, w, v) ensures !Finished(b, v) {
      assert HolderOk(b, Wanted(b, w)) && ThreadOk(b, v);
    }
    DeadlockFree(states, i, u);
  }

  /** A step leaves everybody else and what they hold alone. */
  lemma StepSpares(b: Bank, t: nat, v: nat, id: int)
    requires Inv(b) && CanStep(b, t) && v != t && id in b.accounts && b.accounts[id].holder == By(v)
    ensures id in Advance(b, t).accounts && Advance(b, t).accounts[id].holder == By(v)
  {
    assert ThreadOk(b, t);
  }

  lemma LinkStays(b: Bank, t: nat, w: nat, v: nat)
    requires Inv(b) && CanStep(b, t) && BlockedBy(b, w, v) && v != t
    ensures BlockedBy(Advance(b, t), w, v)
  {
    StepSpares(b, t, v, Wanted(b, w));
  }

  lemma ChainStays(b: Bank, t: nat, q: seq<nat>)
    requires Inv(b) && CanStep(b, t) && Chain(b, q)
    ensures Chain(Advance(b, t), q)
  {
    forall k | 0 <= k < |q| ensures q[k] != t {
      if k < |q| - 1 { assert BlockedBy(b, q[k], q[k + 1]); }
    }
    forall k | 0 <= k < |q| - 1 ensures BlockedBy(Advance(b, t), q[k], q[k + 1]) {
      assert BlockedBy(b, q[k], q[k + 1]);
      LinkStays(b, t, q[k], q[k + 1]);
    }
    assert Advance(b, t).threads[q[|q| - 1]] == b.threads[q[|q| - 1]];
  }

  lemma ChainHead(b: Bank, q: seq<nat>)
    requires Chain(b, q)
    ensures Unfinished(b, q[0]) && !CanStep(b, q[0])
  {
    assert BlockedBy(b, q[0], q[1]);
  }

  lemma ChainEnds(b: Bank, q: seq<nat>)
    requires Chain(b, q)
    ensures exists w, v :: BlockedBy(b, w, v) && Finished(b, v)
  {
    var k := |q| - 2;
    assert BlockedBy(b, q[k], q[k + 1]);
  }

  /** And a call that is stuck in this way stays stuck. */
  lemma {:induction false} DoomedForever(states: seq<Bank>, i: nat, j: nat, u: nat)
    requires Run(states) && i <= j < |states| && Doomed(states[i], u)
    ensures Doomed(states[j], u) && Unfinished(states[j], u) && !CanStep(states[j], u)
    decreases j
  {
    if i < j {
      DoomedForever(states, i, j - 1, u);
      RunInv(states, j - 1);
      var q :| Chain(states[j - 1], q) && q[0] == u;
      assert Follows(states, j - 1);
      ChainLasts(states[j - 1], states[j], q);
    }
    var q :| Chain(states[j], q) && q[0] == u;
    ChainHead(states[j], q);
  }

  lemma ChainLasts(b: Bank, d: Bank, q: seq<nat>)
    requires Inv(b) && Next(b, d) && Chain(b, q)
    ensures Chain(d, q)
  {
    if t: nat :| Moves(b, d, t) {
      ChainStays(b, t, q);
    } else {
      var t: nat, c: Call :| Begins(b, d, t, c);
      forall k | 0 <= k < |q| - 1 ensures BlockedBy(d, q[k], q[k + 1]) {
        assert BlockedBy(b, q[k], q[k + 1]);
      }
    }
  }

  /** A Withdraw returns with its account still locked if and only if the balance it
      finds is negative and at least the amount. */
  lemma LeakIff(states: seq<Bank>, i: nat, t: nat)
    requires Run(states) && i < |states| && CanStep(states[i], t)
    requires states[i].threads[t].call.Withdraw? && states[i].threads[t].pc.Inside?
    ensures var c := states[i].threads[t].call;
      c.id in states[i].accounts &&
      (Advance(states[i], t).threads[t].pc == Done(Bool(false), true) <==>
         c.amount <= states[i].accounts[c.id].balance < 0)
  {
    RunInv(states, i);
    assert ThreadOk(states[i], t);
  }

  /** Once that happened the account stays locked, and nobody who waits for it steps again. */
  lemma {:induction false} LeakedForever(states: seq<Bank>, i: nat, j: nat, t: nat)
    requires Run(states) && i <= j < |states|
    requires t in states[i].threads && states[i].threads[t].pc.Done? && states[i].threads[t].pc.leaked
    ensures t in states[j].threads && states[j].threads[t] == states[i].threads[t]
    ensures Main(states[i].threads[t].call) in states[j].accounts
    ensures forall u | u in states[j].threads && states[j].threads[u].pc.WantFirst? &&
      First(states[j].threads[u].call) == Main(states[i].threads[t].call) :: !CanStep(states[j], u)
    decreases j
  {
    if i < j {
      LeakedForever(states, i, j - 1, t);
      assert Follows(states, j - 1);
      DoneStays(states[j - 1], states[j], t);
    }
    RunInv(states, j);
    LeakBlocks(states[j], t);
  }

  lemma DoneStays(b: Bank, d: Bank, t: nat)
    requires Next(b, d) && t in b.threads && b.threads[t].pc.Done?
    ensures t in d.threads && d.threads[t] == b.threads[t]
  {
    if u: nat :| Moves(b, d, u) {
      OthersStay(b, u, t);
    }
  }

  lemma OthersStay(b: Bank, u: nat, t: nat)
    requires CanStep(b, u) && t in b.threads && t != u
    ensures t in Advance(b, u).threads && Advance(b, u).threads[t] == b.threads[t]
  {
  }

  lemma LeakBlocks(b: Bank, t: nat)
    requires Inv(b) && t in b.threads && b.threads[t].pc.Done? && b.threads[t].pc.leaked
    ensures Main(b.threads[t].call) in b.accounts
    ensures forall u | u in b.threads && b.threads[u].pc.WantFirst? &&
      First(b.threads[u].call) == Main(b.threads[t].call) :: !CanStep(b, u)
  {
    assert ThreadOk(b, t);
  }

  // ----- money -----------------------------------------------------------------

  ghost function Sum(m: map<int, int>): int
    decreases m.Keys
  {
    if |m.Keys| == 0 then 0 else
      var k := Pick(m.Keys);
      m[k] + Sum(m - {k})
  }

  lemma {:induction false} SumRemove(m: map<int, int>, k: int)
    requires k in m
    ensures Sum(m) == m[k] + Sum(m - {k})
    decreases m.Keys
  {
    var j := Pick(m.Keys);
    if j != k {
      var p, q := m - {j}, m - {k};
      assert j !in p && k !in q;
      SumRemove(p, k);
      SumRemove(q, j);
      assert p - {k} == q - {j};
    }
  }

  lemma SumUpdate(m: map<int, int>, k: int, v: int)
    ensures Sum(m[k := v]) == Sum(m) + v - (if k in m then m[k] else 0)
  {
    SumRemove(m[k := v], k);
    assert m[k := v] - {k} == m - {k};
    if k in m {
      SumRemove(m, k);
    } else {
      assert m - {k} == m;
    }
  }

  /** What one call adds to the bank's money when it runs on balances m. */
  function Flow(m: map<int, int>, c: Call): int {
    match c
    case Deposit(id, amount) => if id in m then amount else 0
    case DepositAndCompare(id, amount, _) => if id in m && amount > 0 then amount else 0
    case Withdraw(_, amount) => if Serial(m, c).1 == Bool(true) then -amount else 0
    case _ => 0
  }

  function Ledger(order: seq<Event>): int {
    if order == [] then 0
    else Ledger(order[..|order| - 1]) + Flow(Play(order[..|order| - 1]), order[|order| - 1].call)
  }

  lemma TransferIsExact(m: map<int, int>, from: int, to: int, amount: int)
    requires from in m && to in m && from != to
    ensures Sum(m[from := m[from] - amount][to := m[to] + amount]) == Sum(m)
  {
    SumUpdate(m, from, m[from] - amount);
    SumUpdate(m[from := m[from] - amount], to, m[to] + amount);
  }

  /** A call on one known account changes that account by its flow and nothing else. */
  lemma SerialIsFlow(m: map<int, int>, c: Call)
    requires !c.Create? && !c.Transfer? && c.id in m
    ensures Serial(m, c).0 == m[c.id := m[c.id] + Flow(m, c)]
  {
    assert m[c.id := m[c.id]] == m;
  }

  lemma SingleIsExact(m: map<int, int>, c: Call)
    requires !c.Create? && !c.Transfer? && c.id in m
    ensures Sum(Serial(m, c).0) == Sum(m) + Flow(m, c)
  {
    SerialIsFlow(m, c);
    SumUpdate(m, c.id, m[c.id] + Flow(m, c));
  }

  lemma FlowIsExact(m: map<int, int>, c: Call)
    ensures Sum(Serial(m, c).0) == Sum(m) + Flow(m, c)
  {
    if c.Create? {
      if c.id !in m {
        SumUpdate(m, c.id, 0);
        assert Serial(m, c).0 == m[c.id := 0];
      }
    } else if c.Transfer? {
      var moved := Serial(m, c).1 == Bool(true);
      if moved {
        TransferIsExact(m, c.from, c.to, c.amount);
      } else {
        assert Serial(m, c).0 == m;
      }
    } else if c.id in m {
      SingleIsExact(m, c);
    } else {
      assert Serial(m, c).0 == m;
    }
  }

  lemma {:induction false} LedgerIsSum(order: seq<Event>)
    ensures Sum(Play(order)) == Ledger(order)
  {
    if order != [] {
      var k := |order| - 1;
      LedgerIsSum(order[..k]);
      FlowIsExact(Play(order[..k]), order[k].call);
    }
  }

  /** Conservation: whenever no transfer is between its two writes, the balances sum
      to the deposits minus the successful withdrawals of some explaining order. */
  lemma MoneyIsConserved(states: seq<Bank>, i: nat)
    requires Run(states) && i < |states| && Quiet(states[i])
    ensures exists order :: Explains(states[i], order) && Sum(Visible(states[i])) == Ledger(order)
  {
    RunInv(states, i);
    OrderExplains(states[i]);
    LedgerIsSum(states[i].order);
  }

  /** Amounts are not negative and no Transfer may overdraw. */
  predicate Tame(c: Call) {
    match c
    case Deposit(_, amount) => amount >= 0
    case Withdraw(_, amount) => amount >= 0
    case Transfer(_, _, amount, overdraw) => amount >= 0 && !overdraw
    case _ => true
  }

  lemma {:induction false} TameStaysPositive(order: seq<Event>)
    requires forall i :: 0 <= i < |order| ==> Tame(order[i].call)
    ensures forall id | id in Play(order) :: Play(order)[id] >= 0
  {
    if order != [] {
      TameStaysPositive(order[..|order| - 1]);
    }
  }

  /** In every state of a run of tame calls, even inside a transfer, no balance is negative. */
  lemma NoNegativeBalance(states: seq<Bank>, i: nat, id: int)
    requires Run(states) && i < |states| && id in states[i].accounts
    requires forall t | t in states[i].threads :: Tame(states[i].threads[t].call)
    ensures states[i].accounts[id].balance >= 0
  {
    RunInv(states, i);
    var b := states[i];
    forall k | 0 <= k < |b.order| ensures Tame(b.order[k].call) {
      assert Recorded(b, b.order[k]);
    }
    TameStaysPositive(b.order);
    assert Balances(b)[id] >= 0;
    if b.accounts[id].holder.By? {
      assert HolderOk(b, id) && ThreadOk(b, b.accounts[id].holder.t);
    }
  }

  // ----- DepositAndCompare -----------------------------------------------------

  lemma DivisionStep(n: nat, a: int, t: int)
    requires a > 0 && t >= 1
    ensures Min(n + 1, (t - 1) / a) == Min(n, (t - 1) / a) + (if (n + 1) * a < t then 1 else 0)
  {
    var q := (t - 1) / a;
    assert q * a <= t - 1 < (q + 1) * a;
    if n + 1 <= q {
      assert (n + 1) * a <= q * a;
    } else {
      assert (n + 1) * a >= (q + 1) * a;
    }
  }

  /** The event is call c, and if `refused` one that returned false. */
  predicate Matches(e: Event, c: Call, refused: bool) {
    e.call == c && (refused ==> e.r == Bool(false))
  }

  function Tally(order: seq<Event>, c: Call, refused: bool): nat {
    if order == [] then 0
    else Tally(order[..|order| - 1], c, refused) + (if Matches(order[|order| - 1], c, refused) then 1 else 0)
  }

  lemma TallyNext(order: seq<Event>, k: nat, c: Call, refused: bool)
    requires k < |order|
    ensures Tally(order[..k + 1], c, refused) ==
            Tally(order[..k], c, refused) + (if Matches(order[k], c, refused) then 1 else 0)
  {
    assert order[..k + 1][..k] == order[..k];
  }

  lemma PlayNext(order: seq<Event>, k: nat)
    requires k < |order|
    ensures Play(order[..k + 1]) == Serial(Play(order[..k]), order[k].call).0
  {
    assert order[..k + 1][..k] == order[..k];
  }

  /** A call on other accounts leaves an account, and its absence, alone. */
  lemma SerialElsewhere(m: map<int, int>, c: Call, id: int)
    requires id !in Needs(c)
    ensures id in Serial(m, c).0 <==> id in m
    ensures id in m ==> Serial(m, c).0[id] == m[id]
  {
  }

  /** Event p creates account id, and of the other events on it each is call c and comes later. */
  ghost predicate Opens(order: seq<Event>, p: nat, id: int, c: Call) {
    && p < |order| && order[p].call == Create(id)
    && forall k {:trigger order[k]} :: 0 <= k < |order| && k != p && id in Needs(order[k].call) ==>
      order[k].call == c && p < k
  }

  /** After k events the account holds a for each deposit, and all but the first (t-1)/a
      of these reached the threshold. */
  ghost predicate Balanced(order: seq<Event>, p: nat, id: int, a: int, t: int, k: nat)
    requires a > 0 && k <= |order|
  {
    var c := DepositAndCompare(id, a, t);
    var n := Tally(order[..k], c, false);
    if k <= p then id !in Play(order[..k]) && n == Tally(order[..k], c, true) == 0
    else id in Play(order[..k]) && Play(order[..k])[id] == n * a && Tally(order[..k], c, true) == Min(n, (t - 1) / a)
  }

  lemma {:induction false} TallyRefusals(order: seq<Event>, p: nat, id: int, a: int, t: int, k: nat)
    requires Faithful(order) && Opens(order, p, id, DepositAndCompare(id, a, t)) && a > 0 && t >= 1 && k <= |order|
    ensures Balanced(order, p, id, a, t, k)
  {
    if k > 0 {
      TallyRefusals(order, p, id, a, t, k - 1);
      if k - 1 == p || id !in Needs(order[k - 1].call) {
        BalancedElsewhere(order, p, id, a, t, k - 1);
      } else {
        BalancedDeposit(order, p, id, a, t, k - 1);
      }
    }
  }

  /** The account is created, or the event does not touch it. */
  lemma BalancedElsewhere(order: seq<Event>, p: nat, id: int, a: int, t: int, k: nat)
    requires a > 0 && t >= 1 && k < |order| && p < |order| && order[p].call == Create(id)
    requires Balanced(order, p, id, a, t, k) && (k == p || id !in Needs(order[k].call))
    ensures Balanced(order, p, id, a, t, k + 1)
  {
    var c := DepositAndCompare(id, a, t);
    TallyNext(order, k, c, false);
    TallyNext(order, k, c, true);
    PlayNext(order, k);
    if k != p { SerialElsewhere(Play(order[..k]), order[k].call, id); }
  }

  lemma BalancedDeposit(order: seq<Event>, p: nat, id: int, a: int, t: int, k: nat)
    requires a > 0 && t >= 1 && p < k < |order| && order[k].call == DepositAndCompare(id, a, t)
    requires Faithful(order) && Balanced(order, p, id, a, t, k)
    ensures Balanced(order, p, id, a, t, k + 1)
  {
    var c := DepositAndCompare(id, a, t);
    assert EventOk(order, k);
    TallyNext(order, k, c, false);
    TallyNext(order, k, c, true);
    PlayNext(order, k);
    DepositAgain(Play(order[..k]), Tally(order[..k], c, false), id, a, t);
  }

  /** One more deposit. */
  lemma DepositAgain(m: map<int, int>, n: nat, id: int, a: int, t: int)
    requires a > 0 && t >= 1 && id in m && m[id] == n * a
    ensures Serial(m, DepositAndCompare(id, a, t)) == (m[id := (n + 1) * a], Bool((n + 1) * a >= t))
    ensures Min(n + 1, (t - 1) / a) == Min(n, (t - 1) / a) + (if (n + 1) * a < t then 1 else 0)
  {
    assert n * a + a == (n + 1) * a;
    DivisionStep(n, a, t);
  }

  /** The threads of those of the first k events that match. */
  function Matched(order: seq<Event>, k: nat, c: Call, refused: bool): set<nat>
    requires k <= |order|
  {
    set i | 0 <= i < k && Matches(order[i], c, refused) :: order[i].t
  }

  lemma MatchedNext(order: seq<Event>, k: nat, c: Call, refused: bool)
    requires Once(order) && k < |order|
    ensures Matched(order, k + 1, c, refused) ==
            Matched(order, k, c, refused) + (if Matches(order[k], c, refused) then {order[k].t} else {})
    ensures order[k].t !in Matched(order, k, c, refused)
  {
  }

  /** Events are counted by their threads. */
  lemma {:induction false} TallyThreads(order: seq<Event>, k: nat, c: Call, refused: bool)
    requires Once(order) && k <= |order|
    ensures Tally(order[..k], c, refused) == |Matched(order, k, c, refused)|
  {
    if k > 0 {
      TallyThreads(order, k - 1, c, refused);
      TallyNext(order, k - 1, c, refused);
      MatchedNext(order, k - 1, c, refused);
    }
  }

  function Callers(b: Bank, c: Call): set<nat> {
    set u | u in b.threads && b.threads[u].call == c
  }

  function Refused(b: Bank, c: Call): set<nat> {
    set u | u in b.threads && b.threads[u].call == c && b.threads[u].pc == Done(Bool(false), false)
  }

  /** When all calls c are done, their events and their threads are the same calls. */
  lemma CallersInOrder(b: Bank, c: Call)
    requires Inv(b) && !c.Withdraw? && forall u | u in Callers(b, c) :: Finished(b, u)
    ensures Tally(b.order, c, false) == |Callers(b, c)| && Tally(b.order, c, true) == |Refused(b, c)|
  {
    var n := |b.order|;
    assert b.order[..n] == b.order;
    TallyThreads(b.order, n, c, false);
    TallyThreads(b.order, n, c, true);
    forall u: nat
      ensures u in Matched(b.order, n, c, false) <==> u in Callers(b, c)
      ensures u in Matched(b.order, n, c, true) <==> u in Refused(b, c)
    {
      CallerInOrder(b, c, u);
    }
    assert Matched(b.order, n, c, false) == Callers(b, c) && Matched(b.order, n, c, true) == Refused(b, c);
  }

  lemma CallerInOrder(b: Bank, c: Call, u: nat)
    requires Inv(b) && !c.Withdraw? && (u in Callers(b, c) ==> Finished(b, u))
    ensures u in Matched(b.order, |b.order|, c, false) <==> u in Callers(b, c)
    ensures u in Matched(b.order, |b.order|, c, true) <==> u in Refused(b, c)
  {
    var n := |b.order|;
    if u in Callers(b, c) {
      DoneIsInOrder(b, u);
      assert ThreadOk(b, u);
    }
    forall k | 0 <= k < n && b.order[k].t == u ensures Recorded(b, b.order[k]) {}
  }

  lemma {:induction false} CallsStay(states: seq<Bank>, i: nat, j: nat, u: nat)
    requires Run(states) && i <= j < |states| && u in states[i].threads
    ensures u in states[j].threads && states[j].threads[u].call == states[i].threads[u].call
    decreases j
  {
    if i < j {
      CallsStay(states, i, j - 1, u);
      assert Follows(states, j - 1);
      CallStays(states[j - 1], states[j], u);
    }
  }

  lemma CallStays(b: Bank, d: Bank, u: nat)
    requires Next(b, d) && u in b.threads
    ensures u in d.threads && d.threads[u].call == b.threads[u].call
  {
    if t: nat :| Moves(b, d, t) {
      if t == u { CallIsKept(b, t); } else { OthersStay(b, t, u); }
    }
  }

  lemma CallIsKept(b: Bank, t: nat)
    requires CanStep(b, t)
    ensures t in Advance(b, t).threads && Advance(b, t).threads[t].call == b.threads[t].call
  {
  }

  /** Thread z has created account id, and no other call so far is on it. */
  ghost predicate Fresh(b: Bank, z: nat, id: int) {
    && z in b.threads && b.threads[z] == Thread(Create(id), Done(Unit, false))
    && forall u | u in b.threads && u != z :: id !in Needs(b.threads[u].call)
  }

  /** n DepositAndCompare calls of amount a > 0 and threshold t >= 1 on a fresh account
      return false exactly min(n, (t-1)/a) times in every interleaving, whatever other
      calls on other accounts run, finished or not, before and beside them. */
  lemma DepositAndCompareCount(states: seq<Bank>, i: nat, j: nat, z: nat, id: int, a: int, t: int)
    requires Run(states) && i <= j < |states| && a > 0 && t >= 1 && Fresh(states[i], z, id)
    requires forall u | u in states[j].threads && u != z && id in Needs(states[j].threads[u].call) ::
      states[j].threads[u].call == DepositAndCompare(id, a, t) && Finished(states[j], u)
    ensures var c := DepositAndCompare(id, a, t);
      |Refused(states[j], c)| == Min(|Callers(states[j], c)|, (t - 1) / a)
  {
    RunInv(states, j);
    var c := DepositAndCompare(id, a, t);
    var order := states[j].order;
    CallsStay(states, i, j, z);
    var p := CreatedAt(states, i, j, z, id, c);
    TallyRefusals(order, p, id, a, t, |order|);
    assert order[..|order|] == order;
    CallersInOrder(states[j], c);
  }

  lemma CreatedAt(states: seq<Bank>, i: nat, j: nat, z: nat, id: int, c: Call) returns (p: nat)
    requires Run(states) && i <= j < |states| && Fresh(states[i], z, id)
    requires forall u | u in states[j].threads && u != z && id in Needs(states[j].threads[u].call) ::
      states[j].threads[u].call == c
    ensures Opens(states[j].order, p, id, c)
  {
    RunInv(states, i);
    RunInv(states, j);
    OrderGrows(states, i, j);
    DoneIsInOrder(states[i], z);
    var order := states[j].order;
    p :| p < |states[i].order| && states[i].order[p] == Event(z, Create(id), Unit);
    assert order[p] == Event(z, Create(id), Unit);
    forall k | 0 <= k < |order| && k != p && id in Needs(order[k].call) ensures order[k].call == c && p < k {
      assert Recorded(states[j], order[k]);
      assert order[k].t != z;
      if order[k].t in states[i].threads { CallsStay(states, i, j, order[k].t); }
      FinishedComesFirst(states, i, j, p, k);
    }
  }
}
