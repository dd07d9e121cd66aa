/** What the answer of each call says about the balances, in every interleaving. */
module BankAnswers {
  import opened BankSystem
  import opened BankSteps
  import opened BankTheorems

  /** The answer r of call c and the balances before and after it agree. */
  ghost predicate Agrees(c: Call, before: map<int, int>, r: Outcome, after: map<int, int>) {
    && (forall id | id in before :: id in after && (id !in Changes(c) ==> after[id] == before[id]))
    && (forall id | id in after :: id in before || (c.Create? && id == c.id))
    && match c
       case Create(id) =>
         id in after && if id in before then r == Panic && after[id] == before[id] else r == Unit && after[id] == 0
       case Deposit(id, amount) =>
         r == Unit && (id in before ==> Gains(before, after, id, amount))
       case Withdraw(id, amount) =>
         if id !in before then r == Panic
         else if amount <= before[id] && 0 <= before[id] then r == Bool(true) && Gains(before, after, id, -amount)
         else r == Bool(false) && Gains(before, after, id, 0)
       case Transfer(from, to, amount, overdraw) =>
         if from in before && to in before && from != to && (amount <= before[from] || overdraw)
         then r == Bool(true) && Gains(before, after, from, -amount) && Gains(before, after, to, amount)
         else r == Bool(false) && after == before
       case DepositAndCompare(id, amount, threshold) =>
         if id in before && amount > 0
         then Gains(before, after, id, amount) && r == Bool(after[id] >= threshold)
         else r == Bool(false) && after == before
       case GetBalance(id) =>
         if id in before then r == Num(before[id]) && after[id] == before[id] else r == Panic
  }

  /** The accounts a call may touch. */
  function Changes(c: Call): set<int> {
    if c.Transfer? then {c.from, c.to} else {c.id}
  }

  ghost predicate Gains(before: map<int, int>, after: map<int, int>, id: int, amount: int) {
    id in before && id in after && after[id] == before[id] + amount
  }

  /** Step j of the run is thread t's, and with it the call of t takes effect: it answers r,
      and the balances change as that answer says. */
  ghost predicate TakesEffect(states: seq<Bank>, j: nat, t: nat, r: Outcome) {
    && j + 1 < |states| && Moves(states[j], states[j + 1], t) && !Finished(states[j], t)
    && Agrees(states[j].threads[t].call, Balances(states[j]), r, Balances(states[j + 1]))
  }

  /** One call at a time answers that way. */
  lemma SerialAgrees(m: map<int, int>, c: Call)
    ensures Agrees(c, m, Serial(m, c).1, Serial(m, c).0)
  {
  }

  /** The effects in the order of a run happened one by one during the run. */
  lemma {:induction false} EffectStep(states: seq<Bank>, i: nat, p: nat) returns (j: nat)
    requires Run(states) && i < |states| && p < |states[i].order|
    ensures j < i && states[j].order == states[i].order[..p] && states[j + 1].order == states[i].order[..p + 1]
  {
    if i == 0 {
      assert false;
    } else {
      assert Follows(states, i - 1);
      OneEffect(states[i - 1], states[i]);
      var order := states[i - 1].order;
      if p < |order| {
        j := EffectStep(states, i - 1, p);
        assert order[..p] == states[i].order[..p] && order[..p + 1] == states[i].order[..p + 1];
      } else {
        j := i - 1;
        assert states[i].order[..p + 1] == states[i].order;
      }
    }
  }

  lemma OneEffect(b: Bank, d: Bank)
    requires Next(b, d)
    ensures b.order <= d.order && |d.order| <= |b.order| + 1
  {
  }

  /** A step that adds to the order is one of the thread it adds. */
  lemma EffectIsMine(b: Bank, d: Bank, e: Event)
    requires Next(b, d) && d.order == b.order + [e]
    ensures Moves(b, d, e.t) && b.threads[e.t].call == e.call
  {
    assert d.order != b.order;
    var t: nat :| Moves(b, d, t);
    assert e == d.order[|b.order|];
  }

  lemma EffectAgrees(b: Bank, d: Bank, e: Event)
    requires Inv(b) && Inv(d) && d.order == b.order + [e]
    ensures Agrees(e.call, Balances(b), e.r, Balances(d))
  {
    assert EventOk(d.order, |b.order|) && d.order[..|b.order|] == b.order;
    SerialAgrees(Play(b.order), e.call);
  }

  /** Every finished call took effect in one step of its own thread, after it had begun and
      before it ended, and its answer says exactly what that step did to the balances. */
  lemma AnswersAgree(states: seq<Bank>, i: nat, t: nat) returns (j: nat)
    requires Run(states) && i < |states| && Finished(states[i], t)
    ensures j < i && t in states[j].threads && states[j].threads[t].call == states[i].threads[t].call
    ensures TakesEffect(states, j, t, states[i].threads[t].pc.r)
  {
    RunInv(states, i);
    DoneIsInOrder(states[i], t);
    var e := Event(t, states[i].threads[t].call, states[i].threads[t].pc.r);
    var p :| 0 <= p < |states[i].order| && states[i].order[p] == e;
    j := EffectStep(states, i, p);
    var b, d := states[j], states[j + 1];
    assert d.order == b.order + [e];
    assert Follows(states, j);
    EffectIsMine(b, d, e);
    RunInv(states, j);
    RunInv(states, j + 1);
    EffectAgrees(b, d, e);
  }

  /** True exactly if both accounts are there and different and the sender has the amount or may
      overdraw; then the amount goes from one to the other, and else nothing changes. */
  ghost predicate TransferSays(c: Call, m: map<int, int>, r: Outcome, m': map<int, int>)
    requires c.Transfer?
  {
    && (r == Bool(true) || r == Bool(false))
    && (r == Bool(true) <==> c.from in m && c.to in m && c.from != c.to && (m[c.from] >= c.amount || c.overdraw))
    && m' == if r == Bool(true) then m[c.from := m[c.from] - c.amount][c.to := m[c.to] + c.amount] else m
  }

  lemma TransferAgrees(c: Call, m: map<int, int>, r: Outcome, m': map<int, int>)
    requires c.Transfer? && Agrees(c, m, r, m')
    ensures TransferSays(c, m, r, m')
  {
    if r == Bool(true) {
      var moved := m[c.from := m[c.from] - c.amount][c.to := m[c.to] + c.amount];
      forall id ensures id in m' <==> id in moved {}
      forall id | id in m' ensures m'[id] == moved[id] {}
    }
  }

  /** So every finished Transfer of every run, for the balances around its one effective step. */
  lemma TransferAnswer(states: seq<Bank>, i: nat, t: nat) returns (j: nat)
    requires Run(states) && i < |states| && Finished(states[i], t) && states[i].threads[t].call.Transfer?
    ensures j < i && Moves(states[j], states[j + 1], t) && !Finished(states[j], t)
    ensures TransferSays(states[i].threads[t].call,
      Balances(states[j]), states[i].threads[t].pc.r, Balances(states[j + 1]))
  {
    j := AnswersAgree(states, i, t);
    var c := states[i].threads[t].call;
    TransferAgrees(c, Balances(states[j]), states[i].threads[t].pc.r, Balances(states[j + 1]));
  }
}
