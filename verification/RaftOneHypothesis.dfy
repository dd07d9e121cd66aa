/** What one of the three hypotheses gives alone: under H-a a receiver keeps what it took
    over within a term, so that a stale batch is refused; under H-b a leader's index arrays
    and heartbeat loops stay inside its log.

    Each half adds its own clauses to `Base` and is proved step by step from there. */
module RaftOneHypothesis {
  import opened RaftServer
  import opened RaftSystem
  import opened RaftInvariant
  import opened RaftBasics

  // ----- H-a -------------------------------------------------------------------

  /** Who accepted a request still holds at least its log while in its term. */
  ghost predicate Retains(y: System, a: Ack) {
    a.reply.success && a.k < |y.appends| && y.appends[a.k].to < |y.servers| ==>
      var m := y.appends[a.k];
      var s := y.servers[m.to];
      && m.args.term <= s.term
      && (m.args.term == s.term ==>
            s.term in y.reigns && s.log <= y.reigns[s.term].log && |m.snapshot| <= |s.log|)
  }

  ghost predicate Retained(y: System) {
    Base(y) && forall a {:trigger Retains(y, a)} | a in y.acks :: Retains(y, a)
  }

  /** A step that is not a delivery leaves the logs of all but the sender of the term alone. */
  lemma RetainsUndelivered(y: System, step: Step, a: Ack)
    requires Retained(y) && Enabled(y, step) && !step.Deliver? && a in y.acks
    ensures Retains(Do(y, step), a)
  {
    assert Retains(y, a) && Told(y, a) && Sent(y, y.appends[a.k]);
    ReignsStep(y, step);
    assert step.Propose? ==> Sound(y, step.l);
    UndeliveredFrame(y, step, y.appends[a.k].to);
  }

  lemma UndeliveredFrame(y: System, step: Step, j: nat)
    requires Base(y) && Enabled(y, step) && !step.Deliver? && j < |y.servers|
    ensures var s, s' := y.servers[j], Do(y, step).servers[j];
      && s.term <= s'.term && y.appends <= Do(y, step).appends && |Do(y, step).servers| == |y.servers|
      && (s'.log == s.log || (step.Propose? && step.l == j && s.role == Leader && s'.term == s.term))
  {
  }

  /** A log taken over in the term it was accepted in is never shorter than before. */
  lemma TakenIsLonger(y: System, k: nat, a: Ack)
    requires Retained(y) && Enabled(y, Deliver(k)) && FreshHeartbeat(y, k) && a in y.acks && a.reply.success
    requires AppendEntries(y.servers[y.appends[k].to], y.appends[k].args).1.success
    requires a.k < |y.appends| && y.appends[a.k].to == y.appends[k].to
    requires y.appends[a.k].args.term == y.appends[k].args.term
    ensures |y.appends[a.k].snapshot| <= |y.appends[k].snapshot|
  {
    var m, m' := y.appends[k], y.appends[a.k];
    var s := y.servers[m.to];
    assert Retains(y, a) && Sent(y, m) && Sent(y, m') && Won(y, m.args.term);
    HandledShape(s, m.args);
    if m.args.entries == [] {
      assert SameLink(m', m);
    } else {
      var log := y.reigns[m.args.term].log;
      assert s.log == log[..|s.log|];
      ShorterIsOutdated(log, |m.snapshot|, |s.log|);
      assert m.args.entries[|m.args.entries| - 1] == log[|m.snapshot| - 1];
    }
  }

  lemma RetainsDelivered(y: System, k: nat, a: Ack)
    requires Retained(y) && Enabled(y, Deliver(k)) && FreshHeartbeat(y, k) && a in y.acks
    ensures Retains(Do(y, Deliver(k)), a)
  {
    var m := y.appends[k];
    var s := y.servers[m.to];
    assert Retains(y, a) && Told(y, a) && Sent(y, m);
    HandledShape(s, m.args);
    if a.reply.success && y.appends[a.k].to == m.to && AppendEntries(s, m.args).1.success {
      TakesSnapshot(y, k);
      if y.appends[a.k].args.term == m.args.term { TakenIsLonger(y, k, a); }
    }
  }

  lemma RetainsNew(y: System, k: nat)
    requires Retained(y) && Enabled(y, Deliver(k))
    ensures var m := y.appends[k]; Retains(Do(y, Deliver(k)), Ack(k, AppendEntries(y.servers[m.to], m.args).1))
  {
    var m := y.appends[k];
    assert Sent(y, m);
    HandledShape(y.servers[m.to], m.args);
    if AppendEntries(y.servers[m.to], m.args).1.success { TakesSnapshot(y, k); }
  }

  lemma {:induction false} RetainedInRuns(n: nat, states: seq<System>, steps: seq<Step>, i: nat)
    requires n >= 1 && RunUnder({Ha}, n, states, steps) && i < |states|
    ensures Retained(states[i]) && |states[i].servers| == n
  {
    FewerHypotheses({Ha}, {}, n, states, steps);
    AnyRunBase(n, states, steps, i);
    if i > 0 {
      RetainedInRuns(n, states, steps, i - 1);
      assert LeadsTo({Ha}, states[i - 1], steps[i - 1], states[i]);
      RetainedStep(states[i - 1], steps[i - 1]);
    }
  }

  lemma RetainedStep(y: System, step: Step)
    requires Retained(y) && Enabled(y, step) && Obeys({Ha}, y, step)
    ensures forall a {:trigger Retains(Do(y, step), a)} | a in Do(y, step).acks :: Retains(Do(y, step), a)
  {
    forall a | a in Do(y, step).acks ensures Retains(Do(y, step), a) {
      if step.Deliver? {
        if a in y.acks { RetainsDelivered(y, step.k, a); } else { RetainsNew(y, step.k); }
      } else {
        RetainsUndelivered(y, step, a);
      }
    }
  }

  /** In every run that obeys H-a, a batch with entries that is shorter than one the receiver
      accepted in its present term is refused, with no effect but the reply. */
  lemma StaleBatchIsRefused(n: nat, states: seq<System>, steps: seq<Step>, i: nat, k: nat, a: Ack)
    requires n >= 1 && RunUnder({Ha}, n, states, steps) && i < |states|
    requires k < |states[i].appends| && states[i].appends[k].args.entries != []
    requires a in states[i].acks && a.reply.success && a.k < |states[i].appends|
    requires SameLink(states[i].appends[a.k], states[i].appends[k])
    requires |states[i].appends[k].snapshot| < |states[i].appends[a.k].snapshot|
    requires states[i].appends[k].to < |states[i].servers|
    requires states[i].servers[states[i].appends[k].to].term == states[i].appends[k].args.term
    requires |states[i].servers[states[i].appends[k].to].log| > 0
    ensures var m := states[i].appends[k];
      var (s, reply) := AppendEntries(states[i].servers[m.to], m.args);
      s == states[i].servers[m.to] && !reply.success && reply.term == -1
  {
    RetainedInRuns(n, states, steps, i);
    var y := states[i];
    var m := y.appends[k];
    var log, s := y.reigns[m.args.term].log, y.servers[m.to];
    assert Retains(y, a) && Sent(y, m) && Won(y, m.args.term);
    assert s.log == log[..|s.log|] && m.snapshot == log[..|m.snapshot|];
    ShorterIsOutdated(log, |m.snapshot|, |s.log|);
    assert m.args.entries[|m.args.entries| - 1] == log[|m.snapshot| - 1];
  }

  // ----- H-b -------------------------------------------------------------------

  ghost predicate Indexed(y: System, l: nat)
    requires l < |y.servers|
  {
    var s := y.servers[l];
    s.role == Leader ==> forall j :: 0 <= j < |s.nextIndex| ==> 1 <= s.nextIndex[j] <= |s.log|
  }

  ghost predicate Placed(y: System, b: Beat) {
    b.term in y.reigns && y.reigns[b.term].leader == b.leader && 1 <= b.next <= |y.reigns[b.term].log|
  }

  ghost predicate Bounded(y: System) {
    && Base(y)
    && (forall l {:trigger Indexed(y, l)} :: 0 <= l < |y.servers| ==> Indexed(y, l))
    && (forall b {:trigger Placed(y, b)} | b in y.beats :: Placed(y, b))
  }

  lemma PlacedStays(y: System, step: Step, b: Beat)
    requires Bounded(y) && Enabled(y, step) && b in y.beats
    ensures Placed(Do(y, step), b)
  {
    assert Placed(y, b);
    ReignsStep(y, step);
  }

  lemma PlacedNew(y: System, step: Step, b: Beat)
    requires Bounded(y) && Enabled(y, step) && b in Do(y, step).beats && b !in y.beats
    ensures Placed(Do(y, step), b)
  {
    if step.Tick? {
      assert Indexed(y, step.l) && Sound(y, step.l) && Won(y, y.servers[step.l].term);
    } else {
      assert step.Respond?;
      RetryRange(y, step.k, step.r);
      assert Sent(y, y.appends[step.k]);
    }
  }

  lemma IndexedCounts(y: System, k: nat, r: AppendReply)
    requires Bounded(y) && Enabled(y, Respond(k, r)) && OwnReply(y, k, r)
    ensures Indexed(Do(y, Respond(k, r)), y.appends[k].args.leader)
  {
    var m := y.appends[k];
    assert Indexed(y, m.args.leader) && Sent(y, m) && Won(y, m.args.term) && Sound(y, m.args.leader);
  }

  lemma IndexedDelivers(y: System, k: nat, l: nat)
    requires Bounded(y) && Enabled(y, Deliver(k)) && l < |y.servers|
    ensures |Do(y, Deliver(k)).servers| == |y.servers| && Indexed(Do(y, Deliver(k)), l)
  {
    assert Indexed(y, l);
    HandledShape(y.servers[y.appends[k].to], y.appends[k].args);
    if l == y.appends[k].to && y.servers[l].role == Leader { LeaderRefuses(y, k); }
  }

  lemma IndexedElse(y: System, step: Step, l: nat)
    requires Bounded(y) && Enabled(y, step) && !step.Deliver? && !step.Respond? && l < |y.servers|
    ensures |Do(y, step).servers| == |y.servers| && Indexed(Do(y, step), l)
  {
    assert Indexed(y, l) && Sound(y, l);
  }

  lemma IndexedStep(y: System, step: Step, l: nat)
    requires Bounded(y) && Enabled(y, step) && Obeys({Hb}, y, step) && l < |y.servers|
    ensures |Do(y, step).servers| == |y.servers| && Indexed(Do(y, step), l)
  {
    if step.Respond? {
      assert Indexed(y, l);
      IndexedCounts(y, step.k, step.r);
    } else if step.Deliver? {
      IndexedDelivers(y, step.k, l);
    } else {
      IndexedElse(y, step, l);
    }
  }

  /** A leader takes no request of its own term over. */
  lemma LeaderRefuses(y: System, k: nat)
    requires Base(y) && Enabled(y, Deliver(k)) && y.servers[y.appends[k].to].role == Leader
    ensures var s := Do(y, Deliver(k)).servers[y.appends[k].to];
      s.role == Leader ==> s.log == y.servers[y.appends[k].to].log
  {
    var m := y.appends[k];
    assert Sent(y, m) && Sound(y, m.to);
    HandledShape(y.servers[m.to], m.args);
  }

  lemma {:induction false} BoundedInRuns(n: nat, states: seq<System>, steps: seq<Step>, i: nat)
    requires n >= 1 && RunUnder({Hb}, n, states, steps) && i < |states|
    ensures Bounded(states[i]) && |states[i].servers| == n
  {
    FewerHypotheses({Hb}, {}, n, states, steps);
    AnyRunBase(n, states, steps, i);
    if i > 0 {
      BoundedInRuns(n, states, steps, i - 1);
      var y, step, z := states[i - 1], steps[i - 1], states[i];
      assert LeadsTo({Hb}, y, step, z);
      forall l | 0 <= l < |z.servers| ensures Indexed(z, l) { IndexedStep(y, step, l); }
      forall b | b in z.beats ensures Placed(z, b) {
        if b in y.beats { PlacedStays(y, step, b); } else { PlacedNew(y, step, b); }
      }
    }
  }

  /** In every run that obeys H-b, a heartbeat loop slices its leader's log within range. */
  lemma IndicesInRange(n: nat, states: seq<System>, steps: seq<Step>, i: nat)
    requires n >= 1 && RunUnder({Hb}, n, states, steps) && i < |states|
    ensures |states[i].servers| == n && forall b | b in states[i].beats && b.leader < n :: Sendable(states[i], b)
  {
    BoundedInRuns(n, states, steps, i);
    var y := states[i];
    forall b | b in y.beats && b.leader < n ensures Sendable(y, b) {
      assert Placed(y, b) && Won(y, b.term);
    }
  }

  ghost predicate Sendable(y: System, b: Beat)
    requires b.leader < |y.servers|
  {
    Leads(y, b.leader, b.term) ==> 1 <= b.next <= |y.servers[b.leader].log|
  }
}
