/** Deadlock freedom needs the amounts of Withdraw not to be negative: a run of four
    calls whose second Deposit can never go on. */
module BankLeak {
  import opened BankSystem

  ghost predicate Reached(b: Bank) {
    exists states :: Run(states) && states[|states| - 1] == b
  }

  lemma Extend(b: Bank, d: Bank)
    requires Reached(b) && Next(b, d)
    ensures Reached(d)
  {
    var states :| Run(states) && states[|states| - 1] == b;
    var longer := states + [d];
    forall i: nat | i + 1 < |longer| ensures Follows(longer, i) {
      if i + 1 < |states| { assert Follows(states, i); }
    }
    assert Run(longer) && longer[|longer| - 1] == d;
  }

  lemma Begin(b: Bank, t: nat, c: Call)
    requires Reached(b) && t !in b.threads
    ensures Reached(Invoke(b, t, c))
  {
    assert Begins(b, Invoke(b, t, c), t, c);
    Extend(b, Invoke(b, t, c));
  }

  lemma Go(b: Bank, t: nat)
    requires Reached(b) && CanStep(b, t)
    ensures Reached(Advance(b, t))
  {
    assert Moves(b, Advance(b, t), t);
    Extend(b, Advance(b, t));
  }

  const OPEN := Create(1)
  const OWE := Deposit(1, -5)
  const TAKE := Withdraw(1, -10)
  const WAIT := Deposit(1, 1)

  const OPENED := Bank(
    map[1 := Account(0, Free)], Free, map[0 := Thread(OPEN, Done(Unit, false))], [Event(0, OPEN, Unit)])
  const ENTERED := OPENED.(
    accounts := map[1 := Account(0, By(1))], threads := OPENED.threads[1 := Thread(OWE, Inside)])
  const OWED := OPENED.(
    accounts := map[1 := Account(-5, Free)],
    threads := OPENED.threads[1 := Thread(OWE, Done(Unit, false))],
    order := OPENED.order + [Event(1, OWE, Unit)])
  const LEAKED := OWED.(
    accounts := map[1 := Account(-5, By(2))],
    threads := OWED.threads[2 := Thread(TAKE, Done(Bool(false), true))],
    order := OWED.order + [Event(2, TAKE, Bool(false))])
  const STUCK := LEAKED.(threads := LEAKED.threads[3 := Thread(WAIT, WantFirst)])

  lemma ReachOpened()
    ensures Reached(OPENED)
  {
    assert Run([EMPTY]);
    assert [EMPTY][|[EMPTY]| - 1] == EMPTY;
    Begin(EMPTY, 0, OPEN);
    var b := Invoke(EMPTY, 0, OPEN);
    Go(b, 0);
    b := Advance(b, 0);
    Go(b, 0);
    b := Advance(b, 0);
    Go(b, 0);
    assert Advance(b, 0) == OPENED;
  }

  lemma ReachEntered()
    ensures Reached(ENTERED)
  {
    ReachOpened();
    Begin(OPENED, 1, OWE);
    var b := Invoke(OPENED, 1, OWE);
    Go(b, 1); b := Advance(b, 1);
    Go(b, 1); b := Advance(b, 1);
    Go(b, 1); b := Advance(b, 1);
    Go(b, 1); b := Advance(b, 1);
    assert b == ENTERED;
  }

  lemma ReachOwed()
    ensures Reached(OWED)
  {
    ReachEntered();
    var b := ENTERED;
    Go(b, 1); b := Advance(b, 1);
    Go(b, 1); b := Advance(b, 1);
    Go(b, 1); b := Advance(b, 1);
    assert b == OWED;
  }

  const TAKING := OWED.(
    bankHolder := By(2), threads := OWED.threads[2 := Thread(TAKE, LeavingBank(Pending))])

  lemma ReachTaking()
    ensures Reached(TAKING)
  {
    ReachOwed();
    Begin(OWED, 2, TAKE);
    var b := Invoke(OWED, 2, TAKE);
    Go(b, 2); b := Advance(b, 2);
    Go(b, 2); b := Advance(b, 2);
    assert b == TAKING;
  }

  lemma ReachLeaked()
    ensures Reached(LEAKED)
  {
    ReachTaking();
    var b := TAKING;
    Go(b, 2); b := Advance(b, 2);
    Go(b, 2); b := Advance(b, 2);
    Go(b, 2); b := Advance(b, 2);
    assert b == LEAKED;
  }

  lemma ReachStuck()
    ensures Reached(STUCK)
  {
    ReachLeaked();
    Begin(LEAKED, 3, WAIT);
    var b := Invoke(LEAKED, 3, WAIT);
    Go(b, 3); b := Advance(b, 3);
    Go(b, 3); b := Advance(b, 3);
    Go(b, 3); b := Advance(b, 3);
    assert b == STUCK;
  }

  /** After Create(1), Deposit(1, -5) and Withdraw(1, -10) a further Deposit(1, 1) is
      unfinished and no thread can step. */
  lemma NegativeWithdrawDeadlocks()
    ensures exists b ::
      Reached(b) && (exists t :: t in b.threads && !b.threads[t].pc.Done?) && (forall t :: !CanStep(b, t))
  {
    ReachStuck();
    assert 3 in STUCK.threads && !STUCK.threads[3].pc.Done?;
    forall t ensures !CanStep(STUCK, t) {
      assert t in STUCK.threads ==> t == 0 || t == 1 || t == 2 || t == 3;
    }
  }
}
