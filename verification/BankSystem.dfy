/** The bank of bank.go: any number of threads, each running one call, interleaved
    at the level of single lock operations, loads and stores. */
module BankSystem {
  datatype Call =
    | Create(id: int)
    | Deposit(id: int, amount: int)
    | Withdraw(id: int, amount: int)
    | Transfer(from: int, to: int, amount: int, overdraw: bool)
    | DepositAndCompare(id: int, amount: int, threshold: int)
    | GetBalance(id: int)

  datatype Outcome = Unit | Bool(b: bool) | Num(n: int) | Panic

  datatype Owner = Free | By(t: nat)

  datatype Account = Account(balance: int, holder: Owner)

  datatype Found = Pending | Known(r: Outcome)

  /** Where a thread stands in its call. */
  datatype Pc =
    | Ready                        // before bankLock.Lock
    | Looking                      // holds bankLock, before the lookup
    | LeavingBank(found: Found)    // before bankLock.Unlock
    | WantFirst                    // before the (first) account's Lock
    | WantSecond                   // Transfer: before the second account's Lock
    | Inside                       // holds every account lock it needs
    | Loaded(x: int)               // new balance of the main account computed
    | Debited                      // Transfer: sender written, receiver not yet
    | Stored                       // DepositAndCompare: before the comparison
    | Releasing(r: Outcome)        // before the (second) Unlock
    | LastLock(r: Outcome)         // Transfer: before the first account's Unlock
    | Done(r: Outcome, leaked: bool)

  datatype Thread = Thread(call: Call, pc: Pc)

  datatype Event = Event(t: nat, call: Call, r: Outcome)

  /** `order` is history: the calls in the order in which they take effect. */
  datatype Bank = Bank(accounts: map<int, Account>, bankHolder: Owner, threads: map<nat, Thread>, order: seq<Event>)

  const EMPTY := Bank(map[], Free, map[], [])

  function Needs(c: Call): set<int> {
    if c.Transfer? then {c.from, c.to} else {c.id}
  }

  function First(c: Call): int {
    if c.Transfer? then (if c.from < c.to then c.from else c.to) else c.id
  }

  function Second(c: Call): int {
    if c.Transfer? then (if c.from < c.to then c.to else c.from) else c.id
  }

  function Main(c: Call): int {
    if c.Transfer? then c.from else c.id
  }

  /** The call asks for nothing more than its bank lookup. */
  predicate Goes(c: Call, known: set<int>) {
    !c.Create? && Needs(c) <= known && (c.DepositAndCompare? ==> c.amount > 0)
  }

  function Missing(c: Call): Outcome {
    match c
    case Deposit(_, _) => Unit
    case Transfer(_, _, _, _) => Bool(false)
    case DepositAndCompare(_, _, _) => Bool(false)
    case _ => Panic
  }

  // ----- one call at a time ----------------------------------------------------

  /** What a call does when nothing else runs. */
  function Serial(m: map<int, int>, c: Call): (map<int, int>, Outcome) {
    if c.Create? then
      if c.id in m then (m, Panic) else (m[c.id := 0], Unit)
    else if c.Transfer? && c.from == c.to then (m, Bool(false))
    else if !Goes(c, m.Keys) then (m, Missing(c))
    else
      var bal := m[Main(c)];
      match c
      case Deposit(id, amount) => (m[id := bal + amount], Unit)
      case Withdraw(id, amount) =>
        if bal >= amount && bal >= 0 then (m[id := bal - amount], Bool(true)) else (m, Bool(false))
      case Transfer(from, to, amount, overdraw) =>
        if bal >= amount || overdraw
        then (m[from := bal - amount][to := m[to] + amount], Bool(true)) else (m, Bool(false))
      case DepositAndCompare(id, amount, threshold) =>
        (m[id := bal + amount], Bool(bal + amount >= threshold))
      case GetBalance(id) => (m, Num(bal))
  }

  function Play(order: seq<Event>): map<int, int> {
    if order == [] then map[] else Serial(Play(order[..|order| - 1]), order[|order| - 1].call).0
  }

  /** Every outcome in `order` is what the call returns when run in that order alone. */
  ghost predicate Faithful(order: seq<Event>) {
    forall i {:trigger EventOk(order, i)} :: 0 <= i < |order| ==> EventOk(order, i)
  }

  ghost predicate EventOk(order: seq<Event>, i: nat)
    requires i < |order|
  {
    order[i].r == Serial(Play(order[..i]), order[i].call).1
  }

  /** Each thread's call takes effect once. */
  ghost predicate Once(order: seq<Event>) {
    forall i, j :: 0 <= i < j < |order| ==> order[i].t != order[j].t
  }

  // ----- interleaved steps -----------------------------------------------------

  predicate Waiting(pc: Pc) { pc.Ready? || pc.Looking? || pc.LeavingBank? || pc.Done? }

  predicate CanStep(b: Bank, t: nat) {
    && t in b.threads
    && var c := b.threads[t].call;
    && var pc := b.threads[t].pc;
    && (!Waiting(pc) ==> Needs(c) <= b.accounts.Keys)
    && match pc
       case Ready => b.bankHolder.Free? || (c.Transfer? && c.from == c.to)
       case WantFirst => b.accounts[First(c)].holder.Free?
       case WantSecond => b.accounts[Second(c)].holder.Free?
       case Done(_, _) => false
       case _ => true
  }

  function At(b: Bank, t: nat, pc: Pc): Bank
    requires t in b.threads
  {
    b.(threads := b.threads[t := b.threads[t].(pc := pc)])
  }

  /** The call of t takes effect here, with outcome r. */
  function Effect(b: Bank, t: nat, r: Outcome): Bank
    requires t in b.threads
  {
    b.(order := b.order + [Event(t, b.threads[t].call, r)])
  }

  function Hold(b: Bank, id: int, o: Owner): Bank
    requires id in b.accounts
  {
    b.(accounts := b.accounts[id := b.accounts[id].(holder := o)])
  }

  function Write(b: Bank, id: int, x: int): Bank
    requires id in b.accounts
  {
    b.(accounts := b.accounts[id := b.accounts[id].(balance := x)])
  }

  function LookUp(b: Bank, t: nat): Bank
    requires t in b.threads
  {
    var c := b.threads[t].call;
    if c.Create? then
      if c.id in b.accounts then At(Effect(b, t, Panic), t, LeavingBank(Known(Panic)))
      else At(Effect(b.(accounts := b.accounts[c.id := Account(0, Free)]), t, Unit), t, LeavingBank(Known(Unit)))
    else if Goes(c, b.accounts.Keys) then At(b, t, LeavingBank(Pending))
    else At(Effect(b, t, Missing(c)), t, LeavingBank(Known(Missing(c))))
  }

  function Load(b: Bank, t: nat): Bank
    requires t in b.threads && Main(b.threads[t].call) in b.accounts
  {
    var c := b.threads[t].call;
    var bal := b.accounts[Main(c)].balance;
    match c
    case Create(_) => b
    case Deposit(_, amount) => At(b, t, Loaded(bal + amount))
    case DepositAndCompare(_, amount, _) => At(b, t, Loaded(bal + amount))
    case GetBalance(_) => At(Effect(b, t, Num(bal)), t, Releasing(Num(bal)))
    case Withdraw(_, amount) =>
      if bal >= amount then
        if bal < 0 then At(Effect(b, t, Bool(false)), t, Done(Bool(false), true))
        else At(b, t, Loaded(bal - amount))
      else At(Effect(b, t, Bool(false)), t, Releasing(Bool(false)))
    case Transfer(_, _, amount, overdraw) =>
      if bal >= amount || overdraw then At(b, t, Loaded(bal - amount))
      else At(Effect(b, t, Bool(false)), t, Releasing(Bool(false)))
  }

  function Store(b: Bank, t: nat, x: int): Bank
    requires t in b.threads && Main(b.threads[t].call) in b.accounts
  {
    var c := b.threads[t].call;
    var w := Write(b, Main(c), x);
    match c
    case Deposit(_, _) => At(Effect(w, t, Unit), t, Releasing(Unit))
    case Withdraw(_, _) => At(Effect(w, t, Bool(true)), t, Releasing(Bool(true)))
    case DepositAndCompare(_, _, threshold) => At(Effect(w, t, Bool(x >= threshold)), t, Stored)
    case Transfer(_, _, _, _) => At(w, t, Debited)
    case _ => b
  }

  function Advance(b: Bank, t: nat): Bank
    requires CanStep(b, t)
  {
    var c := b.threads[t].call;
    match b.threads[t].pc
    case Ready =>
      if c.Transfer? && c.from == c.to then At(Effect(b, t, Bool(false)), t, Done(Bool(false), false))
      else At(b.(bankHolder := By(t)), t, Looking)
    case Looking => LookUp(b, t)
    case LeavingBank(found) =>
      At(b.(bankHolder := Free), t, if found.Known? then Done(found.r, false) else WantFirst)
    case WantFirst => At(Hold(b, First(c), By(t)), t, if c.Transfer? then WantSecond else Inside)
    case WantSecond => At(Hold(b, Second(c), By(t)), t, Inside)
    case Inside => Load(b, t)
    case Loaded(x) => Store(b, t, x)
    case Debited =>
      if c.Transfer? then
        At(Effect(Write(b, c.to, b.accounts[c.to].balance + c.amount), t, Bool(true)), t, Releasing(Bool(true)))
      else b
    case Stored =>
      if c.DepositAndCompare? then At(b, t, Releasing(Bool(b.accounts[c.id].balance >= c.threshold))) else b
    case Releasing(r) =>
      At(Hold(b, Second(c), Free), t, if c.Transfer? then LastLock(r) else Done(r, false))
    case LastLock(r) => At(Hold(b, First(c), Free), t, Done(r, false))
    case Done(_, _) => b
  }

  function Invoke(b: Bank, t: nat, c: Call): Bank {
    b.(threads := b.threads[t := Thread(c, Ready)])
  }

  /** One step of the system: some thread starts a call, or some thread advances. */
  ghost predicate Next(b: Bank, d: Bank) {
    (exists t: nat, c: Call :: Begins(b, d, t, c)) || (exists t: nat :: Moves(b, d, t))
  }

  ghost predicate Begins(b: Bank, d: Bank, t: nat, c: Call) {
    t !in b.threads && d == Invoke(b, t, c)
  }

  ghost predicate Moves(b: Bank, d: Bank, t: nat) {
    CanStep(b, t) && d == Advance(b, t)
  }

  ghost predicate Follows(states: seq<Bank>, i: nat) {
    i + 1 < |states| && Next(states[i], states[i + 1])
  }

  ghost predicate Run(states: seq<Bank>) {
    && |states| > 0 && states[0] == EMPTY
    && forall i: nat {:trigger Follows(states, i)} :: i + 1 < |states| ==> Follows(states, i)
  }

  // ----- invariant -------------------------------------------------------------

  predicate InBank(pc: Pc) { pc.Looking? || pc.LeavingBank? }

  /** The account locks a thread holds at its program counter. */
  function Locks(c: Call, pc: Pc): set<int> {
    match pc
    case WantSecond => {First(c)}
    case LastLock(_) => {First(c)}
    case Inside => Needs(c)
    case Loaded(_) => Needs(c)
    case Debited => Needs(c)
    case Stored => Needs(c)
    case Releasing(_) => Needs(c)
    case Done(_, leaked) => if leaked then {Main(c)} else {}
    case _ => {}
  }

  /** The outcome of a thread whose call has taken effect. */
  function Settled(b: Bank, t: nat): Found
    requires t in b.threads
  {
    var c := b.threads[t].call;
    match b.threads[t].pc
    case LeavingBank(found) => found
    case Stored =>
      if c.DepositAndCompare? && c.id in b.accounts
      then Known(Bool(b.accounts[c.id].balance >= c.threshold)) else Pending
    case Releasing(r) => Known(r)
    case LastLock(r) => Known(r)
    case Done(r, _) => Known(r)
    case _ => Pending
  }

  ghost predicate ThreadOk(b: Bank, t: nat)
    requires t in b.threads
  {
    var c := b.threads[t].call;
    var pc := b.threads[t].pc;
    && (b.bankHolder == By(t) <==> InBank(pc))
    && (c.Transfer? && c.from == c.to ==> pc.Ready? || (pc.Done? && !pc.leaked))
    && (!Waiting(pc) || pc == LeavingBank(Pending) ==> Goes(c, b.accounts.Keys))
    && (pc.WantSecond? || pc.LastLock? || pc.Debited? ==> c.Transfer?)
    && (pc.Stored? ==> c.DepositAndCompare?)
    && (pc.Done? && pc.leaked ==> c.Withdraw? && c.amount < 0)
    && (pc.Loaded? ==> LoadedOk(b, c, pc.x))
    && (pc.Debited? ==> c.overdraw || b.accounts[c.from].balance >= 0)
    && Locks(c, pc) <= b.accounts.Keys
    && (forall id | id in Locks(c, pc) :: b.accounts[id].holder == By(t))
  }

  ghost predicate LoadedOk(b: Bank, c: Call, x: int)
    requires Main(c) in b.accounts
  {
    var bal := b.accounts[Main(c)].balance;
    match c
    case Deposit(_, amount) => x == bal + amount
    case DepositAndCompare(_, amount, _) => x == bal + amount
    case Withdraw(_, amount) => x == bal - amount && bal >= amount && bal >= 0
    case Transfer(_, _, amount, overdraw) => x == bal - amount && (bal >= amount || overdraw)
    case _ => false
  }

  ghost predicate HolderOk(b: Bank, id: int)
    requires id in b.accounts
  {
    var o := b.accounts[id].holder;
    o.By? ==> o.t in b.threads && id in Locks(b.threads[o.t].call, b.threads[o.t].pc)
  }

  /** The account's balance with a transfer in flight given back to its sender. */
  function Effective(b: Bank, id: int): int
    requires id in b.accounts
  {
    var a := b.accounts[id];
    if a.holder.By? && a.holder.t in b.threads && b.threads[a.holder.t].pc.Debited? &&
       b.threads[a.holder.t].call.Transfer? && b.threads[a.holder.t].call.from == id
    then a.balance + b.threads[a.holder.t].call.amount else a.balance
  }

  function Balances(b: Bank): map<int, int> {
    map id | id in b.accounts :: Effective(b, id)
  }

  ghost predicate OrderOk(b: Bank) {
    && Faithful(b.order)
    && Play(b.order) == Balances(b)
    && Once(b.order)
    && (forall i {:trigger Recorded(b, b.order[i])} :: 0 <= i < |b.order| ==> Recorded(b, b.order[i]))
    && (forall t {:trigger Placed(b, t)} | t in b.threads && Settled(b, t).Known? :: Placed(b, t))
  }

  ghost predicate Recorded(b: Bank, e: Event) {
    e.t in b.threads && b.threads[e.t].call == e.call && Settled(b, e.t) == Known(e.r)
  }

  ghost predicate Placed(b: Bank, t: nat) {
    exists i :: 0 <= i < |b.order| && b.order[i].t == t
  }

  ghost predicate Inv(b: Bank) {
    && (forall t {:trigger ThreadOk(b, t)} | t in b.threads :: ThreadOk(b, t))
    && (forall id {:trigger HolderOk(b, id)} | id in b.accounts :: HolderOk(b, id))
    && (b.bankHolder.By? ==> b.bankHolder.t in b.threads)
    && OrderOk(b)
  }
}
