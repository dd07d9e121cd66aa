/** One lock server of server.go and one clerk of clerk.go: duplicate suppression over
    the committed log, for an arbitrary state-machine function, and the retry loop. */
module LockServer {
  datatype OpType = LockOp | UnlockOp

  datatype Op = Op(kind: OpType, key: string, client: int, request: int)

  /** A committed command: an Op or something the loop ignores. */
  datatype Entry = Cmd(op: Op) | Other

  datatype Replica<S> = Replica(state: S, lastApplied: map<int, int>)

  /** The request is newer than the last one applied for its client. */
  predicate IsNew(lastApplied: map<int, int>, op: Op) {
    op.client !in lastApplied || op.request > lastApplied[op.client]
  }

  function ApplyOne<S>(f: (S, Op) -> S, r: Replica<S>, e: Entry): Replica<S> {
    if e.Cmd? && IsNew(r.lastApplied, e.op)
    then Replica(f(r.state, e.op), r.lastApplied[e.op.client := e.op.request]) else r
  }

  /** A replica that has applied the entries of `log`. */
  function Replay<S>(f: (S, Op) -> S, init: S, log: seq<Entry>): Replica<S> {
    if log == [] then Replica(init, map[])
    else ApplyOne(f, Replay(f, init, log[..|log| - 1]), log[|log| - 1])
  }

  predicate SameOp(issued: Op, applied: Op) {
    issued.client == applied.client && issued.request == applied.request
  }

  class Server<S> {
    const apply: (S, Op) -> S
    const init: S
    var state: S
    var lastApplied: map<int, int>
    /** The one-slot result channels, by log index. */
    var results: map<int, seq<Op>>
    /** The entries received on applyCh so far; entry k has command index k + 1. */
    ghost var log: seq<Entry>

    ghost predicate Valid()
      reads this
    {
      && Replica(state, lastApplied) == Replay(apply, init, log)
      && (forall i | i in results && i > |log| :: results[i] == [])
      && (forall i | i in results && results[i] != [] ::
            1 <= i <= |log| && log[i - 1].Cmd? && results[i] == [log[i - 1].op])
    }

    constructor (apply: (S, Op) -> S, init: S)
      ensures Valid() && log == [] && this.apply == apply && this.init == init
    {
      this.apply, this.init, this.state := apply, init, init;
      lastApplied, results, log := map[], map[], [];
    }

    /** One turn of applyOpsLoop on the next message; Raft sends each index once, in
        order. The send on the result channel finds its slot empty. */
    method ApplyNext(index: nat, e: Entry)
      requires Valid() && index == |log| + 1
      modifies this
      ensures Valid() && log == old(log) + [e]
      ensures e.Cmd? ==> index in results && results[index] == [e.op]
      ensures e.Cmd? && index in old(results) ==> old(results)[index] == []
      ensures forall i | i in old(results) && i != index :: i in results && results[i] == old(results)[i]
    {
      log := log + [e];
      assert log[..|log| - 1] == old(log);
      if e.Other? {
        return;
      }
      if e.op.client !in lastApplied || e.op.request > lastApplied[e.op.client] {
        state := apply(state, e.op);
        lastApplied := lastApplied[e.op.client := e.op.request];
      }
      var opCh := if index in results then results[index] else [];
      results := results[index := opCh + [e.op]];
    }

    /** waitForApplied up to the select: the channel for the op's index exists. */
    method Register(index: nat)
      requires Valid()
      modifies `results
      ensures Valid() && index in results
      ensures forall i | i in old(results) :: i in results && results[i] == old(results)[i]
    {
      if index !in results {
        results := results[index := []];
      }
    }

    /** The select of waitForApplied. OK means: the entry this server applied at that
        index is the issued one. */
    method Collect(op: Op, index: nat, timesOut: bool) returns (ok: bool)
      requires Valid() && index in results
      modifies `results
      ensures Valid()
      ensures ok ==> !timesOut && 1 <= index <= |log| && log[index - 1].Cmd?
      ensures !timesOut && old(results)[index] != [] ==>
        && 1 <= index <= |log| && log[index - 1].Cmd? && old(results)[index] == [log[index - 1].op]
        && (ok <==> op.client == log[index - 1].op.client && op.request == log[index - 1].op.request)
        && results == old(results)[index := []]
      ensures timesOut || old(results)[index] == [] ==> !ok && results == old(results)
    {
      if timesOut || results[index] == [] {
        return false;
      }
      ok := op.client == results[index][0].client && op.request == results[index][0].request;
      results := results[index := []];
    }
  }

  /** An entry takes effect if and only if its request id is above those of all the
      earlier entries of its client, whatever the log. */
  lemma {:induction false} NewIsHighest<S>(f: (S, Op) -> S, init: S, log: seq<Entry>, op: Op)
    ensures IsNew(Replay(f, init, log).lastApplied, op) <==>
            forall i :: 0 <= i < |log| && log[i].Cmd? && log[i].op.client == op.client ==>
              log[i].op.request < op.request
  {
    if log != [] {
      var k := |log| - 1;
      NewIsHighest(f, init, log[..k], op);
      if log[k].Cmd? { NewIsHighest(f, init, log[..k], log[k].op); }
      assert forall i :: 0 <= i < k ==> log[..k][i] == log[i];
    }
  }

  /** The server asked at attempt a, going round from the last known leader. */
  function Nth(first: nat, a: nat, servers: nat): (r: nat)
    requires servers > 0
    ensures first < servers ==> r < servers
  {
    if a == 0 then first else Next(Nth(first, a - 1, servers), servers)
  }

  function Next(server: nat, servers: nat): (r: nat)
    requires servers > 0
    ensures r < servers
  {
    (server + 1) % servers
  }

  lemma NextModulo(x: nat, n: nat)
    requires x < n
    ensures (x + 1) % n == if x + 1 == n then 0 else x + 1
  {
    var q := (x + 1) / n;
    assert x + 1 == q * n + (x + 1) % n;
    assert q >= 2 ==> q * n >= 2 * n;
  }

  lemma {:induction false} AttemptAsks(first: nat, a: nat, servers: nat)
    requires first < servers && a <= servers
    ensures Nth(first, a, servers) == if first + a < servers then first + a else first + a - servers
  {
    if a > 0 {
      AttemptAsks(first, a - 1, servers);
      NextModulo(Nth(first, a - 1, servers), servers);
    }
  }

  /** Round robin: whichever server leads, one of `servers` attempts in a row asks it. */
  lemma RoundRobin(first: nat, leader: nat, servers: nat) returns (a: nat)
    requires first < servers && leader < servers
    ensures a < servers && Nth(first, a, servers) == leader
  {
    a := if first <= leader then leader - first else leader + servers - first;
    AttemptAsks(first, a, servers);
  }

  /** The first `count` attempts of one call: the same arguments to server after server. */
  function Attempts(first: nat, servers: nat, op: Op, count: nat): seq<(nat, Op)>
    requires servers > 0
  {
    if count == 0 then []
    else Attempts(first, servers, op, count - 1) + [(Nth(first, count - 1, servers), op)]
  }

  class Clerk {
    const id: int
    const servers: nat
    var leaderId: nat
    var requestId: int
    /** What went out: server and arguments of every attempt. */
    ghost var attempts: seq<(nat, Op)>

    ghost predicate Valid()
      reads this
    {
      leaderId < servers && requestId >= 0
    }

    constructor (id: int, servers: nat)
      requires servers > 0
      ensures Valid() && requestId == 0 && leaderId == 0 && this.id == id && this.servers == servers && attempts == []
    {
      this.id, this.servers, leaderId, requestId, attempts := id, servers, 0, 0, [];
    }

    /** SendMutex: ask the servers round robin, starting with the last leader, always
        with the same new request id, until one answers OK. `answers(a)` says whether
        attempt a came back without an error; `last` witnesses that some attempt does. */
    method SendMutex(key: string, kind: OpType, answers: nat -> bool, ghost last: nat) returns (ghost count: nat)
      requires Valid() && answers(last)
      modifies this
      ensures Valid() && requestId == old(requestId) + 1
      ensures attempts == old(attempts) + Attempts(old(leaderId), servers, Op(kind, key, id, requestId), count + 1)
      ensures answers(count) && forall a: nat :: a < count ==> !answers(a)
      ensures leaderId == Nth(old(leaderId), count, servers)
    {
      requestId := requestId + 1;
      var server := leaderId;
      var a: nat := 0;
      var args := Op(kind, key, id, requestId);
      assert Attempts(leaderId, servers, args, 1) == [(leaderId, args)];
      attempts := attempts + [(server, args)];
      while !answers(a)
        invariant a <= last && requestId == old(requestId) + 1 && leaderId == old(leaderId)
        invariant forall b: nat :: b < a ==> !answers(b)
        invariant server == Nth(leaderId, a, servers)
        invariant attempts == old(attempts) + Attempts(leaderId, servers, args, a + 1)
        decreases last - a
      {
        server := Next(server, servers);
        a := a + 1;
        attempts := attempts + [(server, args)];
      }
      count := a;
      leaderId := server;
    }
  }
}
