/** `SyncServer` of cookbook/dnn_training/torchrun_multinode/osmo_barrier.py: rank 0 waits
    for ranks 1 to n - 1 to connect and sends everyone one verdict. */
module RankBarrier {
  import opened Outcomes

  datatype Barrier = Barrier(ranks: set<int>, connections: set<nat>, ready: bool, failed: bool)

  function Failing(b: Barrier): Barrier {
    b.(failed := true, ready := true)
  }

  predicate InRange(n: nat, rank: int) {
    1 <= rank < n
  }

  /** A duplicate is not added; a rank out of range is added although it fails. */
  function WithRank(n: nat, b: Barrier, rank: int): Barrier {
    if rank in b.ranks then Failing(b)
    else
      var checked := if InRange(n, rank) then b else Failing(b);
      checked.(ranks := b.ranks + {rank}, ready := checked.ready || |b.ranks| + 1 == n - 1)
  }

  /** The handler's clean-up, which takes rank 0 for no rank. */
  function WithoutRank(b: Barrier, rank: Option<int>): Barrier {
    if rank.Some? && rank.value != 0 then b.(ranks := b.ranks - {rank.value}) else b
  }

  function OnConnect(b: Barrier, c: nat): Barrier {
    b.(connections := b.connections + {c})
  }

  /** The end of the first read: `rank` is `None` for a line that is not a number, the end of
      the stream included. */
  function OnLine(n: nat, b: Barrier, rank: Option<int>): Barrier {
    match rank
    case None => Failing(b)
    case Some(r) => WithRank(n, b, r)
  }

  /** The end of a handler; `closed` when it got past its last read. */
  function OnEnd(b: Barrier, c: nat, rank: Option<int>, closed: bool): Barrier {
    WithoutRank(b, rank).(connections := if closed then b.connections - {c} else b.connections)
  }

  /** What the broadcast writes to each connection. */
  function Verdicts(b: Barrier): map<nat, bool> {
    map c | c in b.connections :: !b.failed
  }

  // ---------- the server object ----------

  /** `HandleX` is what a connection's handler does from one await to the next. */
  class SyncServer {
    const numNodes: nat
    var connectedRanks: set<int>
    var connections: set<nat>
    var readyToSend: bool
    var failed: bool

    constructor (numNodes: nat)
      ensures this.numNodes == numNodes && Snapshot() == Barrier({}, {}, false, false)
    {
      this.numNodes := numNodes;
      connectedRanks, connections, readyToSend, failed := {}, {}, false, false;
    }

    function Snapshot(): Barrier
      reads this
    {
      Barrier(connectedRanks, connections, readyToSend, failed)
    }

    method Fail()
      modifies this
      ensures Snapshot() == Failing(old(Snapshot()))
    {
      failed := true;
      readyToSend := true;
    }

    method AddRank(rank: int)
      modifies this
      ensures Snapshot() == WithRank(numNodes, old(Snapshot()), rank)
    {
      if rank in connectedRanks {
        Fail();
        return;
      }
      if rank < 1 || rank >= numNodes {
        Fail();
      }
      connectedRanks := connectedRanks + {rank};
      if |connectedRanks| == numNodes - 1 {
        readyToSend := true;
      }
    }

    /** The set's `remove` raises when the rank is absent. */
    method RemoveRank(rank: int) returns (raised: bool)
      modifies this
      ensures raised <==> rank !in old(connectedRanks)
      ensures Snapshot() == old(Snapshot()).(ranks := old(connectedRanks) - {rank})
    {
      raised := rank !in connectedRanks;
      connectedRanks := connectedRanks - {rank};
    }

    method HandleConnect(c: nat)
      modifies this
      ensures Snapshot() == OnConnect(old(Snapshot()), c)
    {
      connections := connections + {c};
    }

    method HandleLine(rank: Option<int>)
      modifies this
      ensures Snapshot() == OnLine(numNodes, old(Snapshot()), rank)
    {
      match rank {
        case None => Fail();
        case Some(r) => AddRank(r);
      }
    }

    method HandleEnd(c: nat, rank: Option<int>, closed: bool)
      modifies this
      ensures Snapshot() == OnEnd(old(Snapshot()), c, rank, closed)
    {
      if closed { connections := connections - {c}; }
      if rank.Some? && rank.value != 0 {
        var raised := RemoveRank(rank.value);
      }
    }

    /** The loop of `run` over the connections; the verdict written to each. */
    method Broadcast() returns (told: map<nat, bool>)
      ensures told == Verdicts(Snapshot())
    {
      told := map[];
      var rest := connections;
      while rest != {}
        invariant told.Keys + rest == connections && told.Keys !! rest
        invariant forall c | c in told :: told[c] == !failed
      {
        var c :| c in rest;
        if failed {
          told := told[c := false];
        } else {
          told := told[c := true];
        }
        rest := rest - {c};
      }
    }
  }

  // ---------- the protocol ----------

  datatype Phase = Greeting | Held(rank: int) | Gone

  /** `told` is the verdict each connection got, `returned` the result of `run`. */
  datatype State = State(
    barrier: Barrier,
    phases: map<nat, Phase>,
    told: Option<map<nat, bool>>,
    returned: Option<bool>)

  /** `Line` ends the first read of a handler and `Leave` its second; in `Drop` the read raised. */
  datatype Event = Connect(c: nat) | Line(c: nat, rank: Option<int>) | Leave(c: nat) | Drop(c: nat) | Send | Return

  predicate Live(s: State, c: nat) {
    c in s.phases && !s.phases[c].Gone?
  }

  predicate Enabled(s: State, e: Event) {
    match e
    case Connect(c) => c !in s.phases
    case Line(c, _) => c in s.phases && s.phases[c] == Greeting
    case Leave(c) => c in s.phases && s.phases[c].Held?
    case Drop(c) => Live(s, c)
    case Send => s.barrier.ready && s.told.None?
    case Return => s.told.Some? && s.returned.None?
  }

  function RankOf(p: Phase): Option<int> {
    if p.Held? then Some(p.rank) else None
  }

  /** The events change the barrier as the methods of the server object do. Handlers go on
      between the broadcast and the return of `run`, which waits for the listening socket to
      close. */
  function After(n: nat, s: State, e: Event): State
    requires Enabled(s, e)
  {
    var b := s.barrier;
    match e
    case Connect(c) => s.(barrier := OnConnect(b, c), phases := s.phases[c := Greeting])
    case Line(c, rank) => s.(barrier := OnLine(n, b, rank), phases := s.phases[c := if rank.Some? then Held(rank.value) else Gone])
    case Leave(c) => s.(barrier := OnEnd(b, c, RankOf(s.phases[c]), true), phases := s.phases[c := Gone])
    case Drop(c) => s.(barrier := OnEnd(b, c, RankOf(s.phases[c]), false), phases := s.phases[c := Gone])
    case Send => s.(told := Some(Verdicts(b)))
    case Return => s.(returned := Some(!b.failed))
  }

  /** With a single node there is nobody to wait for. */
  function Start(n: nat): State {
    State(Barrier({}, {}, n == 1, false), map[], None, None)
  }

  datatype Trace = Trace(states: seq<State>, events: seq<Event>)

  predicate StepAt(n: nat, t: Trace, k: nat)
    requires k < |t.events| && |t.states| == |t.events| + 1
  {
    Enabled(t.states[k], t.events[k]) && t.states[k + 1] == After(n, t.states[k], t.events[k])
  }

  predicate Run(n: nat, t: Trace) {
    && |t.states| == |t.events| + 1 && t.states[0] == Start(n)
    && forall k | 0 <= k < |t.events| :: StepAt(n, t, k)
  }

  // ---------- what every state keeps ----------

  /** While nothing failed, the ranks on record are those of the live connections, each in
      range and held by one connection. */
  ghost predicate Accurate(n: nat, s: State) {
    && (forall r | r in s.barrier.ranks :: InRange(n, r) && exists c :: c in s.phases && s.phases[c] == Held(r))
    && (forall c | c in s.phases && s.phases[c].Held? :: s.phases[c].rank in s.barrier.ranks)
    && (forall c, d | c in s.phases && d in s.phases && s.phases[c].Held? && s.phases[c] == s.phases[d] :: c == d)
  }

  ghost predicate Inv(n: nat, s: State) {
    && (forall c | Live(s, c) :: c in s.barrier.connections)
    && (!s.barrier.failed ==> Accurate(n, s))
    && (s.told.Some? ==> s.barrier.ready)
    && (s.returned.Some? ==> s.told.Some?)
  }

  lemma StepKeepsInv(n: nat, s: State, e: Event)
    requires Inv(n, s) && Enabled(s, e)
    ensures Inv(n, After(n, s, e))
  {
    var s' := After(n, s, e);
    match e
    case Connect(c) =>
      forall r | r in s.barrier.ranks && !s.barrier.failed ensures exists d :: d in s'.phases && s'.phases[d] == Held(r) {
        var d :| d in s.phases && s.phases[d] == Held(r);
        assert s'.phases[d] == Held(r);
      }
    case Line(c, None) =>
    case Line(c, Some(r)) =>
      if !s'.barrier.failed {
        forall q | q in s'.barrier.ranks ensures exists d :: d in s'.phases && s'.phases[d] == Held(q) {
          if q == r {
            assert s'.phases[c] == Held(q);
          } else {
            var d :| d in s.phases && s.phases[d] == Held(q);
            assert s'.phases[d] == Held(q);
          }
        }
      }
    case Leave(c) => EndKeepsAccurate(n, s, e);
    case Drop(c) => EndKeepsAccurate(n, s, e);
    case Send =>
    case Return =>
  }

  lemma EndKeepsAccurate(n: nat, s: State, e: Event)
    requires Inv(n, s) && Enabled(s, e) && (e.Leave? || e.Drop?)
    ensures !s.barrier.failed ==> Accurate(n, After(n, s, e))
  {
    var s' := After(n, s, e);
    if !s.barrier.failed {
      forall q | q in s'.barrier.ranks ensures exists d :: d in s'.phases && s'.phases[d] == Held(q) {
        var d :| d in s.phases && s.phases[d] == Held(q);
        assert s'.phases[d] == Held(q);
      }
    }
  }

  function Workers(n: nat): set<int> {
    set r: int | 1 <= r < n && InRange(n, r)
  }

  lemma {:induction false} WorkersCount(n: nat)
    ensures |Workers(n)| == if n == 0 then 0 else n - 1
  {
    if n > 1 {
      WorkersCount(n - 1);
      assert Workers(n) == Workers(n - 1) + {n - 1};
    }
  }

  lemma FullSubset(a: set<int>, b: set<int>)
    requires a <= b && |a| == |b|
    ensures a == b
  {
    assert b == a + (b - a);
  }

  /** The server becomes ready without a failure only when all workers are connected. */
  lemma ReadyWhenFull(n: nat, s: State, e: Event)
    requires n > 1 && Inv(n, s) && Enabled(s, e)
    requires After(n, s, e).barrier.ready && !After(n, s, e).barrier.failed && !s.barrier.ready
    ensures After(n, s, e).barrier.ranks == Workers(n)
  {
    StepKeepsInv(n, s, e);
    var ranks := After(n, s, e).barrier.ranks;
    WorkersCount(n);
    assert ranks <= Workers(n);
    assert |ranks| == n - 1;
    FullSubset(ranks, Workers(n));
  }

  lemma {:induction false} RunKeepsInv(n: nat, t: Trace, k: nat)
    requires Run(n, t) && k < |t.states|
    ensures Inv(n, t.states[k])
  {
    if k > 0 {
      RunKeepsInv(n, t, k - 1);
      assert StepAt(n, t, k - 1);
      StepKeepsInv(n, t.states[k - 1], t.events[k - 1]);
    }
  }

  /** Every worker is connected, each rank over one connection of its own. */
  ghost predicate AllConnected(n: nat, s: State) {
    s.barrier.ranks == Workers(n) && Accurate(n, s)
  }

  lemma {:induction false} ReadyWasFull(n: nat, t: Trace, k: nat)
    requires n > 1 && Run(n, t) && k < |t.states| && t.states[k].barrier.ready && !t.states[k].barrier.failed
    ensures exists j: nat :: j <= k && AllConnected(n, t.states[j])
  {
    if k > 0 {
      assert StepAt(n, t, k - 1);
      RunKeepsInv(n, t, k - 1);
      StepIsSticky(n, t.states[k - 1], t.events[k - 1]);
      if t.states[k - 1].barrier.ready {
        ReadyWasFull(n, t, k - 1);
      } else {
        ReadyWhenFull(n, t.states[k - 1], t.events[k - 1]);
        RunKeepsInv(n, t, k);
        assert AllConnected(n, t.states[k]);
      }
    }
  }

  lemma StepIsSticky(n: nat, s: State, e: Event)
    requires Enabled(s, e)
    ensures s.barrier.failed ==> After(n, s, e).barrier.failed
    ensures s.told.Some? ==> After(n, s, e).told == s.told
    ensures s.returned.Some? ==> After(n, s, e).returned == s.returned
    ensures s.told.None? && After(n, s, e).told.Some? ==> e.Send?
    ensures s.returned.None? && After(n, s, e).returned.Some? ==> e.Return?
  {
  }

  // ---------- main results ----------

  /** OK is sent only if at some instant every worker was connected. */
  lemma {:induction false} OkMeansAllConnected(n: nat, t: Trace, k: nat, c: nat)
    requires n > 1 && Run(n, t) && k < |t.states|
    requires t.states[k].told.Some? && c in t.states[k].told.value && t.states[k].told.value[c]
    ensures exists j: nat :: j <= k && AllConnected(n, t.states[j])
  {
    if k > 0 {
      assert StepAt(n, t, k - 1);
      StepIsSticky(n, t.states[k - 1], t.events[k - 1]);
      if t.states[k - 1].told.Some? {
        OkMeansAllConnected(n, t, k - 1, c);
      } else {
        ReadyWasFull(n, t, k - 1);
      }
    }
  }

  /** The verdict goes to every live connection, and is the same for all: whether nothing had failed. */
  lemma EveryoneIsTold(n: nat, t: Trace, k: nat)
    requires Run(n, t) && k < |t.events| && t.events[k] == Send
    ensures
      var told := t.states[k + 1].told;
      && told.Some? && told.value.Keys == t.states[k].barrier.connections
      && (forall c | c in told.value :: told.value[c] == !t.states[k].barrier.failed)
      && forall c | Live(t.states[k], c) :: c in told.value
  {
    assert StepAt(n, t, k);
    RunKeepsInv(n, t, k);
  }

  lemma {:induction false} LaterStates(n: nat, t: Trace, k: nat, m: nat)
    requires Run(n, t) && k <= m < |t.states|
    ensures t.states[k].barrier.failed ==> t.states[m].barrier.failed
    ensures t.states[k].told.Some? ==> t.states[m].told == t.states[k].told
    ensures t.states[k].returned.Some? ==> t.states[m].returned == t.states[k].returned
  {
    if k < m {
      LaterStates(n, t, k, m - 1);
      assert StepAt(n, t, m - 1);
      StepIsSticky(n, t.states[m - 1], t.events[m - 1]);
    }
  }

  /** A first line that is no number, or a rank that is taken or out of range. */
  predicate Spoils(n: nat, b: Barrier, e: Event) {
    e.Line? && (e.rank.None? || e.rank.value in b.ranks || !InRange(n, e.rank.value))
  }

  predicate SpoiledAt(n: nat, t: Trace, j: nat)
    requires j < |t.events| < |t.states|
  {
    Spoils(n, t.states[j].barrier, t.events[j])
  }

  lemma FailsWhenSpoiled(n: nat, s: State, e: Event)
    requires Enabled(s, e)
    ensures After(n, s, e).barrier.failed <==> s.barrier.failed || Spoils(n, s.barrier, e)
  {
  }

  lemma {:induction false} FailedBySpoiling(n: nat, t: Trace, k: nat, m: nat)
    requires Run(n, t) && k <= m < |t.states|
    ensures t.states[m].barrier.failed <==> t.states[k].barrier.failed || exists j: nat :: k <= j < m && SpoiledAt(n, t, j)
  {
    if k < m {
      FailedBySpoiling(n, t, k, m - 1);
      assert StepAt(n, t, m - 1);
      FailsWhenSpoiled(n, t.states[m - 1], t.events[m - 1]);
      assert SpoiledAt(n, t, m - 1) <==> Spoils(n, t.states[m - 1].barrier, t.events[m - 1]);
    }
  }

  /** A broadcast in step `k` and the return in step `m` disagree exactly when the broadcast
      said OK and a handler then read a bad line before `run` returned. */
  lemma VerdictsDisagreeAfterLateLine(n: nat, t: Trace, k: nat, m: nat, c: nat)
    requires Run(n, t) && k < m < |t.events| && t.events[k] == Send && t.events[m] == Return
    requires c in t.states[k].barrier.connections
    ensures
      var told := t.states[m + 1].told;
      && told.Some? && c in told.value && t.states[m + 1].returned.Some?
      && (told.value[c] != t.states[m + 1].returned.value <==>
            told.value[c] && exists j: nat :: k < j < m && SpoiledAt(n, t, j))
  {
    EveryoneIsTold(n, t, k);
    LaterStates(n, t, k + 1, m + 1);
    FailedBySpoiling(n, t, k + 1, m);
    assert StepAt(n, t, k) && StepAt(n, t, m);
    assert t.states[k + 1].barrier.failed == t.states[k].barrier.failed;
  }

  const WORKER_GREETS := State(Barrier({}, {7}, false, false), map[7 := Greeting], None, None)
  const WORKER_HELD := State(Barrier({1}, {7}, true, false), map[7 := Held(1)], None, None)
  const STRAY_GREETS := State(Barrier({1}, {7, 8}, true, false), map[7 := Held(1), 8 := Greeting], None, None)

  lemma WorkerThenStray()
    ensures Enabled(Start(2), Connect(7)) && After(2, Start(2), Connect(7)) == WORKER_GREETS
    ensures Enabled(WORKER_GREETS, Line(7, Some(1))) && After(2, WORKER_GREETS, Line(7, Some(1))) == WORKER_HELD
    ensures Enabled(WORKER_HELD, Connect(8)) && After(2, WORKER_HELD, Connect(8)) == STRAY_GREETS
  {
  }

  /** Two nodes: a second connection that has not named its rank is closed by the broadcast,
      its handler reads an empty line, and `run` fails although the worker was sent OK. */
  lemma VerdictsCanDisagree() returns (t: Trace)
    ensures Run(2, t)
    ensures t.events == [Connect(7), Line(7, Some(1)), Connect(8), Send, Line(8, None), Return]
    ensures t.states[6].told.Some? && 7 in t.states[6].told.value && t.states[6].told.value[7]
    ensures t.states[6].returned == Some(false)
  {
    WorkerThenStray();
    var sent := After(2, STRAY_GREETS, Send);
    var spoiled := After(2, sent, Line(8, None));
    var returned := After(2, spoiled, Return);
    assert returned.told == Some(Verdicts(STRAY_GREETS.barrier)) && 7 in STRAY_GREETS.barrier.connections;
    t := Trace(
      [Start(2), WORKER_GREETS, WORKER_HELD, STRAY_GREETS, sent, spoiled, returned],
      [Connect(7), Line(7, Some(1)), Connect(8), Send, Line(8, None), Return]);
  }
}
