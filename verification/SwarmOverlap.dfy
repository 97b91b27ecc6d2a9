/**
 Overlapping reconnections. register and unregister are keyed by the worker, not by
 the connection, so a session can be served without being the registered one. This
 is when that happens, what it does to a stop, and a run in which it happens.
 */
module SwarmOverlap {

  import opened Base
  import opened Swarm
  import opened SwarmInvariant
  import opened SwarmSteps
  import opened SwarmRuns
  import opened SwarmTheorems
  import opened SwarmAgreement
  import opened SwarmDelivery

  // ---------------------------------------------------------------------
  // Which sessions a stop reaches
  // ---------------------------------------------------------------------

  lemma {:induction false} SilentSend(s: Sys, d: Id, sent: ToWorker, c: Id, msg: ToWorker)
    requires c in s.net && msg !in s.net[c].down && (d != c || sent != msg)
    ensures c in Send(s, d, sent).net && msg !in Send(s, d, sent).net[c].down
  {
  }

  lemma {:induction false} SilentCancel(s: Sys, m: Id, j0: Id, c: Id, j: Id)
    requires Open(s, j0) && c in s.net && CancelJob(j) !in s.net[c].down
    requires j0 == j ==> !RegisteredAs(s.conns, s.jobs[j].worker, c)
    ensures c in CancelOne(s, m, j0).net && CancelJob(j) !in CancelOne(s, m, j0).net[c].down
  {
    CancelledNet(s, m, j0);
    var w := s.jobs[j0].worker;
    if w in s.conns {
      SilentSend(s, s.conns[w], CancelJob(j0), c, CancelJob(j));
    }
  }

  /** CancelMiner sends a job's cancel to the registered connection of its worker and to nobody else. */
  lemma {:induction false} SilentCancels(s: Sys, m: Id, order: seq<Id>, c: Id, j: Id)
    requires Cancellable(s, order) && c in s.net && CancelJob(j) !in s.net[c].down
    requires j in s.jobs && !RegisteredAs(s.conns, s.jobs[j].worker, c)
    ensures c in CancelAll(s, m, order).net && CancelJob(j) !in CancelAll(s, m, order).net[c].down
    decreases |order|
  {
    if order != [] {
      SilentCancel(s, m, order[0], c, j);
      CancelStep(s, m, order);
      SilentCancels(CancelOne(s, m, order[0]), m, order[1..], c, j);
    }
  }

  lemma {:induction false} RunsForItsWorker(s: Sys, c: Id, j: Id)
    requires Inv(s) && c in s.net && j in s.net[c].running && j in s.jobs
    ensures s.jobs[j].worker == s.net[c].worker
  {
    assert Mentions(s.net[c], j);
    assert AtHome(s.net[c], c, s.homes);
  }

  /**
   Whether a stop reaches an engine, in every reachable state: when an open job runs
   on a session whose connection is up and no cancel of it is queued yet, a stop of
   its miner queues one exactly if the session is the registered one of its worker.
   */
  lemma {:induction false} StopReachesIffRegistered(run: seq<Event>, owner: string, order: seq<Id>, c: Id, j: Id)
    requires Feasible(INIT, run)
    requires var s := After(INIT, run);
             && Open(s, j) && c in s.net && s.net[c].phase == Up && j in s.net[c].running && CancelJob(j) !in s.net[c].down
             && Enabled(s, StopMiner(owner, s.jobs[j].miner, order)) && Owns(s, owner, s.jobs[j].miner)
    ensures var s := After(INIT, run);
            var t := Next(s, StopMiner(owner, s.jobs[j].miner, order));
            && !Open(t, j) && c in t.net
            && (CancelJob(j) in t.net[c].down <==> RegisteredAs(s.conns, s.net[c].worker, c))
  {
    RunKeepsInv(run);
    StopReachesIff(After(INIT, run), owner, After(INIT, run).jobs[j].miner, order, c, j);
  }

  lemma {:induction false} StopReachesIff(s: Sys, owner: string, m: Id, order: seq<Id>, c: Id, j: Id)
    requires Inv(s) && Open(s, j) && s.jobs[j].miner == m
    requires c in s.net && s.net[c].phase == Up && j in s.net[c].running && CancelJob(j) !in s.net[c].down
    requires Enabled(s, StopMiner(owner, m, order)) && Owns(s, owner, m)
    ensures var t := Next(s, StopMiner(owner, m, order));
            && !Open(t, j) && c in t.net && (CancelJob(j) in t.net[c].down <==> RegisteredAs(s.conns, s.net[c].worker, c))
  {
    RunsForItsWorker(s, c, j);
    assert j in OpenJobsOf(s, m);
    StopReachesWorkers(s, owner, m, order, j);
    if !RegisteredAs(s.conns, s.net[c].worker, c) {
      AllCancellable(s, m, order);
      SilentCancels(s, m, order, c, j);
    }
  }

  // ---------------------------------------------------------------------
  // Which sessions are registered
  // ---------------------------------------------------------------------

  ghost predicate Registered(x: Session, c: Id, conns: map<Id, Id>) { x.serving ==> RegisteredAs(conns, x.worker, c) }

  ghost predicate AllRegistered(net: Net, conns: map<Id, Id>) {
    forall c | c in net :: Registered(net[c], c, conns)
  }

  /** Nobody registers, unregisters or stops being served. */
  ghost predicate SameServing(s: Sys, t: Sys) {
    && t.conns == s.conns && t.net.Keys == s.net.Keys
    && forall c | c in s.net :: t.net[c].worker == s.net[c].worker && t.net[c].serving == s.net[c].serving
  }

  lemma {:induction false} SameServingTrans(s: Sys, t: Sys, u: Sys)
    requires SameServing(s, t) && SameServing(t, u)
    ensures SameServing(s, u)
  {
  }

  lemma {:induction false} SameServingKeeps(s: Sys, t: Sys)
    requires AllRegistered(s.net, s.conns) && SameServing(s, t)
    ensures AllRegistered(t.net, t.conns)
  {
    forall c | c in t.net ensures Registered(t.net[c], c, t.conns) {
      assert Registered(s.net[c], c, s.conns);
    }
  }

  lemma {:induction false} OneServing(s: Sys, t: Sys, c: Id, y: Session)
    requires c in s.net && t.net == s.net[c := y] && t.conns == s.conns
    requires y.worker == s.net[c].worker && y.serving == s.net[c].serving
    ensures SameServing(s, t)
  {
  }

  lemma {:induction false} SendServing(s: Sys, c: Id, msg: ToWorker)
    ensures SameServing(s, Send(s, c, msg))
  {
    if CanSend(s, c) {
      OneServing(s, Send(s, c, msg), c, s.net[c].(down := s.net[c].down + [msg]));
    }
  }

  lemma {:induction false} AllocateServing(s: Sys, order: seq<Id>)
    ensures SameServing(s, AllocateAll(s, order))
    decreases |order|
  {
    if order != [] {
      var j := order[0];
      if j in s.jobs && s.jobs[j].worker in s.conns {
        var t := Send(s, s.conns[s.jobs[j].worker], Allocation(j));
        SendServing(s, s.conns[s.jobs[j].worker], Allocation(j));
        AllocateServing(t, order[1..]);
        SameServingTrans(s, t, AllocateAll(t, order[1..]));
      } else {
        AllocateServing(s, order[1..]);
      }
    }
  }

  lemma {:induction false} CancelServing(s: Sys, m: Id, j: Id)
    requires Open(s, j)
    ensures SameServing(s, CancelOne(s, m, j))
  {
    CancelledNet(s, m, j);
    if s.jobs[j].worker in s.conns {
      SendServing(s, s.conns[s.jobs[j].worker], CancelJob(j));
    }
  }

  lemma {:induction false} CancelAllServing(s: Sys, m: Id, order: seq<Id>)
    requires Cancellable(s, order)
    ensures SameServing(s, CancelAll(s, m, order))
    decreases |order|
  {
    if order != [] {
      var t := CancelOne(s, m, order[0]);
      CancelServing(s, m, order[0]);
      CancelStep(s, m, order);
      CancelAllServing(t, m, order[1..]);
      SameServingTrans(s, t, CancelAll(t, m, order[1..]));
    }
  }

  lemma {:induction false} AssignServing(s: Sys, m: Id, target: Option<Id>)
    requires IsTarget(s, m, target)
    ensures SameServing(s, AssignMiner(s, m, target))
  {
    if target.Some? && WorkerStillThere(s, m, target.value) {
      var w := target.value;
      PlacedMaps(s, m, w);
      if CanSend(s, s.conns[w]) {
        PlacedOut(s, m, w);
        OneServing(s, AssignTo(s, m, w), s.conns[w], s.net[s.conns[w]].(down := s.net[s.conns[w]].down + [Assign(s.next)]));
      } else {
        PlacedLost(s, m, w);
      }
    }
  }

  lemma {:induction false} AssignAllServing(s: Sys, choices: seq<Choice>)
    requires AssignableAll(s, choices)
    ensures SameServing(s, AssignAll(s, choices))
    decreases |choices|
  {
    if choices != [] {
      var t := AssignMiner(s, choices[0].miner, choices[0].target);
      AssignServing(s, choices[0].miner, choices[0].target);
      AssignAllServing(t, choices[1..]);
      SameServingTrans(s, t, AssignAll(t, choices[1..]));
    }
  }

  lemma {:induction false} HubRevokeServing(s: Sys, w: Id)
    ensures SameServing(s, HubRevoke(s, w))
  {
    if w in s.conns && s.conns[w] in s.net && s.net[s.conns[w]].phase == Up {
      var x := s.net[s.conns[w]];
      OneServing(s, HubRevoke(s, w), s.conns[w], x.(down := x.down + [RevokeMsg], phase := Closing));
    }
  }

  lemma {:induction false} RevokeServing(s: Sys, owner: string, w: Id)
    ensures SameServing(s, Next(s, RevokeWorker(owner, w)))
  {
    var t := EndJobsOfWorker(MarkRevoked(s, owner, w), w);
    EndJobsFrame(s, owner, w);
    HubRevokeServing(t, w);
    SameServingTrans(s, t, HubRevoke(t, w));
  }

  lemma {:induction false} HandlerServing(s: Sys, e: Event)
    requires Enabled(s, e)
    requires Handles(e)
    ensures SameServing(s, Next(s, e))
  {
    match e
    case StartMiner(owner, m, target) =>
      if Startable(s, owner, m) {
        StartedRun(s, m);
        AssignServing(Started(s, m), m, target);
      }
    case StopMiner(owner, m, order) =>
      AllCancellable(s, m, order);
      CancelAllServing(s, m, order);
    case DeleteMiner(owner, m, order) =>
      AllCancellable(s, m, order);
      CancelAllServing(s, m, order);
    case UpdateAllocation(owner, m, order) => AllocateServing(s, order);
    case RevokeWorker(owner, w) => RevokeServing(s, owner, w);
    case DeleteWorker(owner, w) => HubRevokeServing(s, w);
  }

  lemma {:induction false} TransportServing(s: Sys, e: Event)
    requires Enabled(s, e) && (Transports(e) || e.Tick?)
    ensures SameServing(s, Next(s, e))
  {
    if e.WorkerRead? {
      HandleServing(s.net[e.c].(down := s.net[e.c].down[1..]), s.net[e.c].down[0], e.started);
    }
    if Transports(e) {
      OneServing(s, Next(s, e), e.c, Next(s, e).net[e.c]);
    }
  }

  lemma {:induction false} HandleServing(x: Session, msg: ToWorker, started: bool)
    ensures WorkerHandle(x, msg, started).worker == x.worker && WorkerHandle(x, msg, started).serving == x.serving
  {
  }

  lemma {:induction false} ReadServing(s: Sys, c: Id)
    requires Enabled(s, ServerRead(c))
    ensures SameServing(s, Next(s, ServerRead(c)))
  {
    OneServing(s, Popped(s, c), c, s.net[c].(up := s.net[c].up[1..]));
    HandledNet(Popped(s, c), s.net[c].worker, s.net[c].up[0]);
  }

  lemma {:induction false} UnregisterRegistered(net: Net, conns: map<Id, Id>, c: Id, y: Session)
    requires AllRegistered(net, conns) && c in net && net[c].serving && !y.serving
    ensures AllRegistered(net[c := y], conns - {net[c].worker})
  {
    assert Registered(net[c], c, conns);
    var net', conns' := net[c := y], conns - {net[c].worker};
    forall d | d in net' ensures Registered(net'[d], d, conns') {
      if d != c {
        assert Registered(net[d], d, conns);
      }
    }
  }

  lemma {:induction false} EndRegistered(s: Sys, c: Id)
    requires AllRegistered(s.net, s.conns) && Enabled(s, ServerEnd(c))
    ensures AllRegistered(Next(s, ServerEnd(c)).net, Next(s, ServerEnd(c)).conns)
  {
    var x := s.net[c];
    var y := x.(serving := false, phase := Hangup(x.phase));
    UnregisterRegistered(s.net, s.conns, c, y);
  }

  lemma {:induction false} JoinRegistered(net: Net, conns: map<Id, Id>, w: Id, c: Id)
    requires AllRegistered(net, conns) && c !in net && w !in conns
    ensures AllRegistered(JoinedNet(net, conns, w, c), conns[w := c])
  {
    forall d | d in net ensures net[d].serving ==> net[d].worker != w { assert Registered(net[d], d, conns); }
  }

  lemma {:induction false} ConnectRegistered(s: Sys, w: Id, choices: seq<Choice>)
    requires Inv(s) && AllRegistered(s.net, s.conns) && Enabled(s, Connect(w, choices)) && w !in s.conns
    ensures AllRegistered(Next(s, Connect(w, choices)).net, Next(s, Connect(w, choices)).conns)
  {
    NextSession(s);
    JoinedForms(s, w);
    JoinRegistered(s.net, s.conns, w, s.next);
    AssignAllServing(Joined(s, w), choices);
    SameServingKeeps(Joined(s, w), AssignAll(Joined(s, w), choices));
  }

  /** Nobody reconnects before their old connection has been unregistered. */
  predicate OrderlyStep(s: Sys, e: Event) { e.Connect? ==> e.w !in s.conns }

  ghost predicate Orderly(s: Sys, run: seq<Event>)
    requires Feasible(s, run)
    decreases |run|
  {
    run == [] || (OrderlyStep(s, run[0]) && Orderly(Next(s, run[0]), run[1..]))
  }

  lemma {:induction false} StepRegistered(s: Sys, e: Event)
    requires Inv(s) && AllRegistered(s.net, s.conns) && Enabled(s, e) && OrderlyStep(s, e)
    ensures AllRegistered(Next(s, e).net, Next(s, e).conns)
  {
    if e.Connect? {
      ConnectRegistered(s, e.w, e.choices);
    } else if e.ServerEnd? {
      EndRegistered(s, e.c);
    } else {
      if e.ServerRead? {
        ReadServing(s, e.c);
      } else if Transports(e) || e.Tick? {
        TransportServing(s, e);
      } else if !e.CreateMiner? && !e.EnrollWorker? {
        HandlerServing(s, e);
      }
      SameServingKeeps(s, Next(s, e));
    }
  }

  ghost predicate AlwaysRegistered(s: Sys, run: seq<Event>)
    requires Feasible(s, run)
    decreases |run|
  {
    AllRegistered(s.net, s.conns) && (run == [] || AlwaysRegistered(Next(s, run[0]), run[1..]))
  }

  /** Registering over a registration leaves the older session served but unregistered. */
  lemma {:induction false} OverlapUnregisters(s: Sys, w: Id, choices: seq<Choice>)
    requires Inv(s) && Enabled(s, Connect(w, choices)) && w in s.conns
    ensures !AllRegistered(Next(s, Connect(w, choices)).net, Next(s, Connect(w, choices)).conns)
  {
    var c, t, u := s.conns[w], Joined(s, w), Next(s, Connect(w, choices));
    NextSession(s);
    JoinedForms(s, w);
    assert s.net[c].serving && t.net[c].serving && t.net[c].worker == w && t.conns[w] != c;
    AssignAllServing(t, choices);
    assert !Registered(u.net[c], c, u.conns);
  }

  lemma {:induction false} RegisteredIffOrderlyFrom(s: Sys, run: seq<Event>)
    requires Inv(s) && AllRegistered(s.net, s.conns) && Feasible(s, run)
    ensures AlwaysRegistered(s, run) <==> Orderly(s, run)
    decreases |run|
  {
    if run != [] {
      StepKeepsInv(s, run[0]);
      if OrderlyStep(s, run[0]) {
        StepRegistered(s, run[0]);
        RegisteredIffOrderlyFrom(Next(s, run[0]), run[1..]);
      } else {
        OverlapUnregisters(s, run[0].w, run[0].choices);
      }
    }
  }

  /**
   Every served session is the registered one of its worker all through a run if and
   only if nobody reconnects before being unregistered.
   */
  lemma {:induction false} RegisteredIffOrderly(run: seq<Event>)
    requires Feasible(INIT, run)
    ensures AlwaysRegistered(INIT, run) <==> Orderly(INIT, run)
  {
    RegisteredIffOrderlyFrom(INIT, run);
  }

  // ---------------------------------------------------------------------
  // An overlap that strands an engine
  // ---------------------------------------------------------------------

  // A reconnection that overlaps: the old connection's unregister removes the new
  // registration, and the cancel that should have followed is never sent.

  const SOLO: string := "owner"

  function Joining(net: Net, conns: map<Id, Id>): Sys {
    Sys(0, 4, map[1 := Miner(SOLO, Created, true, false)], map[0 := Worker(SOLO, Native, Connected, None)], map[], map[], [],
        conns, map[0 := Live(SOLO, Native, map[])], map[], net, map[])
  }

  const FIRST := Session(0, [], [], Up, true, true, {})

  lemma {:induction false} JoinIdle(s: Sys)
    requires 0 in s.workers && s.workers[0].owner == SOLO && forall m | m in s.miners :: s.miners[m].status == Created
    requires s.workers[0].revokedAt.None?
    ensures Enabled(s, Connect(0, [])) && Next(s, Connect(0, [])) == Joined(s, 0)
  {
    NobodyQueued(s);
  }

  lemma {:induction false} OverlapJoins(s1: Sys, s2: Sys, s3: Sys)
    requires s1 == Sys(0, 2, map[1 := Miner(SOLO, Created, true, false)], map[0 := Worker(SOLO, Native, Enrolled, None)], map[], map[], [],
                       map[], map[], map[], map[], map[])
    requires s2 == Joining(map[2 := FIRST], map[0 := 2]).(next := 3)
    requires s3 == Joining(map[2 := FIRST.(phase := Down), 3 := FIRST], map[0 := 3])
    ensures Enabled(s1, Connect(0, [])) && Next(s1, Connect(0, [])) == s2
    ensures Enabled(s2, Connect(0, [])) && Next(s2, Connect(0, [])) == s3
  {
    JoinIdle(s1);
    JoinsFirst(s1);
    JoinIdle(s2);
    JoinsAgain(s2);
  }

  lemma {:induction false} JoinsFirst(s: Sys)
    requires s == Sys(0, 2, map[1 := Miner(SOLO, Created, true, false)], map[0 := Worker(SOLO, Native, Enrolled, None)], map[], map[], [],
                      map[], map[], map[], map[], map[])
    ensures Joined(s, 0) == Joining(map[2 := FIRST], map[0 := 2]).(next := 3)
  {
  }

  lemma {:induction false} JoinsAgain(s: Sys)
    requires s == Joining(map[2 := FIRST], map[0 := 2]).(next := 3)
    ensures Joined(s, 0) == Joining(map[2 := FIRST.(phase := Down), 3 := FIRST], map[0 := 3])
  {
  }

  lemma {:induction false} OverlapPrefix() returns (run: seq<Event>)
    ensures Feasible(INIT, run)
    ensures After(INIT, run) == Joining(map[2 := FIRST.(phase := Down), 3 := FIRST], map[0 := 3])
  {
    var e0, e1, e2 := EnrollWorker(SOLO, Native), CreateMiner(SOLO, true, false), Connect(0, []);
    run := [e0] + ([e1] + ([e2] + ([e2] + [])));
    var s0 := Sys(0, 1, map[], map[0 := Worker(SOLO, Native, Enrolled, None)], map[], map[], [], map[], map[], map[], map[], map[]);
    var s1 := s0.(next := 2, miners := map[1 := Miner(SOLO, Created, true, false)]);
    var s2 := Joining(map[2 := FIRST], map[0 := 2]).(next := 3);
    assert Next(INIT, e0) == s0;
    assert Next(s0, e1) == s1;
    OverlapJoins(s1, s2, Joining(map[2 := FIRST.(phase := Down), 3 := FIRST], map[0 := 3]));
    RunCons(INIT, e0, [e1] + ([e2] + ([e2] + [])));
    RunCons(s0, e1, [e2] + ([e2] + []));
    RunCons(s1, e2, [e2] + []);
    RunCons(s2, e2, []);
  }

  const DEAD := FIRST.(phase := Down)

  /** The miner is started and the worker runs its engine; then the old connection's handler ends. */
  function Mined(w: WorkerStatus, net: Net, conns: map<Id, Id>, live: map<Id, Live>): Sys {
    Sys(0, 6, map[1 := Miner(SOLO, Queued, true, false)], map[0 := Worker(SOLO, Native, w, None)],
        map[5 := Job(1, 0, JobAssigned, None)], map[4 := Run(1, None, 0, 0)], [], conns, live, map[], net, map[5 := 3])
  }

  const BUSY := FIRST.(up := [Ack(5, true)], running := {5})

  function LostMiner(): Sys { Mined(Offline, map[2 := DEAD.(serving := false), 3 := BUSY], map[], map[]) }

  lemma {:induction false} OverlapPick(t: Sys)
    requires t == Sys(0, 5, map[1 := Miner(SOLO, Queued, true, false)], map[0 := Worker(SOLO, Native, Connected, None)], map[],
                      map[4 := Run(1, None, 0, 0)], [], map[0 := 3], map[0 := Live(SOLO, Native, map[])], map[],
                      map[2 := DEAD, 3 := FIRST], map[])
    ensures IsTarget(t, 1, Some(0)) && WorkerStillThere(t, 1, 0)
    ensures AssignTo(t, 1, 0)
         == Mined(Assigned, map[2 := DEAD, 3 := FIRST.(down := [Assign(5)])], map[0 := 3], map[0 := Live(SOLO, Native, map[])])
  {
    assert CanSend(t, 3);
    var u := CreateJob(t, 1, 0, 3);
    assert u.jobs == map[5 := Job(1, 0, JobAssigned, None)] && u.homes == map[5 := 3];
    assert FIRST.down + [Assign(5)] == [Assign(5)];
    assert Send(u, 3, Assign(5)).net == map[2 := DEAD, 3 := FIRST.(down := [Assign(5)])];
  }

  lemma {:induction false} OverlapStart(s: Sys)
    requires s == Joining(map[2 := DEAD, 3 := FIRST], map[0 := 3])
    ensures var t := Mined(Assigned, map[2 := DEAD, 3 := FIRST.(down := [Assign(5)])], map[0 := 3], map[0 := Live(SOLO, Native, map[])]);
            Enabled(s, StartMiner(SOLO, 1, Some(0))) && Next(s, StartMiner(SOLO, 1, Some(0))) == t
  {
    var t := Started(s, 1);
    assert t.runs == map[4 := Run(1, None, 0, 0)];
    assert t.miners == map[1 := Miner(SOLO, Queued, true, false)];
    OverlapPick(t);
  }

  lemma {:induction false} OverlapRead(s: Sys)
    requires 3 in s.net && s.net[3] == FIRST.(down := [Assign(5)])
    ensures Enabled(s, WorkerRead(3, true)) && Next(s, WorkerRead(3, true)) == s.(net := s.net[3 := BUSY])
  {
    assert [Assign(5)][1..] == [];
    assert FIRST.running + {5} == {5} && FIRST.up + [Ack(5, true)] == [Ack(5, true)];
    assert WorkerHandle(FIRST, Assign(5), true) == BUSY;
  }

  lemma {:induction false} OverlapEnd(s: Sys)
    requires s == Mined(Assigned, map[2 := DEAD, 3 := BUSY], map[0 := 3], map[0 := Live(SOLO, Native, map[])])
    ensures Enabled(s, ServerEnd(2)) && Next(s, ServerEnd(2)) == LostMiner()
  {
  }

  lemma {:induction false} OverlapLose(s: Sys)
    requires s == Mined(Assigned, map[2 := DEAD, 3 := FIRST.(down := [Assign(5)])], map[0 := 3], map[0 := Live(SOLO, Native, map[])])
    ensures Feasible(s, [WorkerRead(3, true)] + ([ServerEnd(2)] + []))
    ensures After(s, [WorkerRead(3, true)] + ([ServerEnd(2)] + [])) == LostMiner()
  {
    var t := s.(net := map[2 := DEAD, 3 := BUSY]);
    OverlapRead(s);
    assert s.net[3 := BUSY] == t.net;
    OverlapEnd(t);
    RunCons(s, WorkerRead(3, true), [ServerEnd(2)] + []);
    RunCons(t, ServerEnd(2), []);
  }

  lemma {:induction false} OverlapStop()
    ensures Enabled(LostMiner(), StopMiner(SOLO, 1, [5]))
    ensures var t := Next(LostMiner(), StopMiner(SOLO, 1, [5])); t.net == LostMiner().net && t.conns == map[] && !Open(t, 5)
  {
    var s := LostMiner();
    assert OpenJobsOf(s, 1) == {5};
    assert CancelAll(s, 1, [5]) == CancelAll(CancelOne(s, 1, 5), 1, [5][1..]);
    CancelOneRows(s, 1, 5);
    CancelledNet(s, 1, 5);
  }

  /**
   Agreement is about registered sessions and does not extend to all that are served:
   here is a run in which a session that is alive, served and drained, but no longer
   registered, runs an engine whose job has ended.
   */
  lemma {:induction false} OverlapStrandsAnEngine() returns (run: seq<Event>, c: Id, j: Id)
    ensures Feasible(INIT, run)
    ensures var s := After(INIT, run);
            && c in s.net && s.net[c].serving && s.net[c].listening && s.net[c].phase == Up
            && s.net[c].down == [] && j in s.net[c].running && !Open(s, j)
            && !RegisteredAs(s.conns, s.net[c].worker, c)
  {
    c, j := 3, 5;
    var opening := OverlapPrefix();
    var start, stop := StartMiner(SOLO, 1, Some(0)), StopMiner(SOLO, 1, [5]);
    var middle := [WorkerRead(3, true)] + ([ServerEnd(2)] + []);
    var s := After(INIT, opening);
    OverlapStart(s);
    OverlapLose(Next(s, start));
    OverlapStop();
    RunCons(LostMiner(), stop, []);
    RunConcat(Next(s, start), middle, [stop] + []);
    RunCons(s, start, middle + ([stop] + []));
    run := opening + ([start] + (middle + ([stop] + [])));
    RunConcat(INIT, opening, [start] + (middle + ([stop] + [])));
  }

  lemma {:induction false} NobodyQueued(s: Sys)
    requires forall m | m in s.miners :: s.miners[m].status == Created
    ensures Enumerates([], QueuedMiners(s, SOLO)) && MinersOf([]) == []
  {
  }
}
