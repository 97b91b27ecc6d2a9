/**
 Distributed agreement: in every run the engines running on a connected worker are
 those of jobs open for it, up to cancels and revokes still queued to it.
 */
module SwarmAgreement {

  import opened Base
  import opened Swarm
  import opened SwarmInvariant
  import opened SwarmSteps
  import opened SwarmRuns
  import opened SwarmTheorems

  // ---------------------------------------------------------------------
  // What a session will be running once it has read its queue
  // ---------------------------------------------------------------------

  function Obeyed(running: set<Id>, msg: ToWorker): set<Id> {
    match msg
    case Assign(j) => running + {j}
    case CancelJob(j) => running - {j}
    case Allocation(_) => running
    case RevokeMsg => {}
  }

  /** The engines left when the queue is drained and every engine that can start does. */
  function Drain(running: set<Id>, down: seq<ToWorker>): set<Id>
    decreases |down|
  {
    if down == [] then running
    else if down[0] == RevokeMsg then {}
    else Drain(Obeyed(running, down[0]), down[1..])
  }

  lemma {:induction false} DrainMonotone(less: set<Id>, more: set<Id>, down: seq<ToWorker>)
    requires less <= more
    ensures Drain(less, down) <= Drain(more, down)
    decreases |down|
  {
    if down != [] && down[0] != RevokeMsg {
      DrainMonotone(Obeyed(less, down[0]), Obeyed(more, down[0]), down[1..]);
    }
  }

  lemma {:induction false} DrainSnoc(running: set<Id>, down: seq<ToWorker>, msg: ToWorker)
    ensures Drain(running, down + [msg]) <= Obeyed(Drain(running, down), msg)
    decreases |down|
  {
    if down == [] {
      assert down + [msg] == [msg];
      assert [msg][1..] == [];
      assert Drain(Obeyed(running, msg), [msg][1..]) == Obeyed(running, msg);
    } else {
      assert (down + [msg])[1..] == down[1..] + [msg];
      if down[0] != RevokeMsg {
        DrainSnoc(Obeyed(running, down[0]), down[1..], msg);
      }
    }
  }

  /** What is drained was running or is assigned by the queue. */
  lemma {:induction false} DrainBound(running: set<Id>, down: seq<ToWorker>, j: Id)
    requires j in Drain(running, down)
    ensures j in running || Assign(j) in down
    decreases |down|
  {
    if down != [] {
      DrainBound(Obeyed(running, down[0]), down[1..], j);
    }
  }

  /** What is running now and will not be was cancelled, or the worker revoked. */
  lemma {:induction false} DrainedAway(running: set<Id>, down: seq<ToWorker>, j: Id)
    requires j in running && j !in Drain(running, down)
    ensures CancelJob(j) in down || RevokeMsg in down
    decreases |down|
  {
    assert down != [];
    if down[0] != RevokeMsg && down[0] != CancelJob(j) {
      DrainedAway(Obeyed(running, down[0]), down[1..], j);
    }
  }

  lemma {:induction false} DrainRead(x: Session, started: bool)
    requires x.down != [] && x.down[0] != RevokeMsg
    ensures var y := WorkerHandle(x.(down := x.down[1..]), x.down[0], started);
            && Drain(y.running, y.down) <= Drain(x.running, x.down)
            && y.phase == x.phase && y.listening == x.listening && y.serving == x.serving && y.worker == x.worker
  {
    var y := WorkerHandle(x.(down := x.down[1..]), x.down[0], started);
    DrainMonotone(y.running, Obeyed(x.running, x.down[0]), x.down[1..]);
  }

  // ---------------------------------------------------------------------
  // Agreement
  // ---------------------------------------------------------------------

  ghost predicate AllOpenFor(ids: set<Id>, jobs: Jobs, w: Id) {
    forall j | j in ids :: IsOpen(jobs, j) && jobs[j].worker == w
  }

  /** c is the connection the hub has registered for w. */
  predicate RegisteredAs(conns: map<Id, Id>, w: Id, c: Id) { w in conns && conns[w] == c }

  /**
   What a listening session will be running once it has read its queue: nothing
   after a revoke, and only open jobs of its worker while it is the registered one.
   */
  ghost predicate Agrees(x: Session, c: Id, conns: map<Id, Id>, jobs: Jobs) {
    && (x.listening && x.phase == Closing ==> Drain(x.running, x.down) == {})
    && (x.listening && x.phase == Up && RegisteredAs(conns, x.worker, c) ==> AllOpenFor(Drain(x.running, x.down), jobs, x.worker))
  }

  ghost predicate AllAgree(net: Net, conns: map<Id, Id>, jobs: Jobs) {
    forall c | c in net :: Agrees(net[c], c, conns, jobs)
  }

  ghost predicate Agreed(s: Sys) { AllAgree(s.net, s.conns, s.jobs) }

  /** No open job of any session closes or moves. */
  ghost predicate StayOpen(jobs: Jobs, jobs': Jobs) {
    forall j | IsOpen(jobs, j) :: IsOpen(jobs', j) && jobs'[j].worker == jobs[j].worker
  }

  lemma {:induction false} StayOpenAgree(net: Net, conns: map<Id, Id>, jobs: Jobs, jobs': Jobs)
    requires AllAgree(net, conns, jobs) && StayOpen(jobs, jobs')
    ensures AllAgree(net, conns, jobs')
  {
    forall c | c in net ensures Agrees(net[c], c, conns, jobs') {
      assert Agrees(net[c], c, conns, jobs);
    }
  }

  /** y will run no more than x, and is no more connected than x. */
  ghost predicate Calmer(x: Session, y: Session) {
    && y.worker == x.worker
    && (y.listening ==> x.listening && Drain(y.running, y.down) <= Drain(x.running, x.down))
    && (y.phase == x.phase || y.phase == Down || (y.listening ==> Drain(y.running, y.down) == {}))
  }

  lemma {:induction false} CalmerAgrees(x: Session, y: Session, c: Id, conns: map<Id, Id>, jobs: Jobs)
    requires Agrees(x, c, conns, jobs) && Calmer(x, y)
    ensures Agrees(y, c, conns, jobs)
  {
  }

  lemma {:induction false} OneCalmer(net: Net, conns: map<Id, Id>, jobs: Jobs, c: Id, y: Session)
    requires AllAgree(net, conns, jobs) && c in net && Calmer(net[c], y)
    ensures AllAgree(net[c := y], conns, jobs)
  {
    assert Agrees(net[c], c, conns, jobs);
    CalmerAgrees(net[c], y, c, conns, jobs);
  }

  // ---------------------------------------------------------------------
  // Steps of the workers and the network
  // ---------------------------------------------------------------------

  lemma {:induction false} ReadCalmer(x: Session, started: bool)
    requires x.down != []
    ensures Calmer(x, WorkerHandle(x.(down := x.down[1..]), x.down[0], started))
  {
    if x.down[0] != RevokeMsg {
      DrainRead(x, started);
    }
  }

  lemma {:induction false} WorkerReadAgrees(s: Sys, c: Id, started: bool)
    requires Agreed(s) && Enabled(s, WorkerRead(c, started))
    ensures Agreed(Next(s, WorkerRead(c, started)))
  {
    ReadCalmer(s.net[c], started);
    OneCalmer(s.net, s.conns, s.jobs, c, WorkerHandle(s.net[c].(down := s.net[c].down[1..]), s.net[c].down[0], started));
  }

  lemma {:induction false} ReplyCalmer(x: Session, msg: ToServer)
    ensures Calmer(x, Reply(x, msg))
  {
    assert Reply(x, msg).running == x.running && Reply(x, msg).down == x.down;
  }

  lemma {:induction false} WorkerReportAgrees(s: Sys, c: Id, j: Id, acc: nat, rej: nat)
    requires Agreed(s) && Enabled(s, WorkerReport(c, j, acc, rej))
    ensures Agreed(Next(s, WorkerReport(c, j, acc, rej)))
  {
    ReplyCalmer(s.net[c], Metrics(j, acc, rej));
    OneCalmer(s.net, s.conns, s.jobs, c, Reply(s.net[c], Metrics(j, acc, rej)));
  }

  lemma {:induction false} SessionEndAgrees(s: Sys, c: Id)
    requires Agreed(s) && Enabled(s, SessionEnd(c))
    ensures Agreed(Next(s, SessionEnd(c)))
  {
    OneCalmer(s.net, s.conns, s.jobs, c, s.net[c].(listening := false, running := {}, phase := Hangup(s.net[c].phase)));
  }

  lemma {:induction false} BreakAgrees(s: Sys, c: Id)
    requires Agreed(s) && Enabled(s, Break(c))
    ensures Agreed(Next(s, Break(c)))
  {
    OneCalmer(s.net, s.conns, s.jobs, c, s.net[c].(phase := Down));
  }

  lemma {:induction false} UnregisterAgrees(net: Net, conns: map<Id, Id>, jobs: Jobs, w: Id)
    requires AllAgree(net, conns, jobs)
    ensures AllAgree(net, conns - {w}, jobs)
  {
    forall c | c in net ensures Agrees(net[c], c, conns - {w}, jobs) {
      assert Agrees(net[c], c, conns, jobs);
    }
  }

  lemma {:induction false} ServerEndAgrees(s: Sys, c: Id)
    requires Agreed(s) && Enabled(s, ServerEnd(c))
    ensures Agreed(Next(s, ServerEnd(c)))
  {
    var x := s.net[c];
    var y := x.(serving := false, phase := Hangup(x.phase));
    OneCalmer(s.net, s.conns, s.jobs, c, y);
    UnregisterAgrees(s.net[c := y], s.conns, s.jobs, x.worker);
  }

  // ---------------------------------------------------------------------
  // Steps of the server
  // ---------------------------------------------------------------------

  lemma {:induction false} SendCalmer(x: Session, msg: ToWorker)
    requires !msg.Assign?
    ensures Calmer(x, x.(down := x.down + [msg]))
  {
    DrainSnoc(x.running, x.down, msg);
  }

  lemma {:induction false} SendAgrees(s: Sys, c: Id, msg: ToWorker)
    requires Agreed(s) && !msg.Assign?
    ensures Agreed(Send(s, c, msg))
  {
    if CanSend(s, c) {
      SendCalmer(s.net[c], msg);
      OneCalmer(s.net, s.conns, s.jobs, c, s.net[c].(down := s.net[c].down + [msg]));
    }
  }

  lemma {:induction false} AllocateAgrees(s: Sys, order: seq<Id>)
    requires Agreed(s)
    ensures Agreed(AllocateAll(s, order))
    decreases |order|
  {
    if order != [] {
      var j := order[0];
      if j in s.jobs && s.jobs[j].worker in s.conns {
        SendAgrees(s, s.conns[s.jobs[j].worker], Allocation(j));
        AllocateAgrees(Send(s, s.conns[s.jobs[j].worker], Allocation(j)), order[1..]);
      } else {
        AllocateAgrees(s, order[1..]);
      }
    }
  }

  lemma {:induction false} RevokingAgrees(net: Net, conns: map<Id, Id>, jobs: Jobs, w: Id)
    requires AllAgree(net, conns, jobs)
    ensures AllAgree(NetRevoking(net, conns, w), conns, jobs)
  {
    if w in conns && conns[w] in net && net[conns[w]].phase == Up {
      var x := net[conns[w]];
      DrainSnoc(x.running, x.down, RevokeMsg);
      OneCalmer(net, conns, jobs, conns[w], x.(down := x.down + [RevokeMsg], phase := Closing));
    }
  }

  lemma {:induction false} HubRevokeAgrees(s: Sys, w: Id)
    requires Agreed(s)
    ensures Agreed(HubRevoke(s, w))
  {
    RevokingAgrees(s.net, s.conns, s.jobs, w);
  }

  /** The worker's registered session, if any, will drain to nothing or is broken. */
  ghost predicate Silenced(net: Net, conns: map<Id, Id>, w: Id) {
    w in conns && conns[w] in net ==> net[conns[w]].phase != Up
  }

  lemma {:induction false} HubRevokeSilences(s: Sys, w: Id)
    ensures Silenced(HubRevoke(s, w).net, s.conns, w)
  {
  }

  /** Jobs of a silenced worker may end or go; the others stay. */
  lemma {:induction false} SilencedAgree(net: Net, conns: map<Id, Id>, w: Id, jobs: Jobs, jobs': Jobs)
    requires AllAgree(net, conns, jobs) && Silenced(net, conns, w)
    requires forall j | IsOpen(jobs, j) && jobs[j].worker != w :: IsOpen(jobs', j) && jobs'[j].worker == jobs[j].worker
    ensures AllAgree(net, conns, jobs')
  {
    forall c | c in net ensures Agrees(net[c], c, conns, jobs') {
      assert Agrees(net[c], c, conns, jobs);
    }
  }

  lemma {:induction false} HubRevokeNet(s: Sys, t: Sys, w: Id)
    requires t.net == s.net && t.conns == s.conns
    ensures HubRevoke(t, w) == t.(net := HubRevoke(s, w).net)
  {
  }

  lemma {:induction false} EndJobsFrame(s: Sys, owner: string, w: Id)
    ensures var t := EndJobsOfWorker(MarkRevoked(s, owner, w), w);
            && t.net == s.net && t.conns == s.conns
            && (forall j | IsOpen(s.jobs, j) && s.jobs[j].worker != w :: IsOpen(t.jobs, j) && t.jobs[j].worker == s.jobs[j].worker)
  {
  }

  lemma {:induction false} RevokeWorkerAgrees(s: Sys, owner: string, w: Id)
    requires Agreed(s)
    ensures Agreed(Next(s, RevokeWorker(owner, w)))
  {
    if w in s.workers && s.workers[w].owner == owner && s.workers[w].revokedAt.None? {
      var t := EndJobsOfWorker(MarkRevoked(s, owner, w), w);
      EndJobsFrame(s, owner, w);
      HubRevokeNet(s, t, w);
      HubRevokeAgrees(s, w);
      HubRevokeSilences(s, w);
      SilencedAgree(HubRevoke(s, w).net, s.conns, w, s.jobs, t.jobs);
    }
  }

  lemma {:induction false} DeleteWorkerAgrees(s: Sys, owner: string, w: Id)
    requires Agreed(s)
    ensures Agreed(Next(s, DeleteWorker(owner, w)))
  {
    var t := HubRevoke(s, w);
    HubRevokeAgrees(s, w);
    HubRevokeSilences(s, w);
    SilencedAgree(t.net, t.conns, w, t.jobs, WithoutWorker(t.jobs, w));
  }

  // Cancelling

  lemma {:induction false} CancelledNet(s: Sys, m: Id, j: Id)
    requires Open(s, j)
    ensures var w := s.jobs[j].worker;
            && CancelOne(s, m, j).net == SendTo(s, w, CancelJob(j)).net && CancelOne(s, m, j).conns == s.conns
            && CancelOne(s, m, j).jobs == s.jobs[j := s.jobs[j].(status := JobEnded, endedAt := Some(s.now))]
  {
    CancelOneReordered(s, m, j);
    CancelOneRows(s, m, j);
  }

  lemma {:induction false} EndedAgrees(x: Session, c: Id, conns: map<Id, Id>, jobs: Jobs, j: Id, job: Job)
    requires Agrees(x, c, conns, jobs)
    requires x.listening && x.phase == Up && RegisteredAs(conns, x.worker, c) ==> j !in Drain(x.running, x.down)
    ensures Agrees(x, c, conns, jobs[j := job])
  {
  }

  /** The registered session of the job's worker has the cancel queued; no other registered session would run the job. */
  lemma {:induction false} CancelledEverywhere(s: Sys, c: Id, j: Id)
    requires Open(s, j) && c in s.net
    requires Agrees(SendTo(s, s.jobs[j].worker, CancelJob(j)).net[c], c, s.conns, s.jobs)
    ensures var y := SendTo(s, s.jobs[j].worker, CancelJob(j)).net[c];
            y.listening && y.phase == Up && RegisteredAs(s.conns, y.worker, c) ==> j !in Drain(y.running, y.down)
  {
    ToldDrain(s, c, s.jobs[j].worker, j);
    DrainSnoc(s.net[c].running, s.net[c].down, CancelJob(j));
  }

  lemma {:induction false} ToldKeys(s: Sys, w: Id, msg: ToWorker)
    ensures SendTo(s, w, msg).net.Keys == s.net.Keys
  {
  }

  lemma {:induction false} ToldAgrees(s: Sys, w: Id, j: Id)
    requires Agreed(s)
    ensures Agreed(SendTo(s, w, CancelJob(j)))
  {
    if w in s.conns {
      SendAgrees(s, s.conns[w], CancelJob(j));
    }
  }

  lemma {:induction false} CancelOneAgrees(s: Sys, m: Id, j: Id)
    requires Agreed(s) && Open(s, j)
    ensures Agreed(CancelOne(s, m, j))
  {
    var job := s.jobs[j].(status := JobEnded, endedAt := Some(s.now));
    var u := SendTo(s, s.jobs[j].worker, CancelJob(j));
    CancelledNet(s, m, j);
    ToldAgrees(s, s.jobs[j].worker, j);
    ToldKeys(s, s.jobs[j].worker, CancelJob(j));
    forall c | c in u.net ensures Agrees(u.net[c], c, s.conns, s.jobs[j := job]) {
      assert Agrees(u.net[c], c, s.conns, s.jobs);
      CancelledEverywhere(s, c, j);
      EndedAgrees(u.net[c], c, s.conns, s.jobs, j, job);
    }
  }

  lemma {:induction false} ToldDrain(s: Sys, c: Id, w: Id, j: Id)
    requires c in s.net
    ensures var y := SendTo(s, w, CancelJob(j)).net[c];
            && Drain(y.running, y.down) <= Drain(s.net[c].running, s.net[c].down)
            && (w in s.conns && s.conns[w] == c && y.phase == Up ==> y == s.net[c].(down := s.net[c].down + [CancelJob(j)]))
  {
    DrainSnoc(s.net[c].running, s.net[c].down, CancelJob(j));
  }

  lemma {:induction false} CancelAllAgrees(s: Sys, m: Id, order: seq<Id>)
    requires Agreed(s) && Cancellable(s, order)
    ensures Agreed(CancelAll(s, m, order))
    decreases |order|
  {
    if order != [] {
      CancelOneAgrees(s, m, order[0]);
      CancelStep(s, m, order);
      CancelAllAgrees(CancelOne(s, m, order[0]), m, order[1..]);
    }
  }

  lemma {:induction false} DroppedStayOpen(s: Sys, m: Id)
    requires OpenJobsOf(s, m) == {}
    ensures StayOpen(s.jobs, WithoutMiner(s.jobs, m))
  {
    forall j | IsOpen(s.jobs, j) ensures s.jobs[j].miner != m {
      assert j !in OpenJobsOf(s, m);
    }
  }

  lemma {:induction false} DropMinerAgrees(s: Sys, owner: string, m: Id)
    requires Agreed(s) && OpenJobsOf(s, m) == {}
    ensures Agreed(DropMiner(s, owner, m))
  {
    DroppedStayOpen(s, m);
    StayOpenAgree(s.net, s.conns, s.jobs, WithoutMiner(s.jobs, m));
  }

  lemma {:induction false} DeleteMinerAgrees(s: Sys, owner: string, m: Id, order: seq<Id>)
    requires Agreed(s) && Enumerates(order, OpenJobsOf(s, m))
    ensures Agreed(DropMiner(CancelAll(s, m, order), owner, m))
  {
    AllCancellable(s, m, order);
    CancelAllAgrees(s, m, order);
    NoOpenJobAfterCancel(s, m, order);
    DropMinerAgrees(CancelAll(s, m, order), owner, m);
  }

  // Assigning

  lemma {:induction false} AssignSentAgrees(net: Net, conns: map<Id, Id>, jobs: Jobs, c: Id, j: Id)
    requires AllAgree(net, conns, jobs) && c in net && net[c].phase == Up
    requires IsOpen(jobs, j) && jobs[j].worker == net[c].worker
    ensures AllAgree(net[c := net[c].(down := net[c].down + [Assign(j)])], conns, jobs)
  {
    assert Agrees(net[c], c, conns, jobs);
    DrainSnoc(net[c].running, net[c].down, Assign(j));
  }

  lemma {:induction false} CreatedAgrees(net: Net, conns: map<Id, Id>, jobs: Jobs, j: Id, job: Job)
    requires AllAgree(net, conns, jobs) && j !in jobs
    ensures AllAgree(net, conns, jobs[j := job])
  {
    StayOpenAgree(net, conns, jobs, jobs[j := job]);
  }

  lemma {:induction false} AssignLostAgrees(s: Sys, j: Id, m: Id, w: Id, c: Id)
    requires Agreed(s) && j == s.next && j !in s.jobs
    ensures Agreed(SetJobStatus(CreateJob(s, m, w, c), j, JobError))
  {
    var t := CreateJob(s, m, w, c);
    CreatedAgrees(s.net, s.conns, s.jobs, j, Job(m, w, JobError, Some(s.now)));
    assert SetJobStatus(t, j, JobError).jobs == s.jobs[j := Job(m, w, JobError, Some(s.now))];
  }

  lemma {:induction false} AssignOutAgrees(s: Sys, j: Id, m: Id, w: Id, c: Id)
    requires Agreed(s) && j == s.next && j !in s.jobs && CanSend(s, c) && s.net[c].worker == w
    ensures Agreed(Send(CreateJob(s, m, w, c), c, Assign(j)))
  {
    var job := Job(m, w, JobAssigned, None);
    CreatedAgrees(s.net, s.conns, s.jobs, j, job);
    AssignSentAgrees(s.net, s.conns, s.jobs[j := job], c, j);
  }

  lemma {:induction false} AssignToAgrees(s: Sys, m: Id, w: Id)
    requires Inv(s) && Agreed(s) && w in s.conns
    ensures Agreed(AssignTo(s, m, w))
  {
    var c, j := s.conns[w], s.next;
    RowsKnown(s);
    assert s.net[c].worker == w;
    if CanSend(s, c) {
      AssignOutAgrees(s, j, m, w, c);
    } else {
      AssignLostAgrees(s, j, m, w, c);
    }
  }

  lemma {:induction false} AssignAgrees(s: Sys, m: Id, target: Option<Id>)
    requires Inv(s) && Agreed(s) && IsTarget(s, m, target)
    ensures Agreed(AssignMiner(s, m, target))
  {
    if target.Some? && WorkerStillThere(s, m, target.value) {
      AssignToAgrees(s, m, target.value);
    }
  }

  lemma {:induction false} AssignAllAgrees(s: Sys, choices: seq<Choice>)
    requires Inv(s) && Agreed(s) && AssignableAll(s, choices)
    requires forall i | 0 <= i < |choices| :: choices[i].miner in s.miners && Active(s.miners[choices[i].miner].status)
    ensures Agreed(AssignAll(s, choices))
    decreases |choices|
  {
    if choices != [] {
      var m, target := choices[0].miner, choices[0].target;
      AssignAgrees(s, m, target);
      AssignMinerMiners(s, m, target);
      AssignMinerKeeps(s, m, target);
      AssignAllAgrees(AssignMiner(s, m, target), choices[1..]);
    }
  }

  lemma {:induction false} StartAgrees(s: Sys, owner: string, m: Id, target: Option<Id>)
    requires Inv(s) && Agreed(s) && Startable(s, owner, m) && IsTarget(Started(s, m), m, target)
    ensures Agreed(AssignMiner(Started(s, m), m, target))
  {
    var t := Started(s, m);
    OpenRunKeeps(s, m);
    SetMinerStatusKeeps(OpenRun(s, m), m, Queued);
    assert t.net == s.net && t.conns == s.conns && t.jobs == s.jobs;
    if target.Some? && WorkerStillThere(t, m, target.value) {
      AssignToAgrees(t, m, target.value);
    }
  }

  // Connecting and reading

  /** The connections after w has joined on c: an older one of w is hung up. */
  function JoinedNet(net: Net, conns: map<Id, Id>, w: Id, c: Id): Net {
    (if w in conns && conns[w] in net then net[conns[w] := net[conns[w]].(phase := Down)] else net)
      [c := Session(w, [], [], Up, true, true, {})]
  }

  lemma {:induction false} RegisteredForms(net: Net, t: Sys, w: Id, owner: string, kind: Kind, c: Id)
    requires c !in net && t.net == net[c := Session(w, [], [], Up, true, true, {})] && (w in t.conns ==> t.conns[w] in net)
    ensures var u := RegisterSection(t, w, owner, kind, c);
            && u.net == JoinedNet(net, t.conns, w, c) && u.conns == t.conns[w := c] && u.live == t.live[w := Live(owner, kind, map[])]
            && u.miners == t.miners && u.workers == t.workers && u.jobs == t.jobs
  {
  }

  lemma {:induction false} JoinedForms(s: Sys, w: Id)
    requires w in s.workers && s.next !in s.net && (w in s.conns ==> s.conns[w] in s.net)
    ensures var t := Joined(s, w);
            && t.net == JoinedNet(s.net, s.conns, w, s.next) && t.conns == s.conns[w := s.next]
            && t.live == s.live[w := Live(s.workers[w].owner, s.workers[w].kind, map[])]
            && t.miners == s.miners && t.workers.Keys == s.workers.Keys && t.jobs == s.jobs
  {
    var x := Session(w, [], [], Up, true, true, {});
    var t := s.(next := s.next + 1, net := s.net[s.next := x]);
    var u := RegisterSection(t, w, s.workers[w].owner, s.workers[w].kind, s.next);
    JoinedForm(s, w, t, u);
    RegisteredForms(s.net, t, w, s.workers[w].owner, s.workers[w].kind, s.next);
    assert SetWorkerStatus(u, w, Connected).workers.Keys == s.workers.Keys;
  }

  lemma {:induction false} JoinedAgreeMaps(net: Net, conns: map<Id, Id>, jobs: Jobs, w: Id, c: Id)
    requires AllAgree(net, conns, jobs) && c !in net
    ensures AllAgree(JoinedNet(net, conns, w, c), conns[w := c], jobs)
  {
    var net' := JoinedNet(net, conns, w, c);
    forall d | d in net' ensures Agrees(net'[d], d, conns[w := c], jobs) {
      if d != c {
        assert Agrees(net[d], d, conns, jobs);
      }
    }
  }

  lemma {:induction false} NextSession(s: Sys)
    requires Inv(s)
    ensures s.next !in s.net && forall w | w in s.conns :: s.conns[w] in s.net && s.net[s.conns[w]].worker == w
  {
  }

  lemma {:induction false} JoinedAgrees(s: Sys, w: Id)
    requires Inv(s) && Agreed(s) && w in s.workers
    ensures Agreed(Joined(s, w)) && Joined(s, w).miners == s.miners
  {
    NextSession(s);
    JoinedForms(s, w);
    JoinedAgreeMaps(s.net, s.conns, s.jobs, w, s.next);
  }

  lemma {:induction false} ConnectAgrees(s: Sys, w: Id, choices: seq<Choice>)
    requires Inv(s) && Agreed(s) && Enabled(s, Connect(w, choices))
    ensures Agreed(Next(s, Connect(w, choices)))
  {
    JoinedKeeps(s, w);
    JoinedAgrees(s, w);
    QueuedChoices(s, w, choices);
    AssignAllAgrees(Joined(s, w), choices);
  }

  lemma {:induction false} PoppedAgrees(s: Sys, c: Id)
    requires Agreed(s) && c in s.net && s.net[c].up != []
    ensures Agreed(Popped(s, c))
  {
    OneCalmer(s.net, s.conns, s.jobs, c, s.net[c].(up := s.net[c].up[1..]));
  }

  /** A refused job is neither running nor about to be, anywhere. */
  lemma {:induction false} RefusedNowhere(s: Sys, c: Id, j: Id, d: Id)
    requires Inv(s) && c in s.net && s.net[c].up != [] && s.net[c].up[0] == Ack(j, false) && d in s.net
    ensures j !in Drain(s.net[d].running, s.net[d].down)
  {
    assert InUp(s.net[c].up, j) && Ack(j, false) in s.net[c].up;
    assert Mentions(s.net[c], j);
    assert AtHome(s.net[c], c, s.homes) && AtHome(s.net[d], d, s.homes);
    assert DownOk(s.net[c], s.states.Keys) && UpOk(s.net[c], s.states.Keys, s.jobs);
    assert j !in s.net[d].running && Assign(j) !in s.net[d].down by {
      if d != c { assert !Mentions(s.net[d], j); }
    }
    if j in Drain(s.net[d].running, s.net[d].down) {
      DrainBound(s.net[d].running, s.net[d].down, j);
    }
  }

  lemma {:induction false} HandledAckNet(s: Sys, w: Id, j: Id, ok: bool)
    requires OpenFor(s, j, w)
    ensures HandleAck(s, w, j, ok).net == s.net && HandleAck(s, w, j, ok).conns == s.conns
  {
  }

  lemma {:induction false} HandledNet(s: Sys, w: Id, msg: ToServer)
    ensures ServerHandle(s, w, msg).net == s.net && ServerHandle(s, w, msg).conns == s.conns
  {
    if msg.Ack? && OpenFor(s, msg.job, w) {
      HandledAckNet(s, w, msg.job, msg.ok);
    }
  }

  lemma {:induction false} AckedStayOpen(s: Sys, j: Id)
    requires Open(s, j)
    ensures StayOpen(s.jobs, SetJobStatus(s, j, JobAck).jobs)
  {
  }

  lemma {:induction false} AckAgrees(s: Sys, c: Id, j: Id, ok: bool)
    requires Inv(s) && Agreed(s) && c in s.net && s.net[c].up != [] && s.net[c].up[0] == Ack(j, ok)
    ensures Agreed(HandleAck(Popped(s, c), s.net[c].worker, j, ok))
  {
    var w, t := s.net[c].worker, Popped(s, c);
    PoppedAgrees(s, c);
    if OpenFor(t, j, w) {
      AckFrame(t, w, j, ok);
      HandledNet(t, w, Ack(j, ok));
      if ok {
        AckedStayOpen(t, j);
        StayOpenAgree(t.net, t.conns, t.jobs, SetJobStatus(t, j, JobAck).jobs);
      } else {
        RefusedAgree(s, t, c, j);
      }
    }
  }

  lemma {:induction false} RefusedElsewhere(s: Sys, t: Sys, c: Id, j: Id, d: Id)
    requires Inv(s) && c in s.net && s.net[c].up != [] && s.net[c].up[0] == Ack(j, false)
    requires t == Popped(s, c) && d in t.net
    ensures j !in Drain(t.net[d].running, t.net[d].down)
  {
    RefusedNowhere(s, c, j, d);
  }

  lemma {:induction false} EndedNowhere(net: Net, conns: map<Id, Id>, jobs: Jobs, j: Id, job: Job)
    requires AllAgree(net, conns, jobs) && forall d | d in net :: j !in Drain(net[d].running, net[d].down)
    ensures AllAgree(net, conns, jobs[j := job])
  {
    forall d | d in net ensures Agrees(net[d], d, conns, jobs[j := job]) {
      assert Agrees(net[d], d, conns, jobs);
      EndedAgrees(net[d], d, conns, jobs, j, job);
    }
  }

  lemma {:induction false} ErrorRow(t: Sys, j: Id, job: Job)
    requires Open(t, j) && job == t.jobs[j].(status := JobError, endedAt := Some(t.now))
    ensures SetJobStatus(t, j, JobError).jobs == t.jobs[j := job]
  {
  }

  lemma {:induction false} RefusedAgree(s: Sys, t: Sys, c: Id, j: Id)
    requires Inv(s) && c in s.net && s.net[c].up != [] && s.net[c].up[0] == Ack(j, false)
    requires t == Popped(s, c) && AllAgree(t.net, t.conns, t.jobs) && Open(t, j)
    ensures AllAgree(t.net, t.conns, SetJobStatus(t, j, JobError).jobs)
  {
    forall d | d in t.net ensures j !in Drain(t.net[d].running, t.net[d].down) { RefusedElsewhere(s, t, c, j, d); }
    var job := t.jobs[j].(status := JobError, endedAt := Some(t.now));
    EndedNowhere(t.net, t.conns, t.jobs, j, job);
    ErrorRow(t, j, job);
  }

  lemma {:induction false} MetricsAgree(s: Sys, c: Id, j: Id, acc: nat, rej: nat)
    requires Agreed(s) && Enabled(s, ServerRead(c)) && s.net[c].up[0] == Metrics(j, acc, rej)
    ensures Agreed(HandleMetrics(Popped(s, c), s.net[c].worker, j, acc, rej))
  {
    PoppedAgrees(s, c);
    MetricsFrame(Popped(s, c), s.net[c].worker, j, acc, rej);
    HandledNet(Popped(s, c), s.net[c].worker, s.net[c].up[0]);
  }

  lemma {:induction false} ServerReadAgrees(s: Sys, c: Id)
    requires Inv(s) && Agreed(s) && Enabled(s, ServerRead(c))
    ensures Agreed(Next(s, ServerRead(c)))
  {
    match s.net[c].up[0]
    case Ack(j, ok) => AckAgrees(s, c, j, ok);
    case Metrics(j, acc, rej) => MetricsAgree(s, c, j, acc, rej);
  }

  // ---------------------------------------------------------------------
  // Runs
  // ---------------------------------------------------------------------

  lemma {:induction false} StepAgrees(s: Sys, e: Event)
    requires Inv(s) && Agreed(s) && Enabled(s, e)
    ensures Agreed(Next(s, e))
  {
    match e
    case CreateMiner(_, _, _) =>
    case EnrollWorker(_, _) =>
    case StartMiner(owner, m, target) => if Startable(s, owner, m) { StartAgrees(s, owner, m, target); }
    case StopMiner(owner, m, order) => StopAgrees(s, owner, m, order);
    case DeleteMiner(owner, m, order) => DeleteMinerAgrees(s, owner, m, order);
    case UpdateAllocation(owner, m, order) => AllocateAgrees(s, order);
    case RevokeWorker(owner, w) => RevokeWorkerAgrees(s, owner, w);
    case DeleteWorker(owner, w) => DeleteWorkerAgrees(s, owner, w);
    case Connect(w, choices) => ConnectAgrees(s, w, choices);
    case ServerRead(c) => ServerReadAgrees(s, c);
    case ServerEnd(c) => ServerEndAgrees(s, c);
    case WorkerRead(c, started) => WorkerReadAgrees(s, c, started);
    case WorkerReport(c, j, acc, rej) => WorkerReportAgrees(s, c, j, acc, rej);
    case SessionEnd(c) => SessionEndAgrees(s, c);
    case Break(c) => BreakAgrees(s, c);
    case Tick(_) =>
  }

  lemma {:induction false} StopAgrees(s: Sys, owner: string, m: Id, order: seq<Id>)
    requires Inv(s) && Agreed(s) && Enabled(s, StopMiner(owner, m, order))
    ensures Agreed(Next(s, StopMiner(owner, m, order)))
  {
    if Owns(s, owner, m) {
      AllCancellable(s, m, order);
      CancelAllAgrees(s, m, order);
    }
  }

  lemma {:induction false} RunAgrees(s: Sys, run: seq<Event>)
    requires Inv(s) && Agreed(s) && Feasible(s, run)
    ensures Inv(After(s, run)) && Agreed(After(s, run))
    decreases |run|
  {
    if run != [] {
      StepKeepsInv(s, run[0]);
      StepAgrees(s, run[0]);
      RunAgrees(Next(s, run[0]), run[1..]);
    }
  }

  /** The registered session of w, when both ends are alive and the connection is not broken. */
  predicate ConnectedBy(s: Sys, w: Id, c: Id) {
    w in s.conns && s.conns[w] == c && c in s.net && s.net[c].listening && s.net[c].phase != Down
  }

  /**
   Agreement: after every run, every engine running on a connected worker is that of
   a job open for the worker, or a cancel of it or a revoke is queued.
   */
  lemma {:induction false} Agreement(run: seq<Event>, w: Id, c: Id, j: Id)
    requires Feasible(INIT, run)
    requires ConnectedBy(After(INIT, run), w, c) && j in After(INIT, run).net[c].running
    ensures var s := After(INIT, run);
            OpenFor(s, j, w) || CancelJob(j) in s.net[c].down || RevokeMsg in s.net[c].down
  {
    RunAgrees(INIT, run);
    AgreedHere(After(INIT, run), w, c, j);
  }

  lemma {:induction false} AgreedHere(s: Sys, w: Id, c: Id, j: Id)
    requires Inv(s) && Agreed(s) && ConnectedBy(s, w, c) && j in s.net[c].running
    ensures OpenFor(s, j, w) || CancelJob(j) in s.net[c].down || RevokeMsg in s.net[c].down
  {
    var x := s.net[c];
    assert x.worker == w && Agrees(x, c, s.conns, s.jobs);
    if j in Drain(x.running, x.down) {
      assert IsOpen(s.jobs, j);
    } else {
      DrainedAway(x.running, x.down, j);
    }
  }

  /** Once the queue to a connected worker has drained, its running engines are all of jobs open for it. */
  lemma {:induction false} DrainedMeansOpen(run: seq<Event>, w: Id, c: Id)
    requires Feasible(INIT, run)
    requires ConnectedBy(After(INIT, run), w, c) && After(INIT, run).net[c].down == []
    ensures forall j | j in After(INIT, run).net[c].running :: OpenFor(After(INIT, run), j, w)
  {
    forall j | j in After(INIT, run).net[c].running ensures OpenFor(After(INIT, run), j, w) {
      Agreement(run, w, c, j);
    }
  }
}
