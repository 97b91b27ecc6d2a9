/**
 What each event does, read off the tables, the maps and the queues: the rows it is
 about, and everything else as it was.
 */
module SwarmEffects {

  import opened Base
  import opened Swarm
  import opened SwarmInvariant
  import opened SwarmSteps
  import opened SwarmRuns
  import opened SwarmTheorems
  import opened SwarmAgreement
  import opened SwarmDelivery
  import Shares

  /** All rows but one are what they were. */
  ghost predicate SameBut<T>(a: map<Id, T>, b: map<Id, T>, k: Id) {
    b.Keys == a.Keys && forall i | i in a && i != k :: b[i] == a[i]
  }

  // ---------------------------------------------------------------------
  // Revoking a worker
  // ---------------------------------------------------------------------

  /** The registered session of w, if it is up, has been told to leave and is closing. */
  ghost predicate ToldToLeave(s: Sys, t: Sys, w: Id) {
    if w in s.conns && s.conns[w] in s.net && s.net[s.conns[w]].phase == Up then
      var c := s.conns[w];
      SameBut(s.net, t.net, c) && t.net[c] == s.net[c].(down := s.net[c].down + [RevokeMsg], phase := Closing)
    else
      t.net == s.net
  }

  /** w's row is revoked now, its open jobs are ended now, its session is told, and nothing else has changed. */
  ghost predicate Revocation(s: Sys, t: Sys, w: Id)
    requires w in s.workers
  {
    && SameBut(s.workers, t.workers, w)
    && t.workers[w] == Worker(s.workers[w].owner, s.workers[w].kind, Revoked, Some(s.now))
    && t.jobs.Keys == s.jobs.Keys
    && (forall j | j in s.jobs ::
          t.jobs[j] == if s.jobs[j].worker == w && s.jobs[j].endedAt.None? then Job(s.jobs[j].miner, w, JobEnded, Some(s.now)) else s.jobs[j])
    && ToldToLeave(s, t, w)
    && t == s.(workers := t.workers, jobs := t.jobs, net := t.net)
  }

  lemma {:induction false} HubRevokeTells(s: Sys, w: Id)
    ensures ToldToLeave(s, HubRevoke(s, w), w)
  {
    if w in s.conns && s.conns[w] in s.net && s.net[s.conns[w]].phase == Up {
      var c := s.conns[w];
      var y := s.net[c].(down := s.net[c].down + [RevokeMsg], phase := Closing);
      assert HubRevoke(s, w).net == s.net[c := y];
      assert s.net[c := y].Keys == s.net.Keys;
    }
  }

  lemma {:induction false} RevokingRow(workers: map<Id, Worker>, owner: string, w: Id, now: nat)
    requires w in workers && workers[w].owner == owner && workers[w].revokedAt.None?
    ensures SameBut(workers, WorkersRevoking(workers, owner, w, now), w)
    ensures WorkersRevoking(workers, owner, w, now)[w] == Worker(owner, workers[w].kind, Revoked, Some(now))
  {
  }

  /** A revocation of the owner's unrevoked worker, in any state; of any other worker it changes nothing. */
  lemma {:induction false} RevokeTakesEffect(s: Sys, owner: string, w: Id)
    ensures var t := Next(s, RevokeWorker(owner, w));
            if w in s.workers && s.workers[w].owner == owner && s.workers[w].revokedAt.None? then Revocation(s, t, w) else t == s
  {
    if w in s.workers && s.workers[w].owner == owner && s.workers[w].revokedAt.None? {
      var u := MarkRevoked(s, owner, w);
      var v := EndJobsOfWorker(u, w);
      RevokingRow(s.workers, owner, w, s.now);
      HubRevokeTells(v, w);
      assert Next(s, RevokeWorker(owner, w)) == HubRevoke(v, w);
    }
  }

  // ---------------------------------------------------------------------
  // Deleting a worker
  // ---------------------------------------------------------------------

  /** The worker's row is gone, every other row is what it was. */
  ghost predicate RowGone<T>(a: map<Id, T>, b: map<Id, T>, k: Id) {
    && k !in b && (forall i | i != k :: i in b <==> i in a)
    && (forall i | i in b :: b[i] == a[i])
  }

  /** Just the worker's jobs are gone. */
  ghost predicate WorkersJobsGone(jobs: Jobs, jobs': Jobs, w: Id) {
    && (forall j :: j in jobs' <==> j in jobs && jobs[j].worker != w)
    && (forall j | j in jobs' :: jobs'[j] == jobs[j])
  }

  lemma {:induction false} WorkersJobsDropped(jobs: Jobs, w: Id)
    ensures WorkersJobsGone(jobs, WithoutWorker(jobs, w), w)
  {
  }

  lemma {:induction false} WorkerDropGone(s: Sys, owner: string, w: Id)
    ensures var t := DropWorker(s, owner, w);
            && t == s.(workers := t.workers, jobs := t.jobs)
            && if w in s.workers && s.workers[w].owner == owner then
                 RowGone(s.workers, t.workers, w) && WorkersJobsGone(s.jobs, t.jobs, w)
               else t == s
  {
    WorkersJobsDropped(s.jobs, w);
  }

  /** Whoever asks, the worker's connection is told to leave; rows go only for the owner. */
  lemma {:induction false} DeleteWorkerTakesEffect(s: Sys, owner: string, w: Id)
    ensures var t := Next(s, DeleteWorker(owner, w));
            && ToldToLeave(s, t, w) && t == s.(workers := t.workers, jobs := t.jobs, net := t.net)
            && if w in s.workers && s.workers[w].owner == owner then RowGone(s.workers, t.workers, w) && WorkersJobsGone(s.jobs, t.jobs, w)
               else t.workers == s.workers && t.jobs == s.jobs
  {
    HubRevokeTells(s, w);
    WorkerDropGone(HubRevoke(s, w), owner, w);
  }

  // ---------------------------------------------------------------------
  // Messages to the holders of some jobs
  // ---------------------------------------------------------------------

  /** x with more messages queued to it; what is sent on a connection that is not up is lost. */
  function Told(x: Session, msgs: seq<ToWorker>): Session {
    if x.phase == Up then x.(down := x.down + msgs) else x
  }

  function Notice(j: Id, cancel: bool): ToWorker { if cancel then CancelJob(j) else Allocation(j) }

  /** One message for each listed job whose worker is registered on c, in the order of the list. */
  function Notices(jobs: Jobs, conns: map<Id, Id>, c: Id, order: seq<Id>, cancel: bool): seq<ToWorker> {
    if order == [] then []
    else
      var j := order[0];
      (if j in jobs && jobs[j].worker in conns && conns[jobs[j].worker] == c then [Notice(j, cancel)] else [])
      + Notices(jobs, conns, c, order[1..], cancel)
  }

  /** Every connection has been sent just the notices about the jobs its worker holds. */
  ghost predicate Notified(s: Sys, net': Net, order: seq<Id>, cancel: bool) {
    && net'.Keys == s.net.Keys
    && forall c | c in s.net :: net'[c] == Told(s.net[c], Notices(s.jobs, s.conns, c, order, cancel))
  }

  lemma {:induction false} SendNotifies(s: Sys, w: Id, msg: ToWorker, c: Id)
    requires c in s.net
    ensures SendTo(s, w, msg).net.Keys == s.net.Keys
    ensures SendTo(s, w, msg).net[c] == Told(s.net[c], if w in s.conns && s.conns[w] == c then [msg] else [])
  {
    assert s.net[c].down + [] == s.net[c].down;
  }

  lemma {:induction false} ToldTwice(x: Session, a: seq<ToWorker>, b: seq<ToWorker>)
    ensures Told(Told(x, a), b) == Told(x, a + b)
  {
    assert (x.down + a) + b == x.down + (a + b);
  }

  lemma {:induction false} NoticesSame(jobs: Jobs, jobs': Jobs, conns: map<Id, Id>, c: Id, order: seq<Id>, cancel: bool)
    requires forall j | j in order :: (j in jobs <==> j in jobs') && (j in jobs ==> jobs'[j].worker == jobs[j].worker)
    ensures Notices(jobs', conns, c, order, cancel) == Notices(jobs, conns, c, order, cancel)
  {
    if order != [] {
      assert order[0] in order;
      NoticesSame(jobs, jobs', conns, c, order[1..], cancel);
    }
  }

  /** The first notice and then the others are all of them. */
  lemma {:induction false} NotifiedStep(s: Sys, t: Sys, net': Net, order: seq<Id>, cancel: bool)
    requires order != [] && order[0] in s.jobs && t.conns == s.conns
    requires t.net == SendTo(s, s.jobs[order[0]].worker, Notice(order[0], cancel)).net
    requires forall j | j in order[1..] :: (j in s.jobs <==> j in t.jobs) && (j in s.jobs ==> t.jobs[j].worker == s.jobs[j].worker)
    requires Notified(t, net', order[1..], cancel)
    ensures Notified(s, net', order, cancel)
  {
    var w, msg := s.jobs[order[0]].worker, Notice(order[0], cancel);
    forall c | c in s.net ensures c in net' && net'[c] == Told(s.net[c], Notices(s.jobs, s.conns, c, order, cancel)) {
      SendNotifies(s, w, msg, c);
      NoticesSame(s.jobs, t.jobs, s.conns, c, order[1..], cancel);
      ToldTwice(s.net[c], if w in s.conns && s.conns[w] == c then [msg] else [], Notices(s.jobs, s.conns, c, order[1..], cancel));
    }
    NotifiedKeys(s, w, msg);
  }

  lemma {:induction false} NotifiedKeys(s: Sys, w: Id, msg: ToWorker)
    ensures SendTo(s, w, msg).net.Keys == s.net.Keys
  {
  }

  lemma {:induction false} NoneNotified(s: Sys, cancel: bool)
    ensures Notified(s, s.net, [], cancel)
  {
    forall c | c in s.net ensures s.net[c] == Told(s.net[c], []) {
      assert s.net[c].down + [] == s.net[c].down;
    }
  }

  lemma {:induction false} CancelNotifies(s: Sys, m: Id, order: seq<Id>)
    requires Cancellable(s, order)
    ensures Notified(s, CancelAll(s, m, order).net, order, true)
    decreases |order|
  {
    if order == [] {
      NoneNotified(s, true);
    } else {
      var t := CancelOne(s, m, order[0]);
      CancelStep(s, m, order);
      CancelledNet(s, m, order[0]);
      CancelNotifies(t, m, order[1..]);
      NotifiedStep(s, t, CancelAll(t, m, order[1..]).net, order, true);
    }
  }

  lemma {:induction false} AllocateNotifies(s: Sys, order: seq<Id>)
    requires forall j | j in order :: j in s.jobs
    ensures Notified(s, AllocateAll(s, order).net, order, false)
    decreases |order|
  {
    if order == [] {
      NoneNotified(s, false);
    } else {
      var j := order[0];
      var t := SendTo(s, s.jobs[j].worker, Allocation(j));
      assert j in order;
      assert forall i | i in order[1..] :: i in order;
      AllocateNotifies(t, order[1..]);
      NotifiedStep(s, t, AllocateAll(t, order[1..]).net, order, false);
    }
  }

  /** An open job of m. */
  predicate OpenOf(jobs: Jobs, m: Id, j: Id) { j in jobs && jobs[j].miner == m && jobs[j].endedAt.None? }

  /** The list is the open jobs of m, each once. */
  ghost predicate ListsOpen(jobs: Jobs, m: Id, order: seq<Id>) {
    && (forall j :: j in order <==> OpenOf(jobs, m, j))
    && (forall i, k | 0 <= i < k < |order| :: order[i] != order[k])
  }

  lemma {:induction false} EnumeratesOpen(s: Sys, m: Id, order: seq<Id>)
    requires Enumerates(order, OpenJobsOf(s, m))
    ensures ListsOpen(s.jobs, m, order) && Cancellable(s, order)
  {
    AllCancellable(s, m, order);
    forall j ensures j in order <==> OpenOf(s.jobs, m, j) {
      assert j in OpenJobsOf(s, m) <==> OpenOf(s.jobs, m, j);
    }
  }

  /** An allocation update tells every holder of an open job of the miner once and does nothing else; for a stranger, nothing. */
  lemma {:induction false} AllocationTakesEffect(s: Sys, owner: string, m: Id, order: seq<Id>)
    requires Enabled(s, UpdateAllocation(owner, m, order))
    ensures var t := Next(s, UpdateAllocation(owner, m, order));
            if m in s.miners && s.miners[m].owner == owner then
              ListsOpen(s.jobs, m, order) && Notified(s, t.net, order, false) && t == s.(net := t.net)
            else t == s
  {
    EnumeratesOpen(s, m, order);
    AllocateFrame(s, order);
    AllocateNotifies(s, order);
  }

  // ---------------------------------------------------------------------
  // Stopping and deleting a miner
  // ---------------------------------------------------------------------

  /** The hub has forgotten the listed jobs, and nothing else. */
  ghost predicate Forgets(s: Sys, t: Sys, order: seq<Id>) {
    && (forall j :: j in t.states <==> j in s.states && j !in order)
    && (forall j | j in t.states :: t.states[j] == s.states[j])
    && t.live.Keys == s.live.Keys
    && forall w | w in s.live :: Unloaded(s.live[w], t.live[w], w, s.jobs, order)
  }

  /** y is x without those of the listed jobs that are w's. */
  ghost predicate Unloaded(x: Live, y: Live, w: Id, jobs: Jobs, order: seq<Id>) {
    && y == x.(jobs := y.jobs)
    && (forall j :: j in y.jobs <==> j in x.jobs && !(j in order && j in jobs && jobs[j].worker == w))
    && (forall j | j in y.jobs :: y.jobs[j] == x.jobs[j])
  }

  /** The open runs of m are closed now if any job was open, and no other run has changed. */
  ghost predicate RunsEnded(runs: map<Id, Run>, runs': map<Id, Run>, m: Id, now: nat, any: bool) {
    && runs'.Keys == runs.Keys
    && forall r | r in runs ::
         if any && runs[r].miner == m && runs[r].stoppedAt.None? then runs'[r] == Run(m, Some(now), runs'[r].acc, runs'[r].rej)
         else runs'[r] == runs[r]
  }

  /** The listed jobs are ended now, and no other job has changed. */
  ghost predicate JobsOver(jobs: Jobs, jobs': Jobs, order: seq<Id>, now: nat) {
    && jobs'.Keys == jobs.Keys
    && forall j | j in jobs :: jobs'[j] == if j in order then Job(jobs[j].miner, jobs[j].worker, JobEnded, Some(now)) else jobs[j]
  }

  /** What cancelling m's open jobs does: they end, the runs close, the hub forgets them, and their workers are told once. */
  ghost predicate Cancelled(s: Sys, t: Sys, m: Id, order: seq<Id>) {
    && ListsOpen(s.jobs, m, order)
    && JobsOver(s.jobs, t.jobs, order, s.now)
    && RunsEnded(s.runs, t.runs, m, s.now, order != [])
    && Forgets(s, t, order)
    && Notified(s, t.net, order, true)
    && t.miners == s.miners && t.workers == s.workers && t.samples == s.samples && t.conns == s.conns
    && t.now == s.now && t.next == s.next && t.homes == s.homes
  }

  lemma {:induction false} CancelOneForgets(s: Sys, m: Id, j: Id)
    requires Open(s, j)
    ensures Forgets(s, CancelOne(s, m, j), [j])
  {
    CancelOneReordered(s, m, j);
  }

  lemma {:induction false} UnloadedTrans(x: Live, y: Live, z: Live, w: Id, jobs: Jobs, jobs': Jobs, order: seq<Id>)
    requires order != [] && Unloaded(x, y, w, jobs, [order[0]]) && Unloaded(y, z, w, jobs', order[1..])
    requires jobs'.Keys == jobs.Keys && forall j | j in jobs :: jobs'[j].worker == jobs[j].worker
    ensures Unloaded(x, z, w, jobs, order)
  {
    assert forall j :: j in order <==> j == order[0] || j in order[1..];
  }

  lemma {:induction false} ForgetsTrans(s: Sys, t: Sys, u: Sys, order: seq<Id>)
    requires order != [] && Forgets(s, t, [order[0]]) && Forgets(t, u, order[1..])
    requires t.jobs.Keys == s.jobs.Keys && forall j | j in s.jobs :: t.jobs[j].worker == s.jobs[j].worker
    ensures Forgets(s, u, order)
  {
    assert forall j :: j in order <==> j == order[0] || j in order[1..];
    forall w | w in s.live ensures Unloaded(s.live[w], u.live[w], w, s.jobs, order) {
      UnloadedTrans(s.live[w], t.live[w], u.live[w], w, s.jobs, t.jobs, order);
    }
  }

  lemma {:induction false} CancelForgets(s: Sys, m: Id, order: seq<Id>)
    requires Cancellable(s, order)
    ensures Forgets(s, CancelAll(s, m, order), order)
    decreases |order|
  {
    if order != [] {
      var t := CancelOne(s, m, order[0]);
      CancelStep(s, m, order);
      CancelOneForgets(s, m, order[0]);
      CancelForgets(t, m, order[1..]);
      ForgetsTrans(s, t, CancelAll(t, m, order[1..]), order);
    }
  }

  lemma {:induction false} RunsEndedTrans(a: map<Id, Run>, b: map<Id, Run>, c: map<Id, Run>, m: Id, now: nat, more: bool)
    requires RunsEnded(a, b, m, now, true) && RunsEnded(b, c, m, now, more)
    ensures RunsEnded(a, c, m, now, true)
  {
  }

  lemma {:induction false} CancelEndsRuns(s: Sys, m: Id, order: seq<Id>)
    requires Cancellable(s, order)
    ensures RunsEnded(s.runs, CancelAll(s, m, order).runs, m, s.now, order != [])
    decreases |order|
  {
    if order != [] {
      var t := CancelOne(s, m, order[0]);
      CancelStep(s, m, order);
      CancelOneRuns(s, m, order[0]);
      CancelEndsRuns(t, m, order[1..]);
      RunsEndedTrans(s.runs, t.runs, CancelAll(t, m, order[1..]).runs, m, s.now, order[1..] != []);
    }
  }

  lemma {:induction false} CancelTakesEffect(s: Sys, m: Id, order: seq<Id>)
    requires Enumerates(order, OpenJobsOf(s, m))
    ensures Cancelled(s, CancelAll(s, m, order), m, order)
  {
    EnumeratesOpen(s, m, order);
    CancelAllJobs(s, m, order);
    CancelEndsRuns(s, m, order);
    CancelForgets(s, m, order);
    CancelNotifies(s, m, order);
  }

  /** The owner's stop cancels the miner's open jobs and marks it stopped; a stranger's changes nothing. */
  lemma {:induction false} StopTakesEffect(s: Sys, owner: string, m: Id, order: seq<Id>)
    requires Enabled(s, StopMiner(owner, m, order))
    ensures var t := Next(s, StopMiner(owner, m, order));
            if m in s.miners && s.miners[m].owner == owner then
              && SameBut(s.miners, t.miners, m) && t.miners[m] == s.miners[m].(status := Stopped)
              && Cancelled(s, t.(miners := s.miners), m, order)
            else t == s
  {
    if Owns(s, owner, m) {
      CancelTakesEffect(s, m, order);
      StoppedRow(s, CancelAll(s, m, order), m, order);
    }
  }

  lemma {:induction false} StoppedRow(s: Sys, u: Sys, m: Id, order: seq<Id>)
    requires Cancelled(s, u, m, order) && m in s.miners
    ensures var t := SetMinerStatus(u, m, Stopped);
            && SameBut(s.miners, t.miners, m) && t.miners[m] == s.miners[m].(status := Stopped)
            && t.(miners := s.miners) == u
  {
  }

  ghost predicate MinersJobsGone(jobs: Jobs, jobs': Jobs, m: Id) {
    && (forall j :: j in jobs' <==> j in jobs && jobs[j].miner != m)
    && (forall j | j in jobs' :: jobs'[j] == jobs[j])
  }

  ghost predicate MinersRunsGone(runs: map<Id, Run>, runs': map<Id, Run>, m: Id) {
    && (forall r :: r in runs' <==> r in runs && runs[r].miner != m)
    && (forall r | r in runs' :: runs'[r] == runs[r])
  }

  ghost predicate MinersSamplesGone(xs: seq<Sample>, xs': seq<Sample>, m: Id) {
    && (forall x | x in xs' :: x.miner != m)
    && (forall k | k != m :: SamplesOf(xs', k) == SamplesOf(xs, k))
  }

  /** No row is about m any more; rows of other miners are what they were, samples in their order. */
  ghost predicate MinerGone(s: Sys, t: Sys, m: Id) {
    && RowGone(s.miners, t.miners, m)
    && MinersJobsGone(s.jobs, t.jobs, m)
    && MinersRunsGone(s.runs, t.runs, m)
    && MinersSamplesGone(s.samples, t.samples, m)
  }

  lemma {:induction false} MinersRowsDropped(jobs: Jobs, runs: map<Id, Run>, m: Id)
    ensures MinersJobsGone(jobs, WithoutMiner(jobs, m), m) && MinersRunsGone(runs, RunsWithout(runs, m), m)
  {
  }

  lemma {:induction false} DropGone(s: Sys, owner: string, m: Id)
    ensures var t := DropMiner(s, owner, m);
            && t == s.(miners := t.miners, jobs := t.jobs, runs := t.runs, samples := t.samples)
            && if m in s.miners && s.miners[m].owner == owner then MinerGone(s, t, m) else t == s
  {
    if m in s.miners && s.miners[m].owner == owner {
      SamplesDropped(s.samples, m);
      MinersRowsDropped(s.jobs, s.runs, m);
    }
  }

  lemma {:induction false} SamplesDropped(xs: seq<Sample>, m: Id)
    ensures MinersSamplesGone(xs, SamplesWithout(xs, m), m)
  {
    forall x | x in SamplesWithout(xs, m) ensures x.miner != m {
      FilterMember((y: Sample) => y.miner != m, xs, x);
    }
    forall k | k != m ensures SamplesOf(SamplesWithout(xs, m), k) == SamplesOf(xs, k) {
      SamplesOfOthersDropped(xs, k, m);
    }
  }

  /** What is left of a cancelled miner's tables when its rows are deleted. */
  ghost predicate Deleted(s: Sys, t: Sys, m: Id, order: seq<Id>) {
    && MinerGone(s, t, m) && Forgets(s, t, order) && Notified(s, t.net, order, true)
    && t == s.(miners := t.miners, jobs := t.jobs, runs := t.runs, samples := t.samples, states := t.states, live := t.live, net := t.net)
  }

  lemma {:induction false} GoneAfterCancel(s: Sys, u: Sys, t: Sys, m: Id, order: seq<Id>)
    requires Cancelled(s, u, m, order) && MinerGone(u, t, m)
    requires t == u.(miners := t.miners, jobs := t.jobs, runs := t.runs, samples := t.samples)
    ensures Deleted(s, t, m, order)
  {
    JobsGoneAfter(s.jobs, u.jobs, t.jobs, m, order, s.now);
    RunsGoneAfter(s.runs, u.runs, t.runs, m, s.now, order != []);
  }

  lemma {:induction false} JobsGoneAfter(jobs: Jobs, jobs': Jobs, jobs'': Jobs, m: Id, order: seq<Id>, now: nat)
    requires ListsOpen(jobs, m, order) && JobsOver(jobs, jobs', order, now) && MinersJobsGone(jobs', jobs'', m)
    ensures MinersJobsGone(jobs, jobs'', m)
  {
  }

  lemma {:induction false} RunsGoneAfter(runs: map<Id, Run>, runs': map<Id, Run>, runs'': map<Id, Run>, m: Id, now: nat, any: bool)
    requires RunsEnded(runs, runs', m, now, any) && MinersRunsGone(runs', runs'', m)
    ensures MinersRunsGone(runs, runs'', m)
  {
  }

  /** The owner's delete leaves no row of the miner; a stranger's cancels its jobs all the same, and removes nothing. */
  lemma {:induction false} DeleteTakesEffect(s: Sys, owner: string, m: Id, order: seq<Id>)
    requires Enabled(s, DeleteMiner(owner, m, order))
    ensures var t := Next(s, DeleteMiner(owner, m, order));
            && ListsOpen(s.jobs, m, order)
            && if m in s.miners && s.miners[m].owner == owner then Deleted(s, t, m, order) else Cancelled(s, t, m, order)
  {
    var u := CancelAll(s, m, order);
    CancelTakesEffect(s, m, order);
    DropGone(u, owner, m);
    if m in s.miners && s.miners[m].owner == owner {
      GoneAfterCancel(s, u, DropMiner(u, owner, m), m, order);
    }
  }

  // ---------------------------------------------------------------------
  // Starting a miner, and placing it
  // ---------------------------------------------------------------------

  /** One new row, every other one as it was. */
  ghost predicate NewRow<T>(a: map<Id, T>, b: map<Id, T>, k: Id, row: T) {
    && k !in a && b.Keys == a.Keys + {k} && b[k] == row && forall i | i in a :: b[i] == a[i]
  }

  lemma {:induction false} RowAdded<T>(a: map<Id, T>, k: Id, row: T)
    requires k !in a
    ensures NewRow(a, a[k := row], k, row)
  {
  }

  /** The status w has after a write of st: a revoked worker keeps its own. */
  ghost predicate StatusSet(workers: map<Id, Worker>, workers': map<Id, Worker>, w: Id, st: WorkerStatus) {
    && SameBut(workers, workers', w)
    && (w in workers ==>
          workers'[w] == if workers[w].status == Revoked then workers[w] else Worker(workers[w].owner, workers[w].kind, st, workers[w].revokedAt))
  }

  lemma {:induction false} StatusIsSet(workers: map<Id, Worker>, w: Id, st: WorkerStatus)
    ensures StatusSet(workers, WorkersWith(workers, w, st), w, st)
  {
  }

  /** t is s with job j of m for w added: open and sent to w, or in error because w could not be reached. */
  ghost predicate GivenTo(s: Sys, t: Sys, m: Id, w: Id, j: Id)
    requires w in s.conns
  {
    var c := s.conns[w];
    var up := c in s.net && s.net[c].phase == Up;
    && NewRow(s.jobs, t.jobs, j, if up then Job(m, w, JobAssigned, None) else Job(m, w, JobError, Some(s.now)))
    && NewRow(s.homes, t.homes, j, c)
    && SameBut(s.net, t.net, c) && (c in s.net ==> t.net[c] == Told(s.net[c], [Assign(j)]))
    && (if up then StatusSet(s.workers, t.workers, w, Assigned) else t.workers == s.workers)
    && t.next == j + 1 && t == s.(next := t.next, jobs := t.jobs, homes := t.homes, net := t.net, workers := t.workers)
  }

  lemma {:induction false} SentGiven(s: Sys, m: Id, w: Id)
    requires w in s.conns && s.next !in s.jobs && s.next !in s.homes && CanSend(s, s.conns[w])
    ensures GivenTo(s, AssignTo(s, m, w), m, w, s.next)
  {
    var c := s.conns[w];
    PlacedOut(s, m, w);
    StatusIsSet(s.workers, w, Assigned);
    var t := Send(CreateJob(s, m, w, c), c, Assign(s.next));
    assert AssignTo(s, m, w) == SetWorkerStatus(t, w, Assigned);
  }

  lemma {:induction false} LostGiven(s: Sys, m: Id, w: Id)
    requires w in s.conns && s.next !in s.jobs && s.next !in s.homes && !CanSend(s, s.conns[w])
    ensures GivenTo(s, AssignTo(s, m, w), m, w, s.next)
  {
    var c := s.conns[w];
    PlacedLost(s, m, w);
    if c in s.net { assert Told(s.net[c], [Assign(s.next)]) == s.net[c]; }
    assert AssignTo(s, m, w) == SetJobStatus(CreateJob(s, m, w, c), s.next, JobError);
  }

  /** Native workers of the owner that are connected. */
  predicate Offers(s: Sys, owner: string, w: Id) { w in s.live && w in s.conns && s.live[w].owner == owner && s.live[w].kind == Native }

  /** The scan picks one of these with the fewest jobs, and none when there is none. */
  ghost predicate Picks(s: Sys, m: Id, target: Option<Id>)
    requires m in s.miners
  {
    match target
    case None => forall w :: !Offers(s, s.miners[m].owner, w)
    case Some(t) => Offers(s, s.miners[m].owner, t) && forall w | Offers(s, s.miners[m].owner, w) :: |s.live[t].jobs| <= |s.live[w].jobs|
  }

  /** t is s after an assignment of m: given to the scan's pick unless that worker's row is gone. */
  ghost predicate AssignedTo(s: Sys, t: Sys, m: Id, target: Option<Id>) {
    && m in s.miners && Picks(s, m, target)
    && if target.Some? && target.value in s.workers then GivenTo(s, t, m, target.value, s.next) else t == s
  }

  lemma {:induction false} ScanPicks(s: Sys, m: Id, target: Option<Id>)
    requires m in s.miners && IsTarget(s, m, target)
    ensures Picks(s, m, target)
  {
    assert forall w :: Eligible(s, m, w) <==> Offers(s, s.miners[m].owner, w);
  }

  lemma {:induction false} AssignTakesEffect(s: Sys, m: Id, target: Option<Id>)
    requires Inv(s) && m in s.miners && IsTarget(s, m, target)
    ensures AssignedTo(s, AssignMiner(s, m, target), m, target)
  {
    ScanPicks(s, m, target);
    RowsKnown(s);
    if target.Some? && target.value in s.workers {
      TargetStillThere(s, Choice(m, target));
      if CanSend(s, s.conns[target.value]) { SentGiven(s, m, target.value); } else { LostGiven(s, m, target.value); }
    }
  }

  /** The guards passed: the owner's own miner, neither running nor queued, and paid to a wallet or simulated. */
  predicate MayStart(s: Sys, owner: string, m: Id) {
    && m in s.miners && s.miners[m].owner == owner
    && s.miners[m].status in {Created, Stopped, Errored}
    && (s.miners[m].hasWallet || s.miners[m].simulated)
  }

  /** t is s with m queued and one new open run. */
  ghost predicate QueuedNow(s: Sys, t: Sys, m: Id) {
    && SameBut(s.miners, t.miners, m) && m in s.miners
    && t.miners[m] == Miner(s.miners[m].owner, Queued, s.miners[m].hasWallet, s.miners[m].simulated)
    && NewRow(s.runs, t.runs, s.next, Run(m, None, 0, 0))
    && t.next == s.next + 1 && t == s.(next := t.next, miners := t.miners, runs := t.runs)
  }

  lemma {:induction false} StartedQueues(s: Sys, m: Id)
    requires m in s.miners && s.next !in s.runs
    ensures QueuedNow(s, Started(s, m), m)
  {
  }

  /** A start the guards let through queues the miner with a new run and then assigns it; any other changes nothing. */
  lemma {:induction false} StartTakesEffect(s: Sys, owner: string, m: Id, target: Option<Id>) returns (queued: Sys)
    requires Inv(s) && Enabled(s, StartMiner(owner, m, target))
    ensures var t := Next(s, StartMiner(owner, m, target));
            if MayStart(s, owner, m) then QueuedNow(s, queued, m) && AssignedTo(queued, t, m, target) else t == s
  {
    queued := s;
    if Startable(s, owner, m) {
      queued := Started(s, m);
      NoSuchRow(s);
      StartedQueues(s, m);
      OpenRunKeeps(s, m);
      SetMinerStatusKeeps(OpenRun(s, m), m, Queued);
      AssignTakesEffect(queued, m, target);
    }
  }

  lemma {:induction false} NoSuchRow(s: Sys)
    requires Inv(s)
    ensures s.next !in s.runs && s.next !in s.miners && s.next !in s.workers
  {
  }

  // ---------------------------------------------------------------------
  // Coming and going
  // ---------------------------------------------------------------------

  /** t is s with w registered on a new session, and its old session closed. */
  ghost predicate JoinedAs(s: Sys, t: Sys, w: Id)
    requires w in s.workers
  {
    var c := s.next;
    && t.conns.Keys == s.conns.Keys + {w} && t.conns[w] == c && (forall v | v in s.conns && v != w :: t.conns[v] == s.conns[v])
    && t.live.Keys == s.live.Keys + {w} && t.live[w] == Live(s.workers[w].owner, s.workers[w].kind, map[])
    && (forall v | v in s.live && v != w :: t.live[v] == s.live[v])
    && c !in s.net && t.net.Keys == s.net.Keys + {c} && t.net[c] == Session(w, [], [], Up, true, true, {})
    && (forall d | d in s.net :: t.net[d] == if w in s.conns && d == s.conns[w] then s.net[d].(phase := Down) else s.net[d])
    && StatusSet(s.workers, t.workers, w, Connected)
    && t.next == s.next + 1 && t == s.(next := t.next, conns := t.conns, live := t.live, net := t.net, workers := t.workers)
  }

  lemma {:induction false} JoinTakesEffect(s: Sys, w: Id)
    requires w in s.workers && s.next !in s.net && (w in s.conns ==> s.conns[w] in s.net)
    ensures JoinedAs(s, Joined(s, w), w)
  {
    JoinedForms(s, w);
    JoinedFrame(s, w);
    JoinedRest(s, w);
    StatusIsSet(s.workers, w, Connected);
  }

  lemma {:induction false} JoinedRest(s: Sys, w: Id)
    requires w in s.workers
    ensures var t := Joined(s, w); t == s.(next := t.next, conns := t.conns, live := t.live, net := t.net, workers := t.workers)
  {
  }

  /** t is s after one assignment for each choice, in turn. */
  ghost predicate AssignedInTurn(s: Sys, t: Sys, choices: seq<Choice>)
    decreases |choices|
  {
    if choices == [] then t == s
    else exists u :: AssignedTo(s, u, choices[0].miner, choices[0].target) && AssignedInTurn(u, t, choices[1..])
  }

  lemma {:induction false} AllAssigned(s: Sys, choices: seq<Choice>)
    requires Inv(s) && AssignableAll(s, choices)
    requires forall k | 0 <= k < |choices| :: choices[k].miner in s.miners && Active(s.miners[choices[k].miner].status)
    ensures AssignedInTurn(s, AssignAll(s, choices), choices)
    decreases |choices|
  {
    if choices != [] {
      var u := FirstAssigned(s, choices);
      AllAssigned(u, choices[1..]);
    }
  }

  lemma {:induction false} InTurn(s: Sys, u: Sys, t: Sys, choices: seq<Choice>)
    requires choices != [] && AssignedTo(s, u, choices[0].miner, choices[0].target) && AssignedInTurn(u, t, choices[1..])
    ensures AssignedInTurn(s, t, choices)
  {
  }

  lemma {:induction false} FirstAssigned(s: Sys, choices: seq<Choice>) returns (u: Sys)
    requires Inv(s) && AssignableAll(s, choices) && choices != []
    requires forall k | 0 <= k < |choices| :: choices[k].miner in s.miners && Active(s.miners[choices[k].miner].status)
    ensures u == AssignMiner(s, choices[0].miner, choices[0].target) && Inv(u) && u.miners == s.miners
    ensures forall t | AssignedInTurn(u, t, choices[1..]) :: AssignedInTurn(s, t, choices)
  {
    var x := choices[0];
    u := AssignMiner(s, x.miner, x.target);
    AssignTakesEffect(s, x.miner, x.target);
    AssignMinerMiners(s, x.miner, x.target);
    AssignMinerKeeps(s, x.miner, x.target);
    forall t | AssignedInTurn(u, t, choices[1..]) ensures AssignedInTurn(s, t, choices) {
      InTurn(s, u, t, choices);
    }
  }

  /** A connection registers the worker on a new session, and then assigns the queued miners of its owner one after another. */
  lemma {:induction false} ConnectTakesEffect(s: Sys, w: Id, choices: seq<Choice>) returns (joined: Sys)
    requires Inv(s) && Enabled(s, Connect(w, choices))
    ensures JoinedAs(s, joined, w) && AssignedInTurn(joined, Next(s, Connect(w, choices)), choices)
  {
    joined := Joined(s, w);
    NextSession(s);
    JoinTakesEffect(s, w);
    JoinedKeeps(s, w);
    QueuedChoices(s, w, choices);
    AllAssigned(joined, choices);
  }

  /** When the server's end of a session goes away, its worker is registered no more and offline, whatever it was registered with. */
  lemma {:induction false} DisconnectTakesEffect(s: Sys, c: Id)
    requires Enabled(s, ServerEnd(c))
    ensures var t, x := Next(s, ServerEnd(c)), s.net[c];
            && t.conns.Keys == s.conns.Keys - {x.worker} && (forall v | v in t.conns :: t.conns[v] == s.conns[v])
            && t.live.Keys == s.live.Keys - {x.worker} && (forall v | v in t.live :: t.live[v] == s.live[v])
            && SameBut(s.net, t.net, c) && t.net[c] == x.(serving := false, phase := if x.phase == Closing then Closing else Down)
            && StatusSet(s.workers, t.workers, x.worker, Offline)
            && t == s.(conns := t.conns, live := t.live, net := t.net, workers := t.workers)
  {
    StatusIsSet(s.workers, s.net[c].worker, Offline);
  }

  // ---------------------------------------------------------------------
  // Messages
  // ---------------------------------------------------------------------

  /** t is s after w has acknowledged or refused its open job j. */
  ghost predicate Acknowledged(s: Sys, t: Sys, w: Id, j: Id, ok: bool)
    requires j in s.jobs
  {
    var m := s.jobs[j].miner;
    && SameBut(s.jobs, t.jobs, j) && t.jobs[j] == (if ok then Job(m, w, JobAck, None) else Job(m, w, JobError, Some(s.now)))
    && SameBut(s.miners, t.miners, m) && (m in s.miners ==> t.miners[m] == s.miners[m].(status := if ok then Running else Errored))
    && (if ok then StatusSet(s.workers, t.workers, w, Mining) else t.workers == s.workers)
    && (if ok then Reindexed(s.states, t.states, j, JobState(m, 0, 0, 0, 0)) else t.states == s.states)
    && SameBut(s.live, t.live, w)
    && (w in s.live ==> t.live[w] == if ok then s.live[w].(jobs := s.live[w].jobs[j := m]) else s.live[w])
    && t == s.(jobs := t.jobs, miners := t.miners, workers := t.workers, states := t.states, live := t.live)
  }

  /** The hub's entry for one job is written, the others are what they were. */
  ghost predicate Reindexed(states: States, states': States, j: Id, entry: JobState) {
    && states'.Keys == states.Keys + {j} && states'[j] == entry && forall i | i in states && i != j :: states'[i] == states[i]
  }

  /** Its own open job, or nothing happens. */
  lemma {:induction false} AckTakesEffect(s: Sys, w: Id, j: Id, ok: bool)
    ensures var t := HandleAck(s, w, j, ok);
            if j in s.jobs && s.jobs[j].worker == w && s.jobs[j].endedAt.None? then Acknowledged(s, t, w, j, ok) else t == s
  {
    if OpenFor(s, j, w) {
      AckFrame(s, w, j, ok);
      StatusIsSet(s.workers, w, Mining);
      AckMaps(s, w, j, ok);
      AckRows(s.jobs, s.miners, j, w, ok, s.now);
    }
  }

  lemma {:induction false} AckRows(jobs: Jobs, miners: map<Id, Miner>, j: Id, w: Id, ok: bool, now: nat)
    requires j in jobs && jobs[j].worker == w && jobs[j].endedAt.None?
    ensures var jobs', m := JobsWith(jobs, j, if ok then JobAck else JobError, now), jobs[j].miner;
            SameBut(jobs, jobs', j) && jobs'[j] == if ok then Job(m, w, JobAck, None) else Job(m, w, JobError, Some(now))
    ensures var m := jobs[j].miner;
            var miners' := MinersWith(miners, m, if ok then Running else Errored);
            SameBut(miners, miners', m) && (m in miners ==> miners'[m] == miners[m].(status := if ok then Running else Errored))
  {
  }

  lemma {:induction false} AckMaps(s: Sys, w: Id, j: Id, ok: bool)
    requires OpenFor(s, j, w)
    ensures var t, m := HandleAck(s, w, j, ok), s.jobs[j].miner;
            && (if ok then Reindexed(s.states, t.states, j, JobState(m, 0, 0, 0, 0)) else t.states == s.states)
            && SameBut(s.live, t.live, w)
            && (w in s.live ==> t.live[w] == if ok then s.live[w].(jobs := s.live[w].jobs[j := m]) else s.live[w])
            && t == s.(jobs := t.jobs, miners := t.miners, workers := t.workers, states := t.states, live := t.live)
  {
  }

  /** t is s after a report of j's counters: one sample of their growth, which the totals take in. */
  ghost predicate Measured(s: Sys, t: Sys, j: Id, acc: nat, rej: nat)
    requires j in s.jobs
  {
    var m := s.jobs[j].miner;
    && |t.samples| == |s.samples| + 1 && t.samples == s.samples + [t.samples[|s.samples|]]
    && var x := t.samples[|s.samples|];
    && x.miner == m && x.job == j
    && (if j in s.states then
          && x.acc == Shares.Delta(s.states[j].lastAcc, acc) && x.rej == Shares.Delta(s.states[j].lastRej, rej)
          && Reindexed(s.states, t.states, j, JobState(s.states[j].miner, acc, rej, s.states[j].totAcc + x.acc, s.states[j].totRej + x.rej))
        else
          x.acc == 0 && x.rej == 0 && Reindexed(s.states, t.states, j, JobState(m, acc, rej, 0, 0)))
    && t == s.(states := t.states, samples := t.samples)
  }

  lemma {:induction false} MetricsTakeEffect(s: Sys, w: Id, j: Id, acc: nat, rej: nat)
    ensures var t := HandleMetrics(s, w, j, acc, rej);
            if j in s.jobs && s.jobs[j].worker == w && s.jobs[j].endedAt.None? then
              Measured(s, t, j, acc, rej)
            else t == s
  {
  }

  /** A message about w's own open job is handled; any other is dropped. */
  ghost predicate Handled(s: Sys, t: Sys, w: Id, msg: ToServer) {
    if msg.job in s.jobs && s.jobs[msg.job].worker == w && s.jobs[msg.job].endedAt.None? then
      match msg
      case Ack(j, ok) => Acknowledged(s, t, w, j, ok)
      case Metrics(j, acc, rej) => Measured(s, t, j, acc, rej)
    else t == s
  }

  lemma {:induction false} MessageTakesEffect(s: Sys, w: Id, msg: ToServer)
    ensures Handled(s, ServerHandle(s, w, msg), w, msg)
  {
    match msg
    case Ack(j, ok) => AckTakesEffect(s, w, j, ok);
    case Metrics(j, acc, rej) => MetricsTakeEffect(s, w, j, acc, rej);
  }

  /** The server's read takes one message off the session's queue and handles it for that session's worker. */
  lemma {:induction false} ReadTakesEffect(s: Sys, c: Id) returns (u: Sys)
    requires Enabled(s, ServerRead(c))
    ensures u == s.(net := u.net) && SameBut(s.net, u.net, c) && u.net[c] == s.net[c].(up := s.net[c].up[1..])
    ensures Handled(u, Next(s, ServerRead(c)), s.net[c].worker, s.net[c].up[0])
  {
    u := Popped(s, c);
    MessageTakesEffect(u, s.net[c].worker, s.net[c].up[0]);
  }

  /** A worker says it has started a job exactly when it runs it, and stops what it is told to stop. */
  lemma {:induction false} WorkerReadTakesEffect(s: Sys, c: Id, started: bool)
    requires Enabled(s, WorkerRead(c, started))
    ensures var t, x := Next(s, WorkerRead(c, started)), s.net[c];
            && t == s.(net := t.net) && SameBut(s.net, t.net, c)
            && var y := t.net[c];
            && y == x.(down := x.down[1..], up := y.up, listening := y.listening, running := y.running)
            && y.up == x.up + (if x.down[0].Assign? && x.phase == Up then [Ack(x.down[0].job, started)] else [])
            && y.listening == (x.down[0] != RevokeMsg)
            && forall j :: j in y.running <==>
                 x.down[0] != RevokeMsg && x.down[0] != CancelJob(j) && (j in x.running || (started && x.down[0] == Assign(j)))
  {
    assert s.net[c].up + [] == s.net[c].up;
  }

  /** A new row under an id no row has had, and nothing else. */
  lemma {:induction false} CreateTakesEffect(s: Sys, owner: string, hasWallet: bool, simulated: bool)
    requires Inv(s)
    ensures var t := Next(s, CreateMiner(owner, hasWallet, simulated));
            NewRow(s.miners, t.miners, s.next, Miner(owner, Created, hasWallet, simulated)) && t == s.(next := s.next + 1, miners := t.miners)
  {
    NoSuchRow(s);
    RowAdded(s.miners, s.next, Miner(owner, Created, hasWallet, simulated));
  }

  lemma {:induction false} EnrollTakesEffect(s: Sys, owner: string, kind: Kind)
    requires Inv(s)
    ensures var t := Next(s, EnrollWorker(owner, kind));
            NewRow(s.workers, t.workers, s.next, Worker(owner, kind, Enrolled, None)) && t == s.(next := s.next + 1, workers := t.workers)
  {
    NoSuchRow(s);
    RowAdded(s.workers, s.next, Worker(owner, kind, Enrolled, None));
  }
}
