/**
 What the hub's commands bring about at the other end of its queues: a stop and an
 allocation update reach every worker that can be reached, and a worker that
 connects gets each queued miner of its owner placed that can be.
 */
module SwarmDelivery {

  import opened Base
  import opened Swarm
  import opened SwarmInvariant
  import opened SwarmSteps
  import opened SwarmRuns
  import opened SwarmTheorems
  import opened SwarmAgreement

  // ---------------------------------------------------------------------
  // A stop reaches every worker
  // ---------------------------------------------------------------------

  /** A cancellation is queued to the job's worker, and takes nothing back that was queued before. */
  lemma {:induction false} CancelOneTells(s: Sys, m: Id, j: Id, c: Id, msg: ToWorker)
    requires Open(s, j) && CanSend(s, c)
    requires msg in s.net[c].down || (msg == CancelJob(j) && s.jobs[j].worker in s.conns && s.conns[s.jobs[j].worker] == c)
    ensures CanSend(CancelOne(s, m, j), c) && msg in CancelOne(s, m, j).net[c].down
  {
    CancelledNet(s, m, j);
    TellsOne(s, s.jobs[j].worker, j, c, msg);
  }

  lemma {:induction false} TellsOne(s: Sys, w: Id, j: Id, c: Id, msg: ToWorker)
    requires CanSend(s, c)
    requires msg in s.net[c].down || (msg == CancelJob(j) && w in s.conns && s.conns[w] == c)
    ensures CanSend(SendTo(s, w, CancelJob(j)), c) && msg in SendTo(s, w, CancelJob(j)).net[c].down
  {
    if w in s.conns && s.conns[w] == c {
      assert SendTo(s, w, CancelJob(j)).net[c].down == s.net[c].down + [CancelJob(j)];
    }
  }

  lemma {:induction false} CancelAllTells(s: Sys, m: Id, order: seq<Id>, c: Id, msg: ToWorker)
    requires Cancellable(s, order) && CanSend(s, c)
    requires msg in s.net[c].down
             || exists j :: j in order && msg == CancelJob(j) && s.jobs[j].worker in s.conns && s.conns[s.jobs[j].worker] == c
    ensures CanSend(CancelAll(s, m, order), c) && msg in CancelAll(s, m, order).net[c].down
    decreases |order|
  {
    if order != [] {
      var j0, t := order[0], CancelOne(s, m, order[0]);
      CancelStep(s, m, order);
      if msg in s.net[c].down || (msg == CancelJob(j0) && s.jobs[j0].worker in s.conns && s.conns[s.jobs[j0].worker] == c) {
        CancelOneTells(s, m, j0, c, msg);
      } else {
        var j :| j in order && msg == CancelJob(j) && s.jobs[j].worker in s.conns && s.conns[s.jobs[j].worker] == c;
        assert j in order[1..];
        TellsOn(s, m, j0, c);
        assert t.jobs[j].worker == s.jobs[j].worker;
      }
      CancelAllTells(t, m, order[1..], c, msg);
    }
  }

  lemma {:induction false} TellsOn(s: Sys, m: Id, j: Id, c: Id)
    requires Open(s, j) && CanSend(s, c)
    ensures CanSend(CancelOne(s, m, j), c)
  {
    CancelledNet(s, m, j);
  }

  /** After a stop every open job of the miner has ended, and a cancel of it is queued to each worker that can be reached. */
  lemma {:induction false} StopReachesWorkers(s: Sys, owner: string, m: Id, order: seq<Id>, j: Id)
    requires Enabled(s, StopMiner(owner, m, order)) && Owns(s, owner, m) && j in OpenJobsOf(s, m)
    ensures var t, w := Next(s, StopMiner(owner, m, order)), s.jobs[j].worker;
            && !Open(t, j)
            && (w in s.conns && CanSend(s, s.conns[w]) ==> CanSend(t, s.conns[w]) && CancelJob(j) in t.net[s.conns[w]].down)
  {
    AllCancellable(s, m, order);
    CancelAllJobs(s, m, order);
    var w := s.jobs[j].worker;
    if w in s.conns && CanSend(s, s.conns[w]) {
      CancelAllTells(s, m, order, s.conns[w], CancelJob(j));
    }
  }

  /** A send leaves every other connection as reachable as it was, and takes nothing back. */
  lemma {:induction false} SendTells(s: Sys, d: Id, sent: ToWorker, c: Id, msg: ToWorker)
    requires CanSend(s, c) && (msg in s.net[c].down || (d == c && msg == sent))
    ensures CanSend(Send(s, d, sent), c) && msg in Send(s, d, sent).net[c].down
  {
    if d == c {
      assert Send(s, d, sent).net[c].down == s.net[c].down + [sent];
    }
  }

  lemma {:induction false} AllocateAllTells(s: Sys, order: seq<Id>, c: Id, msg: ToWorker)
    requires CanSend(s, c)
    requires msg in s.net[c].down
             || exists j :: j in order && j in s.jobs && msg == Allocation(j) && s.jobs[j].worker in s.conns && s.conns[s.jobs[j].worker] == c
    ensures CanSend(AllocateAll(s, order), c) && msg in AllocateAll(s, order).net[c].down
    decreases |order|
  {
    if order != [] {
      var j0 := order[0];
      if msg !in s.net[c].down {
        var j :| j in order && j in s.jobs && msg == Allocation(j) && s.jobs[j].worker in s.conns && s.conns[s.jobs[j].worker] == c;
        assert j == j0 || j in order[1..];
      }
      if j0 in s.jobs && s.jobs[j0].worker in s.conns {
        var d := s.conns[s.jobs[j0].worker];
        if msg in s.net[c].down || (d == c && msg == Allocation(j0)) {
          SendTells(s, d, Allocation(j0), c, msg);
        } else {
          StillReachable(s, d, Allocation(j0), c);
        }
        AllocateAllTells(Send(s, d, Allocation(j0)), order[1..], c, msg);
      } else {
        AllocateAllTells(s, order[1..], c, msg);
      }
    }
  }

  lemma {:induction false} StillReachable(s: Sys, d: Id, sent: ToWorker, c: Id)
    requires CanSend(s, c)
    ensures CanSend(Send(s, d, sent), c)
  {
  }

  /** An allocation update reaches every reachable holder of an open job of the miner, and changes nothing but queues. */
  lemma {:induction false} AllocationReachesWorkers(s: Sys, owner: string, m: Id, order: seq<Id>, j: Id)
    requires Enabled(s, UpdateAllocation(owner, m, order)) && Owns(s, owner, m) && j in OpenJobsOf(s, m)
    ensures var t, w := Next(s, UpdateAllocation(owner, m, order)), s.jobs[j].worker;
            && t == s.(net := t.net)
            && (w in s.conns && CanSend(s, s.conns[w]) ==> CanSend(t, s.conns[w]) && Allocation(j) in t.net[s.conns[w]].down)
  {
    AllocateFrame(s, order);
    var w := s.jobs[j].worker;
    if w in s.conns && CanSend(s, s.conns[w]) {
      AllocateAllTells(s, order, s.conns[w], Allocation(j));
    }
  }

  // ---------------------------------------------------------------------
  // What a connection does for the queued miners
  // ---------------------------------------------------------------------

  /** An assignment to the chosen target goes out: there is one, its row still exists, and it can be reached. */
  predicate Reaches(s: Sys, x: Choice) {
    x.target.Some? && x.target.value in s.workers && x.target.value in s.conns && CanSend(s, s.conns[x.target.value])
  }

  /** An open job of m that was not there before. */
  ghost predicate NewJobOf(jobs: Jobs, jobs': Jobs, m: Id) {
    exists j :: j !in jobs && IsOpen(jobs', j) && jobs'[j].miner == m
  }

  /** Placing miners changes nobody's reachability and takes no job away. */
  ghost predicate Placing(s: Sys, t: Sys) {
    && t.conns == s.conns && t.live == s.live && t.miners == s.miners && t.workers.Keys == s.workers.Keys
    && (forall c :: CanSend(t, c) <==> CanSend(s, c))
    && (forall j | j in s.jobs :: j in t.jobs && t.jobs[j] == s.jobs[j])
  }

  lemma {:induction false} PlacingTrans(s: Sys, t: Sys, u: Sys)
    requires Placing(s, t) && Placing(t, u)
    ensures Placing(s, u)
  {
  }

  lemma {:induction false} PlacedMaps(s: Sys, m: Id, w: Id)
    requires w in s.conns
    ensures var t := AssignTo(s, m, w);
            t.conns == s.conns && t.live == s.live && t.miners == s.miners && t.workers.Keys == s.workers.Keys
  {
    var t := CreateJob(s, m, w, s.conns[w]);
    var u := Send(t, s.conns[w], Assign(s.next));
    assert SetWorkerStatus(u, w, Assigned).workers.Keys == u.workers.Keys;
  }

  /** One placement: a new job of the miner, open exactly when its assignment went out. */
  lemma {:induction false} OnePlacing(s: Sys, m: Id, w: Id)
    requires w in s.conns && s.next !in s.jobs
    ensures var t := AssignTo(s, m, w);
            && Placing(s, t) && t.jobs.Keys == s.jobs.Keys + {s.next}
            && t.jobs[s.next].miner == m && (t.jobs[s.next].endedAt.None? <==> CanSend(s, s.conns[w]))
  {
    PlacedMaps(s, m, w);
    if CanSend(s, s.conns[w]) { PlacedOut(s, m, w); } else { PlacedLost(s, m, w); }
  }

  /** A target of the scan belongs to the miner's owner while its row exists. */
  lemma {:induction false} TargetStillThere(s: Sys, x: Choice)
    requires Inv(s) && IsTarget(s, x.miner, x.target) && x.target.Some?
    ensures x.target.value in s.conns && (WorkerStillThere(s, x.miner, x.target.value) <==> x.target.value in s.workers)
    ensures s.next !in s.jobs
  {
    RowsKnown(s);
  }

  /** What one choice does. */
  ghost predicate ChoicePlaced(s: Sys, t: Sys, x: Choice) {
    && Placing(s, t)
    && (forall j | j in t.jobs && j !in s.jobs :: t.jobs[j].miner == x.miner && (IsOpen(t.jobs, j) ==> Reaches(s, x)))
    && (Reaches(s, x) ==> NewJobOf(s.jobs, t.jobs, x.miner))
  }

  lemma {:induction false} TargetPlaced(s: Sys, x: Choice)
    requires x.target.Some? && x.target.value in s.conns && x.target.value in s.workers && s.next !in s.jobs
    ensures ChoicePlaced(s, AssignTo(s, x.miner, x.target.value), x)
  {
    var t := AssignTo(s, x.miner, x.target.value);
    OnePlacing(s, x.miner, x.target.value);
    assert Reaches(s, x) ==> IsOpen(t.jobs, s.next);
  }

  lemma {:induction false} FirstPlaced(s: Sys, x: Choice)
    requires Inv(s) && IsTarget(s, x.miner, x.target)
    ensures ChoicePlaced(s, AssignMiner(s, x.miner, x.target), x)
  {
    if x.target.Some? {
      TargetStillThere(s, x);
      if x.target.value in s.workers {
        TargetPlaced(s, x);
      }
    }
  }

  /** New jobs are of the miners placed. */
  ghost predicate NewAreOf(jobs: Jobs, jobs': Jobs, choices: seq<Choice>) {
    forall j | j in jobs' && j !in jobs :: exists i :: 0 <= i < |choices| && choices[i].miner == jobs'[j].miner
  }

  lemma {:induction false} NewAreOfRest(jobs: Jobs, jobs': Jobs, jobs'': Jobs, choices: seq<Choice>)
    requires choices != [] && NewAreOf(jobs', jobs'', choices[1..])
    requires forall j | j in jobs' :: j in jobs'' && jobs''[j] == jobs'[j]
    requires forall j | j in jobs' && j !in jobs :: jobs'[j].miner == choices[0].miner
    ensures NewAreOf(jobs, jobs'', choices)
  {
    forall j | j in jobs'' && j !in jobs ensures exists i :: 0 <= i < |choices| && choices[i].miner == jobs''[j].miner {
      if j in jobs' {
        assert choices[0].miner == jobs''[j].miner;
      } else {
        var i :| 0 <= i < |choices[1..]| && choices[1..][i].miner == jobs''[j].miner;
        assert choices[i + 1].miner == jobs''[j].miner;
      }
    }
  }

  lemma {:induction false} AllPlacing(s: Sys, choices: seq<Choice>)
    requires Inv(s) && AssignableAll(s, choices)
    requires forall i | 0 <= i < |choices| :: choices[i].miner in s.miners && Active(s.miners[choices[i].miner].status)
    ensures Placing(s, AssignAll(s, choices)) && NewAreOf(s.jobs, AssignAll(s, choices).jobs, choices)
    decreases |choices|
  {
    if choices != [] {
      var x := choices[0];
      var t := AssignMiner(s, x.miner, x.target);
      FirstPlaced(s, x);
      AssignMinerKeeps(s, x.miner, x.target);
      AllPlacing(t, choices[1..]);
      PlacingTrans(s, t, AssignAll(t, choices[1..]));
      NewAreOfRest(s.jobs, t.jobs, AssignAll(t, choices[1..]).jobs, choices);
    }
  }

  predicate DistinctMiners(choices: seq<Choice>) {
    forall i, k | 0 <= i < k < |choices| :: choices[i].miner != choices[k].miner
  }

  /** Only the first choice's own placement can give its miner a job. */
  lemma {:induction false} FirstIff(jobs: Jobs, jobs': Jobs, jobs'': Jobs, choices: seq<Choice>, reached: bool)
    requires choices != [] && DistinctMiners(choices) && NewAreOf(jobs', jobs'', choices[1..])
    requires forall j | j in jobs' :: j in jobs'' && jobs''[j] == jobs'[j]
    requires forall j | j in jobs' && j !in jobs :: IsOpen(jobs', j) ==> reached
    requires reached ==> NewJobOf(jobs, jobs', choices[0].miner)
    ensures NewJobOf(jobs, jobs'', choices[0].miner) <==> reached
  {
    var m := choices[0].miner;
    if reached {
      var j :| j !in jobs && IsOpen(jobs', j) && jobs'[j].miner == m;
      assert IsOpen(jobs'', j) && jobs''[j].miner == m;
    }
    if NewJobOf(jobs, jobs'', m) {
      var j :| j !in jobs && IsOpen(jobs'', j) && jobs''[j].miner == m;
      if j !in jobs' {
        var i :| 0 <= i < |choices[1..]| && choices[1..][i].miner == m;
        assert choices[i + 1].miner == m;
      }
    }
  }

  /** ... and it gives no other miner one. */
  lemma {:induction false} LaterIff(jobs: Jobs, jobs': Jobs, jobs'': Jobs, m: Id, other: Id)
    requires m != other && forall j | j in jobs :: j in jobs'
    requires forall j | j in jobs' :: j in jobs'' && jobs''[j] == jobs'[j]
    requires forall j | j in jobs' && j !in jobs :: jobs'[j].miner == m
    ensures NewJobOf(jobs, jobs'', other) <==> NewJobOf(jobs', jobs'', other)
  {
    if NewJobOf(jobs, jobs'', other) {
      var j :| j !in jobs && IsOpen(jobs'', j) && jobs''[j].miner == other;
      assert j !in jobs';
    }
    if NewJobOf(jobs', jobs'', other) {
      var j :| j !in jobs' && IsOpen(jobs'', j) && jobs''[j].miner == other;
      assert j !in jobs;
    }
  }

  lemma {:induction false} HeadPlaced(s: Sys, t: Sys, u: Sys, choices: seq<Choice>)
    requires choices != [] && DistinctMiners(choices) && ChoicePlaced(s, t, choices[0])
    requires Placing(t, u) && NewAreOf(t.jobs, u.jobs, choices[1..])
    ensures NewJobOf(s.jobs, u.jobs, choices[0].miner) <==> Reaches(s, choices[0])
  {
    FirstIff(s.jobs, t.jobs, u.jobs, choices, Reaches(s, choices[0]));
  }

  lemma {:induction false} TailPlaced(s: Sys, t: Sys, u: Sys, x: Choice, y: Choice)
    requires ChoicePlaced(s, t, x) && Placing(t, u) && x.miner != y.miner
    requires NewJobOf(t.jobs, u.jobs, y.miner) <==> Reaches(t, y)
    ensures NewJobOf(s.jobs, u.jobs, y.miner) <==> Reaches(s, y)
  {
    LaterIff(s.jobs, t.jobs, u.jobs, x.miner, y.miner);
    assert y.target.Some? ==> (y.target.value in s.workers.Keys <==> y.target.value in t.workers.Keys);
  }

  lemma {:induction false} EachPlaced(s: Sys, choices: seq<Choice>, i: nat)
    requires Inv(s) && AssignableAll(s, choices) && i < |choices| && DistinctMiners(choices)
    requires forall k | 0 <= k < |choices| :: choices[k].miner in s.miners && Active(s.miners[choices[k].miner].status)
    ensures NewJobOf(s.jobs, AssignAll(s, choices).jobs, choices[i].miner) <==> Reaches(s, choices[i])
    decreases |choices|
  {
    var x := choices[0];
    var t := AssignMiner(s, x.miner, x.target);
    FirstPlaced(s, x);
    AssignMinerKeeps(s, x.miner, x.target);
    AllPlacing(t, choices[1..]);
    if i == 0 {
      HeadPlaced(s, t, AssignAll(t, choices[1..]), choices);
    } else {
      EachPlaced(t, choices[1..], i - 1);
      TailPlaced(s, t, AssignAll(t, choices[1..]), x, choices[i]);
    }
  }

  lemma {:induction false} ChoicesDistinct(s: Sys, w: Id, choices: seq<Choice>)
    requires w in s.workers && Enumerates(MinersOf(choices), QueuedMiners(s, s.workers[w].owner))
    ensures DistinctMiners(choices)
  {
    forall i, k | 0 <= i < k < |choices| ensures choices[i].miner != choices[k].miner {
      assert MinersOf(choices)[i] != MinersOf(choices)[k];
    }
  }

  /** A native worker that has just joined is itself an eligible target for its owner's queued miners. */
  lemma {:induction false} JoinedIsEligible(s: Sys, w: Id, m: Id)
    requires Inv(s) && w in s.workers && s.workers[w].kind == Native
    requires m in s.miners && s.miners[m].owner == s.workers[w].owner
    ensures Eligible(Joined(s, w), m, w)
  {
    NextSession(s);
    JoinedForms(s, w);
  }

  lemma {:induction false} EligibleStays(s: Sys, x: Choice, m: Id, w: Id)
    requires IsTarget(s, x.miner, x.target) && Eligible(s, m, w)
    ensures Eligible(AssignMiner(s, x.miner, x.target), m, w)
  {
    if x.target.Some? && WorkerStillThere(s, x.miner, x.target.value) {
      PlacedMaps(s, x.miner, x.target.value);
    }
  }

  lemma {:induction false} ScanFinds(s: Sys, choices: seq<Choice>, i: nat, w: Id)
    requires AssignableAll(s, choices) && i < |choices| && Eligible(s, choices[i].miner, w)
    ensures choices[i].target.Some?
    decreases |choices|
  {
    if i > 0 {
      assert choices[1..][i - 1] == choices[i];
      EligibleStays(s, choices[0], choices[i].miner, w);
      ScanFinds(AssignMiner(s, choices[0].miner, choices[0].target), choices[1..], i - 1, w);
    }
  }

  lemma {:induction false} ChoicePlaces(s: Sys, w: Id, choices: seq<Choice>, i: nat)
    requires Inv(s) && Enabled(s, Connect(w, choices)) && i < |choices|
    ensures NewJobOf(s.jobs, Next(s, Connect(w, choices)).jobs, choices[i].miner) <==> Reaches(Joined(s, w), choices[i])
    ensures s.workers[w].kind == Native ==> choices[i].target.Some?
  {
    var t := Joined(s, w);
    JoinedKeeps(s, w);
    NextSession(s);
    JoinedForms(s, w);
    QueuedChoices(s, w, choices);
    ChoicesDistinct(s, w, choices);
    EachPlaced(t, choices, i);
    if s.workers[w].kind == Native {
      assert MinersOf(choices)[i] in QueuedMiners(s, s.workers[w].owner);
      JoinedIsEligible(s, w, choices[i].miner);
      ScanFinds(t, choices, i, w);
    }
  }

  /** The queued miners of the owner. */
  predicate Waits(s: Sys, owner: string, m: Id) { m in s.miners && s.miners[m].owner == owner && s.miners[m].status == Queued }

  lemma {:induction false} WaitingIsChosen(s: Sys, owner: string, choices: seq<Choice>, m: Id)
    requires Enumerates(MinersOf(choices), QueuedMiners(s, owner))
    ensures Waits(s, owner, m) <==> exists i :: 0 <= i < |choices| && choices[i].miner == m
  {
    assert m in QueuedMiners(s, owner) <==> Waits(s, owner, m);
    if Waits(s, owner, m) {
      var i :| 0 <= i < |MinersOf(choices)| && MinersOf(choices)[i] == m;
      assert choices[i].miner == m;
    }
    if i :| 0 <= i < |choices| && choices[i].miner == m {
      assert MinersOf(choices)[i] in QueuedMiners(s, owner);
    }
  }

  /** No miner that was not waiting gets a new job. */
  lemma {:induction false} OnlyWaitingPlaced(s: Sys, w: Id, choices: seq<Choice>, m: Id)
    requires Inv(s) && Enabled(s, Connect(w, choices)) && NewJobOf(s.jobs, Next(s, Connect(w, choices)).jobs, m)
    ensures Waits(s, s.workers[w].owner, m)
  {
    JoinedKeeps(s, w);
    NextSession(s);
    JoinedForms(s, w);
    QueuedChoices(s, w, choices);
    AllPlacing(Joined(s, w), choices);
    WaitingIsChosen(s, s.workers[w].owner, choices, m);
  }

  /**
   What a connection does for a miner: a queued one of the worker's owner, with x as
   what the scan came up with for it, gets a new open job exactly when the scan's
   target still has its row and can be reached, and the scan has a target whenever
   the new worker is a native one; any other miner gets none.
   */
  lemma {:induction false} ConnectPlacesQueued(s: Sys, w: Id, choices: seq<Choice>, m: Id) returns (x: Choice)
    requires Inv(s) && Enabled(s, Connect(w, choices))
    ensures var t := Next(s, Connect(w, choices));
            if m in s.miners && s.miners[m].owner == s.workers[w].owner && s.miners[m].status == Queued then
              && x in choices && x.miner == m
              && (NewJobOf(s.jobs, t.jobs, m) <==> Reaches(Joined(s, w), x))
              && (s.workers[w].kind == Native ==> x.target.Some?)
            else !NewJobOf(s.jobs, t.jobs, m)
  {
    x := Choice(m, None);
    WaitingIsChosen(s, s.workers[w].owner, choices, m);
    if Waits(s, s.workers[w].owner, m) {
      var i :| 0 <= i < |choices| && choices[i].miner == m;
      x := choices[i];
      ChoicePlaces(s, w, choices, i);
    } else if NewJobOf(s.jobs, Next(s, Connect(w, choices)).jobs, m) {
      OnlyWaitingPlaced(s, w, choices, m);
      assert false;
    }
  }
}
