/**
 The server and the worker as objects: the store's tables, the hub's maps and the
 connections are fields that the methods update in place, loop by loop as the
 source does. Each method is tied to the transition system of module Swarm, so the
 theorems about its runs are theorems about these methods.
 */
module SwarmServer {

  import opened Base
  import opened Swarm
  import opened SwarmSteps
  import opened SwarmAgreement
  import SwarmEffects
  import Shares

  // ---------------------------------------------------------------------
  // Loops, one iteration further
  // ---------------------------------------------------------------------

  lemma {:induction false} MinersOfSnoc(choices: seq<Choice>, x: Choice)
    ensures MinersOf(choices + [x]) == MinersOf(choices) + [x.miner]
  {
  }

  lemma {:induction false} AssignAllSnoc(s: Sys, choices: seq<Choice>, x: Choice)
    requires AssignableAll(s, choices) && IsTarget(AssignAll(s, choices), x.miner, x.target)
    ensures AssignableAll(s, choices + [x])
    ensures AssignAll(s, choices + [x]) == AssignMiner(AssignAll(s, choices), x.miner, x.target)
    decreases |choices|
  {
    if choices == [] {
      assert choices + [x] == [x] && [x][1..] == [];
      var t := AssignMiner(s, x.miner, x.target);
      assert AssignableAll(t, []) && AssignAll(t, []) == t;
      assert AssignableAll(s, [x]) && AssignAll(s, [x]) == AssignAll(t, [x][1..]);
    } else {
      assert (choices + [x])[0] == choices[0] && (choices + [x])[1..] == choices[1..] + [x];
      AssignAllSnoc(AssignMiner(s, choices[0].miner, choices[0].target), choices[1..], x);
    }
  }

  lemma {:induction false} MinersOfTake(queued: seq<Id>, i: nat, choices: seq<Choice>, x: Choice)
    requires i < |queued| && MinersOf(choices) == queued[..i] && x.miner == queued[i]
    ensures MinersOf(choices + [x]) == queued[..i + 1]
  {
    MinersOfSnoc(choices, x);
  }

  lemma {:induction false} CancelAllStep(s: Sys, m: Id, order: seq<Id>, i: nat)
    requires i < |order| && forall k | i <= k < |order| :: order[k] in s.jobs
    ensures forall k | i < k < |order| :: order[k] in CancelOne(s, m, order[i]).jobs
    ensures CancelAll(s, m, order[i..]) == CancelAll(CancelOne(s, m, order[i]), m, order[i + 1..])
  {
    assert order[i..][0] == order[i] && order[i..][1..] == order[i + 1..];
    CancelKeepsRows(s, m, order[i]);
  }

  /** Assign's result: a target was found, its row is still the owner's, and the message went out. */
  predicate AssignmentSent(s: Sys, m: Id, target: Option<Id>) {
    && target.Some? && WorkerStillThere(s, m, target.value)
    && target.value in s.conns && CanSend(s, s.conns[target.value])
  }

  /** A SELECT: the rows in some order, each once. */
  method Select(rows: set<Id>) returns (list: seq<Id>)
    ensures Enumerates(list, rows)
  {
    list := [];
    var todo := rows;
    while todo != {}
      invariant todo <= rows
      invariant Enumerates(list, rows - todo)
      decreases todo
    {
      var x :| x in todo;
      list, todo := list + [x], todo - {x};
    }
    assert rows - {} == rows;
  }

  // ---------------------------------------------------------------------
  // The server
  // ---------------------------------------------------------------------

  class Server {
    var now: nat
    var next: Id
    var miners: map<Id, Miner>
    var workers: map<Id, Worker>
    var jobs: map<Id, Job>
    var runs: map<Id, Run>
    var samples: seq<Sample>
    var conns: map<Id, Id>
    var live: map<Id, Live>
    var states: map<Id, JobState>
    var net: map<Id, Session>
    ghost var homes: map<Id, Id>

    ghost function View(): Sys
      reads this
    {
      Sys(now, next, miners, workers, jobs, runs, samples, conns, live, states, net, homes)
    }

    constructor ()
      ensures View() == INIT
    {
      now, next := 0, 0;
      miners, workers, jobs, runs, samples := map[], map[], map[], map[], [];
      conns, live, states, net, homes := map[], map[], map[], map[], map[];
    }

    // SQL statements

    method SetMinerStatus(m: Id, st: MinerStatus)
      modifies this`miners
      ensures View() == Swarm.SetMinerStatus(old(View()), m, st)
    {
      if m in miners { miners := miners[m := miners[m].(status := st)]; }
    }

    method SetWorkerStatus(w: Id, st: WorkerStatus)
      modifies this`workers
      ensures View() == Swarm.SetWorkerStatus(old(View()), w, st)
    {
      if w in workers && workers[w].status != Revoked { workers := workers[w := workers[w].(status := st)]; }
    }

    method SetSwarmJobStatus(j: Id, st: JobStatus)
      modifies this`jobs
      ensures View() == SetJobStatus(old(View()), j, st)
    {
      var end := st == JobEnded || st == JobError;
      if j in jobs {
        if end {
          if jobs[j].endedAt.None? { jobs := jobs[j := jobs[j].(status := st, endedAt := Some(now))]; }
        } else {
          jobs := jobs[j := jobs[j].(status := st)];
        }
      }
    }

    method OpenRun(m: Id)
      modifies this`next, this`runs
      ensures View() == Swarm.OpenRun(old(View()), m)
    {
      runs := runs[next := Run(m, None, 0, 0)];
      next := next + 1;
    }

    /** An UPDATE visits the rows one by one. */
    method CloseRun(m: Id, acc: nat, rej: nat)
      modifies this`runs
      ensures View() == Swarm.CloseRun(old(View()), m, acc, rej)
    {
      var todo := runs.Keys;
      while todo != {}
        invariant todo <= runs.Keys && runs.Keys == old(runs).Keys
        invariant forall r | r in todo :: runs[r] == old(runs)[r]
        invariant forall r | r in runs && r !in todo ::
          runs[r] == if old(runs)[r].miner == m && old(runs)[r].stoppedAt.None? then Run(m, Some(now), acc, rej) else old(runs)[r]
        decreases todo
      {
        var r :| r in todo;
        if runs[r].miner == m && runs[r].stoppedAt.None? {
          runs := runs[r := Run(m, Some(now), acc, rej)];
        }
        todo := todo - {r};
      }
      assert runs == Swarm.CloseRun(old(View()), m, acc, rej).runs;
    }

    method CreateSwarmJob(m: Id, w: Id, ghost home: Id) returns (j: Id)
      modifies this`next, this`jobs, this`homes
      ensures j == old(next) && View() == CreateJob(old(View()), m, w, home)
    {
      j := next;
      jobs := jobs[j := Job(m, w, JobAssigned, None)];
      homes := homes[j := home];
      next := next + 1;
    }

    method ActiveJobsForMiner(m: Id) returns (list: seq<Id>)
      ensures Enumerates(list, OpenJobsOf(View(), m))
    {
      var rows := set j | j in jobs && jobs[j].miner == m && jobs[j].endedAt.None?;
      assert rows == OpenJobsOf(View(), m);
      list := Select(rows);
    }

    method QueuedMinersForOwner(owner: string) returns (list: seq<Id>)
      ensures Enumerates(list, QueuedMiners(View(), owner))
    {
      var rows := set m | m in miners && miners[m].owner == owner && miners[m].status == Queued;
      assert rows == QueuedMiners(View(), owner);
      list := Select(rows);
    }

    // Connections

    method Write(c: Id, msg: ToWorker) returns (ok: bool)
      modifies this`net
      ensures ok == CanSend(old(View()), c) && View() == Send(old(View()), c, msg)
    {
      ok := c in net && net[c].phase == Up;
      if ok { net := net[c := net[c].(down := net[c].down + [msg])]; }
    }

    // The hub

    method Register(w: Id, owner: string, kind: Kind, c: Id)
      modifies this`net, this`conns, this`live
      ensures View() == RegisterSection(old(View()), w, owner, kind, c)
    {
      if w in conns && conns[w] in net {
        net := net[conns[w] := net[conns[w]].(phase := Down)];
      }
      conns := conns[w := c];
      live := live[w := Live(owner, kind, map[])];
    }

    method Unregister(w: Id)
      modifies this`conns, this`live, this`workers
      ensures View() == Swarm.SetWorkerStatus(UnregisterSection(old(View()), w), w, Offline)
    {
      conns := conns - {w};
      live := live - {w};
      SetWorkerStatus(w, Offline);
    }

    method HandleAck(w: Id, j: Id, ok: bool)
      modifies this`jobs, this`miners, this`workers, this`live, this`states
      ensures View() == Swarm.HandleAck(old(View()), w, j, ok)
    {
      if j !in jobs || jobs[j].worker != w || jobs[j].endedAt.Some? {
        return;
      }
      var m := jobs[j].miner;
      if ok {
        SetSwarmJobStatus(j, JobAck);
        SetMinerStatus(m, Running);
        SetWorkerStatus(w, Mining);
        IndexJob(w, j, m);
        return;
      }
      SetSwarmJobStatus(j, JobError);
      SetMinerStatus(m, Errored);
    }

    method IndexJob(w: Id, j: Id, m: Id)
      modifies this`live, this`states
      ensures View() == AckSection(old(View()), w, j, m)
    {
      if w in live {
        live := live[w := live[w].(jobs := live[w].jobs[j := m])];
      }
      states := states[j := JobState(m, 0, 0, 0, 0)];
    }

    method HandleMetrics(w: Id, j: Id, acc: nat, rej: nat)
      modifies this`states, this`samples
      ensures View() == Swarm.HandleMetrics(old(View()), w, j, acc, rej)
    {
      if j !in jobs || jobs[j].worker != w || jobs[j].endedAt.Some? {
        return;
      }
      var m := jobs[j].miner;
      if j !in states {
        states := states[j := JobState(m, acc, rej, 0, 0)];
      }
      var js := states[j];
      var dAcc: int, dRej: int := acc - js.lastAcc, rej - js.lastRej;
      if dAcc < 0 { dAcc := acc; }
      if dRej < 0 { dRej := rej; }
      states := states[j := js.(lastAcc := acc, lastRej := rej, totAcc := js.totAcc + dAcc, totRej := js.totRej + dRej)];
      samples := samples + [Sample(m, j, dAcc, dRej)];
    }

    /** The scan over the live workers, in any order, with its running minimum. */
    method PickTarget(m: Id) returns (target: Option<Id>)
      ensures IsTarget(View(), m, target)
    {
      target := None;
      var todo := live.Keys;
      while todo != {}
        invariant todo <= live.Keys
        invariant target.None? ==> forall w | w in live && w !in todo :: !Eligible(View(), m, w)
        invariant target.Some? ==> Eligible(View(), m, target.value)
        invariant target.Some? ==> forall w | w in live && w !in todo && Eligible(View(), m, w) :: |live[target.value].jobs| <= |live[w].jobs|
        decreases todo
      {
        var w :| w in todo;
        todo := todo - {w};
        if m !in miners || live[w].owner != miners[m].owner {
          continue;
        }
        if w !in conns {
          continue;
        }
        if live[w].kind == Browser {
          continue;
        }
        if target.None? || |live[w].jobs| < |live[target.value].jobs| {
          target := Some(w);
        }
      }
    }

    method Assign(m: Id) returns (ok: bool, ghost target: Option<Id>)
      modifies this`next, this`jobs, this`homes, this`net, this`workers
      ensures IsTarget(old(View()), m, target) && View() == AssignMiner(old(View()), m, target)
      ensures ok <==> AssignmentSent(old(View()), m, target)
    {
      var t := PickTarget(m);
      target, ok := t, false;
      if t.None? {
        return;
      }
      var w := t.value;
      if w !in workers || m !in miners || workers[w].owner != miners[m].owner {
        return;
      }
      var c := conns[w];
      var j := CreateSwarmJob(m, w, c);
      var sent := Write(c, ToWorker.Assign(j));
      if !sent {
        SetSwarmJobStatus(j, JobError);
        return;
      }
      SetWorkerStatus(w, Assigned);
      ok := true;
    }

    method AssignQueued(owner: string) returns (ghost choices: seq<Choice>)
      modifies this`next, this`jobs, this`homes, this`net, this`workers
      ensures AssignableAll(old(View()), choices) && View() == AssignAll(old(View()), choices)
      ensures Enumerates(MinersOf(choices), QueuedMiners(old(View()), owner))
    {
      var queued := QueuedMinersForOwner(owner);
      choices := [];
      var i := 0;
      while i < |queued|
        invariant i <= |queued| && MinersOf(choices) == queued[..i]
        invariant AssignableAll(old(View()), choices) && View() == AssignAll(old(View()), choices)
      {
        var _, target := Assign(queued[i]);
        AssignAllSnoc(old(View()), choices, Choice(queued[i], target));
        MinersOfTake(queued, i, choices, Choice(queued[i], target));
        choices := choices + [Choice(queued[i], target)];
        i := i + 1;
      }
      assert queued[..i] == queued;
    }

    /** One iteration of CancelMiner. */
    method CancelJobOf(m: Id, j: Id)
      requires j in jobs
      modifies this`states, this`live, this`net, this`jobs, this`runs
      ensures View() == CancelOne(old(View()), m, j)
    {
      var w := jobs[j].worker;
      var js := if j in states then Some(states[j]) else None;
      states := states - {j};
      if w in live {
        live := live[w := live[w].(jobs := live[w].jobs - {j})];
      }
      if w in conns {
        var _ := Write(conns[w], ToWorker.CancelJob(j));
      }
      SetSwarmJobStatus(j, JobEnded);
      var acc, rej := 0, 0;
      if js.Some? {
        acc, rej := js.value.totAcc, js.value.totRej;
      }
      CloseRun(m, acc, rej);
    }

    method CancelMiner(m: Id) returns (ghost order: seq<Id>)
      modifies this`states, this`live, this`net, this`jobs, this`runs
      ensures Enumerates(order, OpenJobsOf(old(View()), m))
      ensures View() == CancelAll(old(View()), m, order)
    {
      ghost var s := View();
      var active := ActiveJobsForMiner(m);
      order := active;
      assert forall k | 0 <= k < |active| :: active[k] in OpenJobsOf(s, m);
      var i := 0;
      assert active[0..] == active;
      while i < |active|
        invariant i <= |active|
        invariant View() == s
        invariant forall k | i <= k < |active| :: active[k] in s.jobs
        invariant CancelAll(s, m, active[i..]) == CancelAll(old(View()), m, active)
      {
        CancelAllStep(s, m, active, i);
        CancelJobOf(m, active[i]);
        s := CancelOne(s, m, active[i]);
        i := i + 1;
      }
      assert active[i..] == [];
    }

    method AllocationUpdate(m: Id) returns (ghost order: seq<Id>)
      modifies this`net
      ensures Enumerates(order, OpenJobsOf(old(View()), m))
      ensures View() == AllocateAll(old(View()), order)
    {
      var active := ActiveJobsForMiner(m);
      order := active;
      var i := 0;
      assert active[0..] == active;
      while i < |active|
        invariant i <= |active|
        invariant forall k | 0 <= k < |active| :: active[k] in jobs
        invariant AllocateAll(View(), active[i..]) == AllocateAll(old(View()), active)
      {
        assert active[i..][0] == active[i] && active[i..][1..] == active[i + 1..];
        var w := jobs[active[i]].worker;
        if w in conns {
          var _ := Write(conns[w], Allocation(active[i]));
        }
        i := i + 1;
      }
      assert active[i..] == [];
    }

    method HubRevokeWorker(w: Id)
      modifies this`net
      ensures View() == HubRevoke(old(View()), w)
    {
      if w !in conns {
        return;
      }
      var c := conns[w];
      var sent := Write(c, RevokeMsg);
      if sent {
        net := net[c := net[c].(phase := Closing)];
      }
    }

    // The API handlers

    /** Not accepted: no such miner, already running, or no wallet. Not sent: the miner waits for a worker. */
    method HandleStartMiner(owner: string, m: Id) returns (accepted: bool, sent: bool, ghost target: Option<Id>)
      modifies this
      ensures accepted <==> (m in old(miners) && old(miners)[m].owner == owner && old(miners)[m].status !in {Running, Queued}
                             && (old(miners)[m].hasWallet || old(miners)[m].simulated))
      ensures !accepted ==> View() == old(View())
      ensures accepted ==> miners == old(miners)[m := old(miners)[m].(status := Queued)] && runs == old(runs)[old(next) := Run(m, None, 0, 0)]
      ensures sent <==> accepted && AssignmentSent(old(View()), m, target)
      ensures Enabled(old(View()), StartMiner(owner, m, target)) && View() == Next(old(View()), StartMiner(owner, m, target))
    {
      accepted, sent, target := false, false, None;
      if m !in miners || miners[m].owner != owner {
        return;
      }
      if miners[m].status == Running || miners[m].status == Queued {
        return;
      }
      if !miners[m].hasWallet && !miners[m].simulated {
        return;
      }
      OpenRun(m);
      SetMinerStatus(m, Queued);
      accepted := true;
      var ok, t := Assign(m);
      sent, target := ok, t;
    }

    method HandleStopMiner(owner: string, m: Id) returns (found: bool, ghost order: seq<Id>)
      modifies this
      ensures found == (m in old(miners) && old(miners)[m].owner == owner)
      ensures !found ==> View() == old(View())
      ensures found ==> miners == old(miners)[m := old(miners)[m].(status := Stopped)]
      ensures found ==> jobs.Keys == old(jobs).Keys && forall j | j in jobs :: jobs[j].miner == m ==> jobs[j].endedAt.Some?
      ensures Enabled(old(View()), StopMiner(owner, m, order)) && View() == Next(old(View()), StopMiner(owner, m, order))
    {
      found := m in miners && miners[m].owner == owner;
      if !found {
        order := ActiveJobsForMiner(m);
        return;
      }
      order := CancelMiner(m);
      SetMinerStatus(m, Stopped);
      SwarmEffects.StopTakesEffect(old(View()), owner, m, order);
    }

    method HandleDeleteMiner(owner: string, m: Id) returns (found: bool, ghost order: seq<Id>)
      modifies this
      ensures found == (m in old(miners) && old(miners)[m].owner == owner)
      ensures found ==> SwarmEffects.MinerGone(old(View()), View(), m)
      ensures !found ==> miners == old(miners) && jobs.Keys == old(jobs).Keys && runs.Keys == old(runs).Keys && samples == old(samples)
      ensures workers == old(workers)
      ensures Enabled(old(View()), DeleteMiner(owner, m, order)) && View() == Next(old(View()), DeleteMiner(owner, m, order))
    {
      order := CancelMiner(m);
      found := DeleteMinerRows(owner, m);
      SwarmEffects.DeleteTakesEffect(old(View()), owner, m, order);
    }

    /** DELETE FROM miners, with its cascades. */
    method DeleteMinerRows(owner: string, m: Id) returns (found: bool)
      modifies this`miners, this`jobs, this`runs, this`samples
      ensures found == (m in old(miners) && old(miners)[m].owner == owner) && View() == DropMiner(old(View()), owner, m)
    {
      found := m in miners && miners[m].owner == owner;
      if found {
        miners := miners - {m};
        jobs := WithoutMiner(jobs, m);
        runs := RunsWithout(runs, m);
        samples := SamplesWithout(samples, m);
      }
    }

    method HandleRevokeWorker(owner: string, w: Id) returns (found: bool)
      modifies this
      ensures found == (w in old(workers) && old(workers)[w].owner == owner && old(workers)[w].revokedAt.None?)
      ensures found ==> SwarmEffects.Revocation(old(View()), View(), w)
      ensures !found ==> View() == old(View())
      ensures View() == Next(old(View()), RevokeWorker(owner, w))
    {
      found := MarkRevoked(owner, w);
      if found {
        EndJobs(w);
        HubRevokeWorker(w);
        RevokedInThreeParts(old(View()), View(), owner, w);
      }
    }

    /** The first statement of Store.RevokeWorker. */
    method MarkRevoked(owner: string, w: Id) returns (found: bool)
      modifies this`workers
      ensures found == (w in old(workers) && old(workers)[w].owner == owner && old(workers)[w].revokedAt.None?)
      ensures View() == Swarm.MarkRevoked(old(View()), owner, w)
    {
      found := w in workers && workers[w].owner == owner && workers[w].revokedAt.None?;
      if found {
        workers := workers[w := workers[w].(status := Revoked, revokedAt := Some(now))];
      }
    }

    /** The second statement of Store.RevokeWorker, row by row. */
    method EndJobs(w: Id)
      modifies this`jobs
      ensures View() == EndJobsOfWorker(old(View()), w)
    {
      var todo := jobs.Keys;
      while todo != {}
        invariant todo <= jobs.Keys && jobs.Keys == old(jobs).Keys
        invariant forall j | j in todo :: jobs[j] == old(jobs)[j]
        invariant forall j | j in jobs && j !in todo ::
          jobs[j] == if old(jobs)[j].worker == w && old(jobs)[j].endedAt.None?
                     then old(jobs)[j].(status := JobEnded, endedAt := Some(now)) else old(jobs)[j]
        decreases todo
      {
        var j :| j in todo;
        if jobs[j].worker == w && jobs[j].endedAt.None? {
          jobs := jobs[j := jobs[j].(status := JobEnded, endedAt := Some(now))];
        }
        todo := todo - {j};
      }
      assert jobs == EndJobsOfWorker(old(View()), w).jobs;
    }

    method HandleDeleteWorker(owner: string, w: Id) returns (found: bool)
      modifies this
      ensures found == (w in old(workers) && old(workers)[w].owner == owner)
      ensures SwarmEffects.ToldToLeave(old(View()), View(), w)
      ensures found ==> SwarmEffects.RowGone(old(workers), workers, w) && SwarmEffects.WorkersJobsGone(old(jobs), jobs, w)
      ensures !found ==> workers == old(workers) && jobs == old(jobs)
      ensures View() == Next(old(View()), DeleteWorker(owner, w))
    {
      HubRevokeWorker(w);
      found := DeleteWorkerRows(owner, w);
      SwarmEffects.DeleteWorkerTakesEffect(old(View()), owner, w);
    }

    /** DELETE FROM workers, with its cascade. */
    method DeleteWorkerRows(owner: string, w: Id) returns (found: bool)
      modifies this`workers, this`jobs
      ensures found == (w in old(workers) && old(workers)[w].owner == owner) && View() == DropWorker(old(View()), owner, w)
    {
      found := w in workers && workers[w].owner == owner;
      if found {
        workers := workers - {w};
        jobs := WithoutWorker(jobs, w);
      }
    }

    /** HandleWS up to its read loop; refused for an unknown or revoked worker. */
    method HandleConnect(w: Id) returns (accepted: bool, ghost choices: seq<Choice>)
      modifies this
      ensures accepted == (w in old(workers) && old(workers)[w].revokedAt.None?)
      ensures !accepted ==> View() == old(View())
      ensures accepted ==> Enabled(old(View()), Connect(w, choices)) && View() == Next(old(View()), Connect(w, choices))
    {
      accepted, choices := w in workers && workers[w].revokedAt.None?, [];
      if !accepted {
        return;
      }
      var c := next;
      next := next + 1;
      net := net[c := Session(w, [], [], Up, true, true, {})];
      Register(w, workers[w].owner, workers[w].kind, c);
      SetWorkerStatus(w, Connected);
      assert View() == Joined(old(View()), w);
      QueuedAfterJoin(old(View()), w);
      choices := AssignQueued(workers[w].owner);
    }

    /** One message of HandleWS's read loop. */
    method HandleMessage(c: Id)
      requires Enabled(View(), ServerRead(c))
      modifies this
      ensures View() == Next(old(View()), ServerRead(c))
    {
      var x := net[c];
      net := net[c := x.(up := x.up[1..])];
      match x.up[0]
      case Ack(j, ok) => HandleAck(x.worker, j, ok);
      case Metrics(j, acc, rej) => HandleMetrics(x.worker, j, acc, rej);
    }

    /** HandleWS returns: the connection closes and the worker is unregistered. */
    method HandleDisconnect(c: Id)
      requires Enabled(View(), ServerEnd(c))
      modifies this
      ensures View() == Next(old(View()), ServerEnd(c))
    {
      var x := net[c];
      net := net[c := x.(serving := false, phase := Hangup(x.phase))];
      Unregister(x.worker);
    }
  }

  lemma {:induction false} CancelKeepsRows(s: Sys, m: Id, j: Id)
    requires j in s.jobs
    ensures CancelOne(s, m, j).jobs.Keys == s.jobs.Keys
  {
    CancelOneReordered(s, m, j);
    assert SetJobStatus(s, j, JobEnded).jobs.Keys == s.jobs.Keys;
  }

  lemma {:induction false} RevokedInThreeParts(s: Sys, t: Sys, owner: string, w: Id)
    requires w in s.workers && s.workers[w].owner == owner && s.workers[w].revokedAt.None?
    requires t == HubRevoke(EndJobsOfWorker(MarkRevoked(s, owner, w), w), w)
    ensures t == Next(s, RevokeWorker(owner, w)) && SwarmEffects.Revocation(s, t, w)
  {
    SwarmEffects.RevokeTakesEffect(s, owner, w);
  }

  lemma {:induction false} QueuedAfterJoin(s: Sys, w: Id)
    requires w in s.workers
    ensures QueuedMiners(Joined(s, w), s.workers[w].owner) == QueuedMiners(s, s.workers[w].owner)
    ensures Joined(s, w).workers[w].owner == s.workers[w].owner
  {
  }

  // ---------------------------------------------------------------------
  // The worker
  // ---------------------------------------------------------------------

  /** One session of the worker program: its jobs map, and its end of the connection. */
  class Runner {
    const worker: Id
    const serving: bool
    var inbox: seq<ToWorker>
    var outbox: seq<ToServer>
    var phase: Phase
    var listening: bool
    var running: set<Id>

    ghost function View(): Session
      reads this
    {
      Session(worker, inbox, outbox, phase, serving, listening, running)
    }

    method Send(msg: ToServer)
      modifies this`outbox
      ensures View() == Reply(old(View()), msg)
    {
      if phase == Up { outbox := outbox + [msg]; }
    }

    /** handleAssign: the engine may fail to come up. */
    method HandleAssign(j: Id, started: bool)
      modifies this`outbox, this`running
      ensures View() == WorkerHandle(old(View()), Assign(j), started)
    {
      if !started {
        Send(Ack(j, false));
        return;
      }
      running := running + {j};
      Send(Ack(j, true));
    }

    /** One turn of runSession's loop; false when the session is over. */
    method HandleNext(started: bool) returns (more: bool)
      requires inbox != []
      modifies this
      ensures View() == WorkerHandle(old(View()).(down := old(inbox)[1..]), old(inbox)[0], started)
      ensures more == (old(inbox)[0] != RevokeMsg)
    {
      var msg := inbox[0];
      inbox, more := inbox[1..], true;
      match msg
      case Assign(j) => HandleAssign(j, started);
      case CancelJob(j) => if j in running { running := running - {j}; }
      case Allocation(_) =>
      case RevokeMsg =>
        // stopAll, run by the reconnect loop
        more, listening, running := false, false, {};
    }

    /** Reading everything queued leaves only engines the queue called for, and all of them when every engine starts. */
    method ReadAll(starts: seq<bool>)
      requires |starts| == |inbox|
      modifies this
      ensures running <= Drain(old(running), old(inbox))
      ensures (forall k | 0 <= k < |starts| :: starts[k]) ==> running == Drain(old(running), old(inbox))
      ensures RevokeMsg in old(inbox) ==> running == {} && !listening
    {
      var i, more := 0, true;
      assert inbox == old(inbox)[0..];
      while i < |starts| && more
        invariant i <= |starts| == |old(inbox)|
        invariant more ==> inbox == old(inbox)[i..] && Drain(running, inbox) <= Drain(old(running), old(inbox))
        invariant more ==> forall k | 0 <= k < i :: old(inbox)[k] != RevokeMsg
        invariant more && (forall k | 0 <= k < i :: starts[k]) ==> Drain(running, inbox) == Drain(old(running), old(inbox))
        invariant !more ==> running == {} && !listening && RevokeMsg in old(inbox)
      {
        if inbox[0] != RevokeMsg {
          DrainRead(View(), starts[i]);
        }
        more := HandleNext(starts[i]);
        i := i + 1;
      }
      if !more {
        RevokedDrain(old(running), old(inbox));
      }
    }
  }

  lemma {:induction false} RevokedDrain(running: set<Id>, down: seq<ToWorker>)
    requires RevokeMsg in down
    ensures Drain(running, down) == {}
    decreases |down|
  {
    if down[0] != RevokeMsg {
      RevokedDrain(Obeyed(running, down[0]), down[1..]);
    }
  }
}
