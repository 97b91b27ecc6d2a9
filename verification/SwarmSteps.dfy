/**
 Every event of the swarm keeps the invariant: first the steps that create,
 assign, acknowledge, measure and forget jobs, then the handlers composed of them.
 */
module SwarmSteps {

  import opened Base
  import opened Swarm
  import opened SwarmInvariant
  import Shares

  // ---------------------------------------------------------------------
  // One session changes
  // ---------------------------------------------------------------------

  lemma {:induction false} OneReplaced(net: Net, homes: Homes, states: set<Id>, jobs: Jobs, c: Id, y: Session)
    requires Sessions(net, homes, states, jobs)
    requires AtHome(y, c, homes) && DownOk(y, states) && UpOk(y, states, jobs)
    ensures Sessions(net[c := y], homes, states, jobs)
  {
  }

  lemma {:induction false} OneReplacedEnds(net: Net, conns: map<Id, Id>, c: Id, y: Session)
    requires c in net && y.worker == net[c].worker && y.serving == net[c].serving
    ensures SameEnds(net, net[c := y], conns)
  {
  }

  lemma {:induction false} ReplaceKeeps(s: Sys, c: Id, y: Session)
    requires Inv(s) && c in s.net && y.worker == s.net[c].worker && y.serving == s.net[c].serving
    requires AtHome(y, c, s.homes) && DownOk(y, s.states.Keys) && UpOk(y, s.states.Keys, s.jobs)
    ensures Inv(s.(net := s.net[c := y]))
  {
    OneReplaced(s.net, s.homes, s.states.Keys, s.jobs, c, y);
    OneReplacedEnds(s.net, s.conns, c, y);
    SameEndsKeeps(s.net, s.net[c := y], s.jobs, s.homes, s.conns, s.live, s.states);
  }

  ghost predicate Ok(x: Session, c: Id, homes: Homes, states: set<Id>, jobs: Jobs) {
    AtHome(x, c, homes) && DownOk(x, states) && UpOk(x, states, jobs)
  }

  /** Reading a message that starts nothing. */
  lemma {:induction false} ReadPlain(x: Session, c: Id, homes: Homes, states: set<Id>, jobs: Jobs, y: Session)
    requires Ok(x, c, homes, states, jobs) && x.down != [] && !x.down[0].Assign?
    requires y.down == x.down[1..] && y.up == x.up && y.running <= x.running && y.phase == x.phase
    ensures Ok(y, c, homes, states, jobs)
  {
    assert forall j | Assign(j) in y.down :: Assign(j) in x.down;
    forall j | Mentions(y, j) ensures Mentions(x, j) {}
  }

  lemma {:induction false} AssignHead(x: Session, c: Id, homes: Homes, states: set<Id>, jobs: Jobs, j: Id)
    requires Ok(x, c, homes, states, jobs) && x.down != [] && x.down[0] == Assign(j)
    ensures j in homes && homes[j] == c && j !in x.running && j !in states && !InUp(x.up, j)
    ensures Assign(j) !in x.down[1..]
    ensures forall i | Assign(i) in x.down[1..] :: Assign(i) in x.down && i != j
  {
    assert Assign(j) in x.down;
    assert Mentions(x, j);
  }

  lemma {:induction false} ReadAssignDown(x: Session, y: Session, states: set<Id>, j: Id)
    requires DownOk(x, states) && x.down != [] && x.down[0] == Assign(j)
    requires y.down == x.down[1..] && y.running <= x.running + {j}
    requires forall i | InUp(y.up, i) :: i == j || InUp(x.up, i)
    ensures DownOk(y, states)
  {
    assert forall i | Assign(i) in x.down[1..] :: Assign(i) in x.down && i != j;
  }

  lemma {:induction false} ReadAssignHome(x: Session, y: Session, c: Id, homes: Homes, j: Id)
    requires AtHome(x, c, homes) && x.down != [] && x.down[0] == Assign(j)
    requires y.down == x.down[1..] && y.running <= x.running + {j}
    requires forall i | InUp(y.up, i) :: i == j || InUp(x.up, i)
    ensures AtHome(y, c, homes)
  {
    assert Assign(j) in x.down && Mentions(x, j);
    assert forall i | Assign(i) in x.down[1..] :: Assign(i) in x.down;
    forall i | Mentions(y, i) ensures i == j || Mentions(x, i) {}
  }

  /** A worker's reply to an assignment is the first thing said about the job. */
  lemma {:induction false} ReplyOk(x: Session, y: Session, states: set<Id>, jobs: Jobs, j: Id, ok: bool)
    requires UpOk(x, states, jobs) && !InUp(x.up, j) && j !in x.running && j !in states && x.phase == Up
    requires y.phase == Up && y.up == x.up + [Ack(j, ok)] && y.running == if ok then x.running + {j} else x.running
    ensures UpOk(y, states, jobs)
  {
    UpSnoc(x.up, Ack(j, ok));
    forall i | 0 <= i < |x.up| ensures x.up[i].job != j {}
  }

  lemma {:induction false} ReadAssign(x: Session, c: Id, homes: Homes, states: set<Id>, jobs: Jobs, j: Id,
      started: bool)
    requires Ok(x, c, homes, states, jobs) && x.down != [] && x.down[0] == Assign(j)
    ensures Ok(WorkerHandle(x.(down := x.down[1..]), Assign(j), started), c, homes, states, jobs)
  {
    var y := WorkerHandle(x.(down := x.down[1..]), Assign(j), started);
    AssignHead(x, c, homes, states, jobs, j);
    if x.phase == Up {
      UpSnoc(x.up, Ack(j, started));
      ReplyOk(x, y, states, jobs, j, started);
    }
    ReadAssignDown(x, y, states, j);
    ReadAssignHome(x, y, c, homes, j);
  }

  lemma {:induction false} UpSnoc(up: seq<ToServer>, m: ToServer)
    ensures var v := up + [m];
            && (forall k | 0 <= k < |up| :: v[k] == up[k] && v[..k] == up[..k])
            && v[..|up|] == up && v[|up|] == m
            && (forall j :: InUp(v, j) <==> InUp(up, j) || m.job == j)
            && (forall n :: n in v <==> n in up || n == m)
  {
    var v := up + [m];
    forall j ensures InUp(v, j) <==> InUp(up, j) || m.job == j {
      if InUp(up, j) {
        var i :| 0 <= i < |up| && up[i].job == j;
        assert v[i].job == j;
      }
      if m.job == j {
        assert v[|up|].job == j;
      }
      if InUp(v, j) && m.job != j {
        var i :| 0 <= i < |v| && v[i].job == j;
        assert up[i].job == j;
      }
    }
  }

  /** A metrics report is sent only for a job whose acknowledgement is on its way or no longer matters. */
  lemma {:induction false} ReportOk(x: Session, c: Id, homes: Homes, states: set<Id>, jobs: Jobs, j: Id, acc: nat,
      rej: nat)
    requires Ok(x, c, homes, states, jobs) && j in x.running
    ensures Ok(Reply(x, Metrics(j, acc, rej)), c, homes, states, jobs)
  {
    var y := Reply(x, Metrics(j, acc, rej));
    if x.phase == Up {
      UpSnoc(x.up, Metrics(j, acc, rej));
    }
    forall i | Mentions(y, i) ensures Mentions(x, i) {}
  }

  lemma {:induction false} WorkerReadKeeps(s: Sys, c: Id, started: bool)
    requires Inv(s) && Enabled(s, WorkerRead(c, started))
    ensures Inv(Next(s, WorkerRead(c, started)))
  {
    var x := s.net[c];
    var y := WorkerHandle(x.(down := x.down[1..]), x.down[0], started);
    assert Ok(x, c, s.homes, s.states.Keys, s.jobs);
    if x.down[0].Assign? {
      ReadAssign(x, c, s.homes, s.states.Keys, s.jobs, x.down[0].job, started);
    } else {
      ReadPlain(x, c, s.homes, s.states.Keys, s.jobs, y);
    }
    ReplaceKeeps(s, c, y);
  }

  lemma {:induction false} WorkerReportKeeps(s: Sys, c: Id, j: Id, acc: nat, rej: nat)
    requires Inv(s) && Enabled(s, WorkerReport(c, j, acc, rej))
    ensures Inv(Next(s, WorkerReport(c, j, acc, rej)))
  {
    assert Ok(s.net[c], c, s.homes, s.states.Keys, s.jobs);
    ReportOk(s.net[c], c, s.homes, s.states.Keys, s.jobs, j, acc, rej);
    ReplaceKeeps(s, c, Reply(s.net[c], Metrics(j, acc, rej)));
  }

  // ---------------------------------------------------------------------
  // Jobs appear
  // ---------------------------------------------------------------------

  lemma {:induction false} NewJobRows(jobs: Jobs, miners: map<Id, Miner>, workers: map<Id, Worker>, homes: Homes,
      net: Net, states: States,
                                      samples: seq<Sample>, j: Id, m: Id, w: Id, c: Id)
    requires Placed(jobs, miners, workers) && Ends(jobs) && Housed(jobs, homes, net) && Indexed(states, jobs, homes)
    requires SamplesOk(samples, jobs, homes) && Statuses(jobs, miners) && j !in homes
    requires m in miners && Active(miners[m].status) && w in workers && workers[w].owner == miners[m].owner && workers[w].kind != Browser
    requires c in net && net[c].worker == w
    ensures var jobs', homes' := jobs[j := Job(m, w, JobAssigned, None)], homes[j := c];
            && Placed(jobs', miners, workers) && Ends(jobs') && Housed(jobs', homes', net) && Indexed(states, jobs', homes')
            && SamplesOk(samples, jobs', homes') && Statuses(jobs', miners)
  {
  }

  lemma {:induction false} NewJobMaps(jobs: Jobs, homes: Homes, net: Net, states: States, samples: seq<Sample>,
      live: map<Id, Live>,
                                      j: Id, job: Job, c: Id)
    requires j !in homes && Indexed(states, jobs, homes) && SamplesOk(samples, jobs, homes)
    requires Tally(jobs, states, samples) && LiveJobs(live, states, homes, net) && Sessions(net, homes, states.Keys, jobs)
    ensures var jobs', homes' := jobs[j := job], homes[j := c];
            && Tally(jobs', states, samples) && LiveJobs(live, states, homes', net) && Sessions(net, homes', states.Keys, jobs')
  {
    SumsAbsent(samples, j);
    SessionsStay(net, homes, states.Keys, jobs, homes[j := c], states.Keys, jobs[j := job]);
  }

  lemma {:induction false} NextId(s: Sys)
    requires Inv(s)
    ensures s.next !in s.homes && Below(s.homes.Keys + {s.next}, s.next + 1)
  {
  }

  lemma {:induction false} CreateJobKeeps(s: Sys, m: Id, w: Id, c: Id)
    requires Inv(s) && m in s.miners && Active(s.miners[m].status)
    requires w in s.workers && s.workers[w].owner == s.miners[m].owner && s.workers[w].kind != Browser
    requires c in s.net && s.net[c].worker == w
    ensures Inv(CreateJob(s, m, w, c))
  {
    var j := s.next;
    NextId(s);
    NewJobRows(s.jobs, s.miners, s.workers, s.homes, s.net, s.states, s.samples, j, m, w, c);
    NewJobMaps(s.jobs, s.homes, s.net, s.states, s.samples, s.live, j, Job(m, w, JobAssigned, None), c);
    assert s.homes[j := c].Keys == s.homes.Keys + {j};
  }

  /** Before its assignment goes out, a new job is mentioned nowhere. */
  lemma {:induction false} NotMentioned(s: Sys, c: Id, j: Id)
    requires Inv(s) && j !in s.homes && c in s.net
    ensures !Mentions(s.net[c], j) && j !in s.states
  {
    assert AtHome(s.net[c], c, s.homes);
  }

  lemma {:induction false} AssignSent(x: Session, c: Id, homes: Homes, states: set<Id>, jobs: Jobs, j: Id)
    requires Ok(x, c, homes, states, jobs) && !Mentions(x, j) && j !in states && j in homes && homes[j] == c
    ensures Ok(x.(down := x.down + [Assign(j)]), c, homes, states, jobs)
  {
    var y := x.(down := x.down + [Assign(j)]);
    forall i | Assign(i) in y.down ensures i == j || Assign(i) in x.down {}
    forall i | 0 <= i < |x.down| && x.down[i].Assign? ensures x.down[i].job != j {
      assert Assign(x.down[i].job) in x.down;
    }
    forall i | Mentions(y, i) ensures i == j || Mentions(x, i) {}
  }

  lemma {:induction false} AssignToKeeps(s: Sys, m: Id, w: Id)
    requires Inv(s) && Eligible(s, m, w) && WorkerStillThere(s, m, w) && Active(s.miners[m].status)
    ensures Inv(AssignTo(s, m, w))
  {
    var c, j := s.conns[w], s.next;
    var t := CreateJob(s, m, w, c);
    assert s.live[w].kind == s.workers[w].kind;
    assert c in s.net && s.net[c].worker == w;
    assert j !in s.homes;
    NotMentioned(s, c, j);
    CreateJobKeeps(s, m, w, c);
    if CanSend(s, c) {
      AssignOut(t, c, j);
      SetWorkerStatusKeeps(Send(t, c, Assign(j)), w, Assigned);
    } else {
      SetJobStatusKeeps(t, j, JobError);
    }
  }

  lemma {:induction false} AssignOut(t: Sys, c: Id, j: Id)
    requires Inv(t) && CanSend(t, c) && !Mentions(t.net[c], j) && j !in t.states && j in t.homes && t.homes[j] == c
    ensures Inv(Send(t, c, Assign(j)))
  {
    assert Ok(t.net[c], c, t.homes, t.states.Keys, t.jobs);
    AssignSent(t.net[c], c, t.homes, t.states.Keys, t.jobs, j);
    ReplaceKeeps(t, c, t.net[c].(down := t.net[c].down + [Assign(j)]));
  }

  lemma {:induction false} AssignMinerMiners(s: Sys, m: Id, target: Option<Id>)
    requires IsTarget(s, m, target)
    ensures AssignMiner(s, m, target).miners == s.miners
  {
  }

  lemma {:induction false} AssignMinerKeeps(s: Sys, m: Id, target: Option<Id>)
    requires Inv(s) && IsTarget(s, m, target) && m in s.miners && Active(s.miners[m].status)
    ensures Inv(AssignMiner(s, m, target))
  {
    if target.Some? && WorkerStillThere(s, m, target.value) {
      AssignToKeeps(s, m, target.value);
    }
  }

  lemma {:induction false} AssignAllKeeps(s: Sys, choices: seq<Choice>)
    requires Inv(s) && AssignableAll(s, choices)
    requires forall i | 0 <= i < |choices| :: choices[i].miner in s.miners && Active(s.miners[choices[i].miner].status)
    ensures Inv(AssignAll(s, choices)) && AssignAll(s, choices).miners == s.miners
    decreases |choices|
  {
    if choices != [] {
      AssignMinerMiners(s, choices[0].miner, choices[0].target);
      AssignMinerKeeps(s, choices[0].miner, choices[0].target);
      AssignAllKeeps(AssignMiner(s, choices[0].miner, choices[0].target), choices[1..]);
    }
  }

  // ---------------------------------------------------------------------
  // Messages arrive
  // ---------------------------------------------------------------------

  function Popped(s: Sys, c: Id): Sys
    requires c in s.net && s.net[c].up != []
  {
    s.(net := s.net[c := s.net[c].(up := s.net[c].up[1..])])
  }

  lemma {:induction false} UpTail(up: seq<ToServer>)
    requires up != []
    ensures forall k | 0 <= k < |up| - 1 :: up[1..][k] == up[k + 1] && forall n :: n in up[..k + 1] <==> n == up[0] || n in up[1..][..k]
    ensures forall n | n in up[1..] :: n in up
    ensures forall n | n in up :: n == up[0] || n in up[1..]
    ensures forall j | InUp(up[1..], j) :: InUp(up, j)
  {
    forall k | 0 <= k < |up| - 1 ensures forall n :: n in up[..k + 1] <==> n == up[0] || n in up[1..][..k] {
      assert up[..k + 1] == [up[0]] + up[1..][..k];
    }
    assert up == [up[0]] + up[1..];
    forall j | InUp(up[1..], j) ensures InUp(up, j) {
      var i :| 0 <= i < |up[1..]| && up[1..][i].job == j;
      assert up[i + 1].job == j;
    }
  }

  /** Taking a message off the wire, when it is not an acknowledgement that still matters. */
  lemma {:induction false} PopOk(x: Session, c: Id, homes: Homes, states: set<Id>, jobs: Jobs)
    requires Ok(x, c, homes, states, jobs) && x.up != []
    requires x.up[0].Metrics? || !x.up[0].ok || Known(states, jobs, x.up[0].job)
    ensures Ok(x.(up := x.up[1..]), c, homes, states, jobs)
  {
    UpTail(x.up);
    forall j | Mentions(x.(up := x.up[1..]), j) ensures Mentions(x, j) {}
  }

  lemma {:induction false} PopKeeps(s: Sys, c: Id)
    requires Inv(s) && c in s.net && s.net[c].up != []
    requires var m := s.net[c].up[0]; m.Metrics? || !m.ok || Known(s.states.Keys, s.jobs, m.job)
    ensures Inv(Popped(s, c))
  {
    assert Ok(s.net[c], c, s.homes, s.states.Keys, s.jobs);
    PopOk(s.net[c], c, s.homes, s.states.Keys, s.jobs);
    ReplaceKeeps(s, c, s.net[c].(up := s.net[c].up[1..]));
  }

  /** The session an acknowledgement arrives on, once the job is indexed. */
  lemma {:induction false} AckArrivesHere(x: Session, c: Id, homes: Homes, states: set<Id>, jobs: Jobs, j: Id)
    requires Ok(x, c, homes, states, jobs) && x.up != [] && x.up[0] == Ack(j, true)
    ensures Ok(x.(up := x.up[1..]), c, homes, states + {j}, jobs)
  {
    var y := x.(up := x.up[1..]);
    UpTail(x.up);
    assert InUp(x.up, j);
    forall i | Mentions(y, i) ensures Mentions(x, i) {}
    forall i, ok | Ack(i, ok) in y.up ensures i != j && Ack(i, ok) in x.up {
      var k :| 0 <= k < |y.up| && y.up[k] == Ack(i, ok);
      assert x.up[k + 1] == Ack(i, ok);
    }
  }

  lemma {:induction false} AckArrivesElsewhere(x: Session, d: Id, homes: Homes, states: set<Id>, jobs: Jobs, j: Id)
    requires Ok(x, d, homes, states, jobs) && !Mentions(x, j)
    ensures Ok(x, d, homes, states + {j}, jobs)
  {
    forall i | Assign(i) in x.down ensures i != j { assert Mentions(x, i); }
    forall i, ok | Ack(i, ok) in x.up ensures i != j {
      var k :| 0 <= k < |x.up| && x.up[k] == Ack(i, ok);
      assert x.up[k].job == i;
      assert Mentions(x, i);
    }
  }

  lemma {:induction false} AckArrives(net: Net, homes: Homes, states: set<Id>, jobs: Jobs, c: Id, j: Id)
    requires Sessions(net, homes, states, jobs) && c in net && net[c].up != [] && net[c].up[0] == Ack(j, true)
    ensures Sessions(net[c := net[c].(up := net[c].up[1..])], homes, states + {j}, jobs)
  {
    var net' := net[c := net[c].(up := net[c].up[1..])];
    assert Mentions(net[c], j) by { assert InUp(net[c].up, j); }
    forall d | d in net' ensures AtHome(net'[d], d, homes) && DownOk(net'[d], states + {j}) && UpOk(net'[d], states + {j}, jobs) {
      if d == c {
        AckArrivesHere(net[c], c, homes, states, jobs, j);
      } else {
        assert AtHome(net[d], d, homes) && AtHome(net[c], c, homes);
        AckArrivesElsewhere(net[d], d, homes, states, jobs, j);
      }
    }
  }

  function LiveWith(live: map<Id, Live>, w: Id, j: Id, m: Id): map<Id, Live> {
    if w in live then live[w := live[w].(jobs := live[w].jobs[j := m])] else live
  }

  lemma {:induction false} AckIndex(live: map<Id, Live>, workers: map<Id, Worker>, states: States, jobs: Jobs,
      homes: Homes, net: Net,
                                    samples: seq<Sample>, w: Id, j: Id, m: Id)
    requires IsOpen(jobs, j) && jobs[j].miner == m && jobs[j].worker == w && j !in states && Housed(jobs, homes, net)
    requires Indexed(states, jobs, homes) && LiveJobs(live, states, homes, net) && LiveOk(live, workers) && Tally(jobs, states, samples)
    ensures var states', live' := states[j := JobState(m, 0, 0, 0, 0)], LiveWith(live, w, j, m);
            && Indexed(states', jobs, homes) && LiveJobs(live', states', homes, net) && LiveOk(live', workers)
            && Tally(jobs, states', samples) && live'.Keys == live.Keys && states'.Keys == states.Keys + {j}
  {
  }

  lemma {:induction false} AckPending(s: Sys, c: Id, j: Id)
    requires Inv(s) && c in s.net && s.net[c].up != [] && s.net[c].up[0] == Ack(j, true)
    ensures j !in s.states
  {
    assert UpOk(s.net[c], s.states.Keys, s.jobs) && Ack(j, true) in s.net[c].up;
  }

  lemma {:induction false} AckArrivesKeeps(s: Sys, c: Id, j: Id)
    requires Inv(s) && c in s.net && s.net[c].up != [] && s.net[c].up[0] == Ack(j, true)
    requires Open(s, j) && s.jobs[j].worker == s.net[c].worker
    ensures Inv(AckSection(Popped(s, c), s.net[c].worker, j, s.jobs[j].miner))
  {
    var w, m, net := s.net[c].worker, s.jobs[j].miner, Popped(s, c).net;
    AckPending(s, c, j);
    AckArrives(s.net, s.homes, s.states.Keys, s.jobs, c, j);
    OneReplacedEnds(s.net, s.conns, c, s.net[c].(up := s.net[c].up[1..]));
    SameEndsKeeps(s.net, net, s.jobs, s.homes, s.conns, s.live, s.states);
    AckIndex(s.live, s.workers, s.states, s.jobs, s.homes, net, s.samples, w, j, m);
    assert AckSection(Popped(s, c), w, j, m) == s.(net := net, live := LiveWith(s.live, w, j, m), states := s.states[j := JobState(m, 0, 0, 0, 0)]);
  }

  lemma {:induction false} MetricRows(live: map<Id, Live>, states: States, jobs: Jobs, homes: Homes, net: Net, j: Id,
      b: JobState)
    requires j in states && b.miner == states[j].miner && Indexed(states, jobs, homes) && LiveJobs(live, states, homes, net)
    ensures Indexed(states[j := b], jobs, homes) && LiveJobs(live, states[j := b], homes, net)
    ensures states[j := b].Keys == states.Keys
  {
  }

  lemma {:induction false} MetricTally(jobs: Jobs, states: States, samples: seq<Sample>, homes: Homes, j: Id,
      b: JobState, x: Sample)
    requires Tally(jobs, states, samples) && SamplesOk(samples, jobs, homes)
    requires IsOpen(jobs, j) && j in states && j in homes && x.job == j && x.miner == jobs[j].miner
    requires b.totAcc == states[j].totAcc + x.acc && b.totRej == states[j].totRej + x.rej
    ensures Tally(jobs, states[j := b], samples + [x]) && SamplesOk(samples + [x], jobs, homes)
  {
    forall i | IsOpen(jobs, i)
      ensures SumAcc(samples + [x], i) == SumAcc(samples, i) + (if i == j then x.acc else 0)
      ensures SumRej(samples + [x], i) == SumRej(samples, i) + (if i == j then x.rej else 0)
    {
      SumsSnoc(samples, x, i);
    }
  }

  lemma {:induction false} MetricsForm(s: Sys, w: Id, j: Id, acc: nat, rej: nat)
    requires OpenFor(s, j, w) && j in s.states
    ensures var b := s.states[j];
            var x := Sample(s.jobs[j].miner, j, Shares.Delta(b.lastAcc, acc), Shares.Delta(b.lastRej, rej));
            HandleMetrics(s, w, j, acc, rej)
              == s.(states := s.states[j := JobState(b.miner, acc, rej, b.totAcc + x.acc, b.totRej + x.rej)], samples := s.samples + [x])
  {
  }

  lemma {:induction false} MeasureKeeps(s: Sys, j: Id, b: JobState, x: Sample)
    requires Inv(s) && Open(s, j) && j in s.states && b.miner == s.states[j].miner
    requires x.job == j && x.miner == s.jobs[j].miner
    requires b.totAcc == s.states[j].totAcc + x.acc && b.totRej == s.states[j].totRej + x.rej
    ensures Inv(s.(states := s.states[j := b], samples := s.samples + [x]))
  {
    MetricRows(s.live, s.states, s.jobs, s.homes, s.net, j, b);
    MetricTally(s.jobs, s.states, s.samples, s.homes, j, b, x);
  }

  lemma {:induction false} HandleMetricsKeeps(s: Sys, w: Id, j: Id, acc: nat, rej: nat)
    requires Inv(s) && (Open(s, j) ==> j in s.states)
    ensures Inv(HandleMetrics(s, w, j, acc, rej))
  {
    if OpenFor(s, j, w) {
      var b := s.states[j];
      var x := Sample(s.jobs[j].miner, j, Shares.Delta(b.lastAcc, acc), Shares.Delta(b.lastRej, rej));
      MetricsForm(s, w, j, acc, rej);
      MeasureKeeps(s, j, JobState(b.miner, acc, rej, b.totAcc + x.acc, b.totRej + x.rej), x);
    }
  }

  // ---------------------------------------------------------------------
  // Jobs are cancelled
  // ---------------------------------------------------------------------

  function LiveWithout(live: map<Id, Live>, w: Id, j: Id): map<Id, Live> {
    if w in live then live[w := live[w].(jobs := live[w].jobs - {j})] else live
  }

  lemma {:induction false} ForgetMaps(live: map<Id, Live>, workers: map<Id, Worker>, states: States, homes: Homes,
      net: Net, w: Id, j: Id)
    requires j in homes && homes[j] in net && net[homes[j]].worker == w
    requires LiveJobs(live, states, homes, net) && LiveOk(live, workers)
    ensures var live' := LiveWithout(live, w, j);
            LiveJobs(live', states - {j}, homes, net) && LiveOk(live', workers) && live'.Keys == live.Keys
  {
  }

  lemma {:induction false} ForgetRows(states: States, jobs: Jobs, homes: Homes, samples: seq<Sample>, j: Id)
    requires Indexed(states, jobs, homes) && Tally(jobs, states, samples) && !IsOpen(jobs, j)
    ensures Indexed(states - {j}, jobs, homes) && Tally(jobs, states - {j}, samples)
    ensures Moved(homes, states.Keys, jobs, homes, (states - {j}).Keys, jobs)
  {
  }

  lemma {:induction false} ForgetIndex(live: map<Id, Live>, workers: map<Id, Worker>, states: States, jobs: Jobs,
      homes: Homes, net: Net,
                                       samples: seq<Sample>, w: Id, j: Id)
    requires j in homes && homes[j] in net && net[homes[j]].worker == w && !IsOpen(jobs, j)
    requires Indexed(states, jobs, homes) && LiveJobs(live, states, homes, net) && LiveOk(live, workers) && Tally(jobs, states, samples)
    requires Sessions(net, homes, states.Keys, jobs)
    ensures var live' := LiveWithout(live, w, j);
            && Indexed(states - {j}, jobs, homes) && LiveJobs(live', states - {j}, homes, net) && LiveOk(live', workers)
            && Tally(jobs, states - {j}, samples) && Sessions(net, homes, (states - {j}).Keys, jobs)
            && live'.Keys == live.Keys
  {
    ForgetMaps(live, workers, states, homes, net, w, j);
    ForgetRows(states, jobs, homes, samples, j);
    SessionsStay(net, homes, states.Keys, jobs, homes, (states - {j}).Keys, jobs);
  }

  lemma {:induction false} ForgetKeeps(s: Sys, w: Id, j: Id)
    requires Inv(s) && !Open(s, j) && j in s.homes && s.homes[j] in s.net && s.net[s.homes[j]].worker == w
    ensures Inv(CancelSection(s, w, j))
  {
    ForgetIndex(s.live, s.workers, s.states, s.jobs, s.homes, s.net, s.samples, w, j);
    assert CancelSection(s, w, j) == s.(states := s.states - {j}, live := LiveWithout(s.live, w, j));
  }

  /** The order of CancelMiner's own writes does not show in the result. */
  lemma {:induction false} CancelOneReordered(s: Sys, m: Id, j: Id)
    requires j in s.jobs
    ensures var w, tot := s.jobs[j].worker, TotalsOf(s, j);
            CancelOne(s, m, j) == CloseRun(SendTo(CancelSection(SetJobStatus(s, j, JobEnded), w, j), w, CancelJob(j)), m, tot.0, tot.1)
  {
    var w := s.jobs[j].worker;
    assert CancelSection(SetJobStatus(s, j, JobEnded), w, j) == SetJobStatus(CancelSection(s, w, j), j, JobEnded);
  }

  lemma {:induction false} CancelOneKeeps(s: Sys, m: Id, j: Id)
    requires Inv(s) && Open(s, j)
    ensures Inv(CancelOne(s, m, j))
  {
    var w, tot := s.jobs[j].worker, TotalsOf(s, j);
    var t := SetJobStatus(s, j, JobEnded);
    var u := CancelSection(t, w, j);
    var v := SendTo(u, w, CancelJob(j));
    CancelOneReordered(s, m, j);
    assert j in s.homes && s.homes[j] in s.net && s.net[s.homes[j]].worker == w;
    SetJobStatusKeeps(s, j, JobEnded);
    ForgetKeeps(t, w, j);
    if w in u.conns {
      SendKeeps(u, u.conns[w], CancelJob(j));
    }
    CloseRunKeeps(v, m, tot.0, tot.1);
  }

  /** Jobs to cancel: open ones, each once. */
  ghost predicate Cancellable(s: Sys, order: seq<Id>) {
    && (forall i | 0 <= i < |order| :: order[i] in s.jobs && s.jobs[order[i]].endedAt.None?)
    && (forall i, k | 0 <= i < k < |order| :: order[i] != order[k])
  }

  lemma {:induction false} CancelOneRows(s: Sys, m: Id, j: Id)
    requires Open(s, j)
    ensures CancelOne(s, m, j).jobs == s.jobs[j := s.jobs[j].(status := JobEnded, endedAt := Some(s.now))]
    ensures SameRest(s, CancelOne(s, m, j))
  {
    CancelOneReordered(s, m, j);
  }

  /** Cancelling leaves the other tables alone. */
  ghost predicate SameRest(s: Sys, t: Sys) {
    t.miners == s.miners && t.samples == s.samples && t.conns == s.conns && t.now == s.now && t.workers == s.workers
    && t.homes == s.homes && t.next == s.next
  }

  lemma {:induction false} CancellableRest(s: Sys, t: Sys, order: seq<Id>, job: Job)
    requires Cancellable(s, order) && order != [] && t.jobs == s.jobs[order[0] := job]
    ensures Cancellable(t, order[1..])
  {
    assert forall i | 0 <= i < |order| - 1 :: order[1..][i] == order[i + 1];
  }

  lemma {:induction false} CancelStep(s: Sys, m: Id, order: seq<Id>)
    requires Cancellable(s, order) && order != []
    ensures CancelOne(s, m, order[0]).jobs == s.jobs[order[0] := s.jobs[order[0]].(status := JobEnded, endedAt := Some(s.now))]
    ensures SameRest(s, CancelOne(s, m, order[0])) && Cancellable(CancelOne(s, m, order[0]), order[1..])
  {
    CancelOneRows(s, m, order[0]);
    CancellableRest(s, CancelOne(s, m, order[0]), order, s.jobs[order[0]].(status := JobEnded, endedAt := Some(s.now)));
  }

  /** What CancelMiner changes of the job table: exactly the listed open jobs are ended. */
  lemma {:induction false} CancelAllJobs(s: Sys, m: Id, order: seq<Id>)
    requires Cancellable(s, order)
    ensures var t := CancelAll(s, m, order);
            && t.jobs.Keys == s.jobs.Keys
            && (forall j | j in s.jobs && j !in order :: t.jobs[j] == s.jobs[j])
            && (forall j | j in order :: t.jobs[j] == s.jobs[j].(status := JobEnded, endedAt := Some(s.now)))
            && SameRest(s, t)
    decreases |order|
  {
    if order != [] {
      CancelStep(s, m, order);
      CancelAllJobs(CancelOne(s, m, order[0]), m, order[1..]);
      assert forall j :: j in order <==> j == order[0] || j in order[1..];
    }
  }

  lemma {:induction false} CancelAllKeeps(s: Sys, m: Id, order: seq<Id>)
    requires Inv(s) && Cancellable(s, order)
    ensures Inv(CancelAll(s, m, order))
    decreases |order|
  {
    if order != [] {
      CancelOneKeeps(s, m, order[0]);
      CancelStep(s, m, order);
      CancelAllKeeps(CancelOne(s, m, order[0]), m, order[1..]);
    }
  }

  lemma {:induction false} AllCancellable(s: Sys, m: Id, order: seq<Id>)
    requires Enumerates(order, OpenJobsOf(s, m))
    ensures Cancellable(s, order)
  {
    assert forall i | 0 <= i < |order| :: order[i] in OpenJobsOf(s, m);
  }

  lemma {:induction false} NoOpenJobAfterCancel(s: Sys, m: Id, order: seq<Id>)
    requires Enumerates(order, OpenJobsOf(s, m))
    ensures OpenJobsOf(CancelAll(s, m, order), m) == {}
  {
    AllCancellable(s, m, order);
    CancelAllJobs(s, m, order);
    var t := CancelAll(s, m, order);
    forall j | j in t.jobs && t.jobs[j].miner == m ensures t.jobs[j].endedAt.Some? {
      if j !in order { assert j !in OpenJobsOf(s, m); }
    }
  }
}
