/**
 Metric samples, hourly rollups and 48-hour retention: InsertMetricSample,
 RecentMetrics and RollupOnce over metric_samples and metric_rollups
 (internal/store/store.go). Times are microseconds since an hour boundary; averages
 are kept as (sum, count).
 */
module Rollup {

  import opened Base

  const HOUR: nat := 3_600_000_000
  const RETENTION: nat := 48 * HOUR

  datatype Sample = Sample(miner: Id, ts: nat, hashrate: real, acc: nat, rej: nat)

  datatype Key = Key(miner: Id, bucket: nat)

  datatype Row = Row(sum: real, count: nat, max: real, acc: nat, rej: nat)

  function Trunc(ts: nat): (h: nat)
    ensures h <= ts < h + HOUR && h % HOUR == 0
  {
    ts / HOUR * HOUR
  }

  function KeyOf(x: Sample): Key { Key(x.miner, Trunc(x.ts)) }

  // ---------------------------------------------------------------------
  // The two statements of RollupOnce
  // ---------------------------------------------------------------------

  /** Sum, count, maximum and share totals of a group. */
  function Agg(xs: seq<Sample>): Row
    requires xs != []
  {
    var x := xs[|xs| - 1];
    if |xs| == 1 then Row(x.hashrate, 1, x.hashrate, x.acc, x.rej)
    else
      var r := Agg(xs[..|xs| - 1]);
      Row(r.sum + x.hashrate, r.count + 1, if r.max < x.hashrate then x.hashrate else r.max, r.acc + x.acc, r.rej + x.rej)
  }

  function Group(xs: seq<Sample>, k: Key): seq<Sample> {
    Filter((x: Sample) => KeyOf(x) == k, xs)
  }

  function Finished(xs: seq<Sample>, bound: nat): seq<Sample> {
    Filter((x: Sample) => x.ts < bound, xs)
  }

  function Keys(xs: seq<Sample>): set<Key> {
    set x | x in xs :: KeyOf(x)
  }

  lemma {:induction false} GroupNonempty(xs: seq<Sample>, k: Key)
    ensures k in Keys(xs) <==> Group(xs, k) != []
  {
    var p := (x: Sample) => KeyOf(x) == k;
    if k in Keys(xs) {
      var x :| x in xs && KeyOf(x) == k;
      FilterMember(p, xs, x);
    }
    if Group(xs, k) != [] {
      FilterMember(p, xs, Group(xs, k)[0]);
    }
  }

  /** SELECT ... GROUP BY miner_id, bucket. */
  function Grouped(xs: seq<Sample>): (rows: map<Key, Row>)
    ensures rows.Keys == Keys(xs)
    ensures forall k | k in rows :: Group(xs, k) != [] && rows[k] == Agg(Group(xs, k))
  {
    assert forall k | k in Keys(xs) :: Group(xs, k) != [] by {
      forall k | k in Keys(xs) ensures Group(xs, k) != [] { GroupNonempty(xs, k); }
    }
    map k | k in Keys(xs) :: Agg(Group(xs, k))
  }

  /** INSERT ... ON CONFLICT DO UPDATE: finished hours overwrite the rows they have. */
  function Upsert(rows: map<Key, Row>, samples: seq<Sample>, now: nat): map<Key, Row> {
    rows + Grouped(Finished(samples, Trunc(now)))
  }

  function Cutoff(now: nat): nat {
    if now < RETENTION then 0 else now - RETENTION
  }

  /** DELETE ... WHERE ts < now() - interval '48 hours'. */
  function Since(samples: seq<Sample>, cutoff: nat): seq<Sample> {
    Filter((x: Sample) => x.ts >= cutoff, samples)
  }

  // ---------------------------------------------------------------------
  // What a row says of the samples of its hour
  // ---------------------------------------------------------------------

  predicate InHour(x: Sample, k: Key) {
    x.miner == k.miner && k.bucket % 3_600_000_000 == 0 && k.bucket <= x.ts < k.bucket + 3_600_000_000
  }

  datatype Column = Hashrates | Ones | Accepted | Rejected

  function Cell(x: Sample, col: Column): real {
    match col
    case Hashrates => x.hashrate
    case Ones => 1.0
    case Accepted => x.acc as real
    case Rejected => x.rej as real
  }

  /** A column summed over the samples of one hour. */
  function SumIn(xs: seq<Sample>, k: Key, col: Column): real {
    if xs == [] then 0.0 else (if InHour(xs[0], k) then Cell(xs[0], col) else 0.0) + SumIn(xs[1..], k, col)
  }

  /** The row of an hour: the greatest hashrate among its samples, and the sums of their columns. */
  ghost predicate RowOver(row: Row, xs: seq<Sample>, k: Key) {
    && (exists x :: x in xs && InHour(x, k) && x.hashrate == row.max)
    && (forall x | x in xs && InHour(x, k) :: x.hashrate <= row.max)
    && row.sum == SumIn(xs, k, Hashrates) && row.count as real == SumIn(xs, k, Ones)
    && row.acc as real == SumIn(xs, k, Accepted) && row.rej as real == SumIn(xs, k, Rejected)
  }

  /** The hour is over and has a sample. */
  ghost predicate HasFinished(xs: seq<Sample>, k: Key, now: nat) {
    k.bucket + 3_600_000_000 <= now && exists x :: x in xs && InHour(x, k)
  }

  lemma {:induction false} KeyIsHour(x: Sample, k: Key)
    ensures KeyOf(x) == k <==> InHour(x, k)
  {
  }

  lemma {:induction false} SumOfGroup(xs: seq<Sample>, k: Key, col: Column)
    ensures SumIn(Group(xs, k), k, col) == SumIn(xs, k, col)
  {
    if xs != [] {
      KeyIsHour(xs[0], k);
      SumOfGroup(xs[1..], k, col);
      var g := Group(xs[1..], k);
      assert ([xs[0]] + g)[1..] == g && [] + g == g;
    }
  }

  lemma {:induction false} SumSnoc(xs: seq<Sample>, x: Sample, k: Key, col: Column)
    ensures SumIn(xs + [x], k, col) == SumIn(xs, k, col) + (if InHour(x, k) then Cell(x, col) else 0.0)
  {
    if xs == [] {
      assert xs + [x] == [x] && [x][1..] == [];
    } else {
      assert (xs + [x])[1..] == xs[1..] + [x];
      SumSnoc(xs[1..], x, k, col);
    }
  }

  lemma {:induction false} AggSums(g: seq<Sample>, k: Key)
    requires g != [] && forall x | x in g :: InHour(x, k)
    ensures Agg(g).sum == SumIn(g, k, Hashrates) && Agg(g).count as real == SumIn(g, k, Ones)
    ensures Agg(g).acc as real == SumIn(g, k, Accepted) && Agg(g).rej as real == SumIn(g, k, Rejected)
  {
    var pre, x := g[..|g| - 1], g[|g| - 1];
    assert g == pre + [x] && x in g;
    SumSnoc(pre, x, k, Hashrates);
    SumSnoc(pre, x, k, Ones);
    SumSnoc(pre, x, k, Accepted);
    SumSnoc(pre, x, k, Rejected);
    if |g| == 1 {
      assert pre == [];
    } else {
      forall y | y in pre ensures InHour(y, k) { assert y in g; }
      AggSums(pre, k);
    }
  }

  lemma {:induction false} AggMax(g: seq<Sample>)
    requires g != []
    ensures exists x :: x in g && x.hashrate == Agg(g).max
    ensures forall x | x in g :: x.hashrate <= Agg(g).max
  {
    var pre, x := g[..|g| - 1], g[|g| - 1];
    assert g == pre + [x] && x in g;
    if |g| > 1 {
      AggMax(pre);
      assert forall y :: y in g <==> y in pre || y == x;
      var best :| best in pre && best.hashrate == Agg(pre).max;
      assert best in g;
    }
  }

  lemma {:induction false} AggRowOver(g: seq<Sample>, k: Key)
    requires g != [] && forall x | x in g :: InHour(x, k)
    ensures RowOver(Agg(g), g, k)
  {
    AggSums(g, k);
    AggMax(g);
    var x :| x in g && x.hashrate == Agg(g).max;
    assert InHour(x, k);
  }

  lemma {:induction false} GroupInHour(xs: seq<Sample>, k: Key)
    ensures forall x :: x in Group(xs, k) <==> x in xs && InHour(x, k)
    ensures Group(xs, k) != [] <==> exists x :: x in xs && InHour(x, k)
  {
    forall x ensures x in Group(xs, k) <==> x in xs && InHour(x, k) {
      FilterMember((y: Sample) => KeyOf(y) == k, xs, x);
      KeyIsHour(x, k);
    }
    if Group(xs, k) != [] {
      assert Group(xs, k)[0] in Group(xs, k);
    }
  }

  lemma {:induction false} RowsEqual(r: Row, s: Row, xs: seq<Sample>, k: Key)
    requires RowOver(r, xs, k) && RowOver(s, xs, k)
    ensures r == s
  {
    var x :| x in xs && InHour(x, k) && x.hashrate == r.max;
    var y :| y in xs && InHour(y, k) && y.hashrate == s.max;
  }

  lemma {:induction false} SameSums(row: Row, xs: seq<Sample>, k: Key)
    ensures RowOver(row, Group(xs, k), k) <==> RowOver(row, xs, k)
  {
    GroupInHour(xs, k);
    SumOfGroup(xs, k, Hashrates);
    SumOfGroup(xs, k, Ones);
    SumOfGroup(xs, k, Accepted);
    SumOfGroup(xs, k, Rejected);
    if RowOver(row, Group(xs, k), k) {
      var x :| x in Group(xs, k) && InHour(x, k) && x.hashrate == row.max;
      assert x in xs;
    }
    if RowOver(row, xs, k) {
      var x :| x in xs && InHour(x, k) && x.hashrate == row.max;
      assert x in Group(xs, k);
    }
  }

  /** The aggregate of a group is the one row there is over its hour. */
  lemma {:induction false} AggIsRowOver(row: Row, xs: seq<Sample>, k: Key)
    requires Group(xs, k) != []
    ensures row == Agg(Group(xs, k)) <==> RowOver(row, xs, k)
  {
    GroupInHour(xs, k);
    AggRowOver(Group(xs, k), k);
    SameSums(Agg(Group(xs, k)), xs, k);
    if RowOver(row, xs, k) {
      RowsEqual(row, Agg(Group(xs, k)), xs, k);
    }
  }

  lemma {:induction false} FinishedHour(xs: seq<Sample>, k: Key, now: nat)
    requires k.bucket + HOUR <= Trunc(now)
    ensures Group(Finished(xs, Trunc(now)), k) == Group(xs, k)
  {
    var p, q := (x: Sample) => KeyOf(x) == k, (x: Sample) => x.ts < Trunc(now);
    FilterFilter(p, q, p, xs);
  }

  lemma {:induction false} UnfinishedHour(xs: seq<Sample>, k: Key, now: nat)
    requires !HasFinished(xs, k, now)
    ensures k !in Keys(Finished(xs, Trunc(now)))
  {
    forall x | x in Finished(xs, Trunc(now)) ensures KeyOf(x) != k {
      FilterMember((y: Sample) => y.ts < Trunc(now), xs, x);
      KeyIsHour(x, k);
    }
  }

  lemma {:induction false} UpsertRowOver(was: map<Key, Row>, xs: seq<Sample>, now: nat, k: Key)
    ensures var rows := Upsert(was, xs, now);
            if HasFinished(xs, k, now) then k in rows && RowOver(rows[k], xs, k)
            else (k in rows <==> k in was) && (k in rows ==> rows[k] == was[k])
  {
    if HasFinished(xs, k, now) {
      GroupInHour(xs, k);
      FinishedHour(xs, k, now);
      GroupNonempty(Finished(xs, Trunc(now)), k);
      AggIsRowOver(Agg(Group(xs, k)), xs, k);
    } else {
      UnfinishedHour(xs, k, now);
    }
  }

  class MetricStore {
    var samples: seq<Sample>
    var rollups: map<Key, Row>

    constructor ()
      ensures samples == [] && rollups == map[]
    {
      samples, rollups := [], map[];
    }

    method InsertMetricSample(now: nat, miner: Id, hashrate: real, acc: nat, rej: nat)
      modifies this`samples
      ensures samples == old(samples) + [Sample(miner, now, hashrate, acc, rej)]
    {
      samples := samples + [Sample(miner, now, hashrate, acc, rej)];
    }

    /**
     The two statements run at their own times: now1 for the upsert, which gives every
     finished hour with a sample the row of that hour's samples and leaves the other
     rows alone, and now2 for the delete of what is older than 48 hours.
     */
    method RollupOnce(now1: nat, now2: nat)
      modifies this
      ensures rollups == Upsert(old(rollups), old(samples), now1) && samples == Since(old(samples), Cutoff(now2))
      ensures forall k | HasFinished(old(samples), k, now1) :: k in rollups && RowOver(rollups[k], old(samples), k)
      ensures forall k | !HasFinished(old(samples), k, now1) ::
                (k in rollups <==> k in old(rollups)) && (k in rollups ==> rollups[k] == old(rollups)[k])
      ensures forall x :: x in samples <==> x in old(samples) && x.ts + 48 * 3_600_000_000 >= now2
    {
      ghost var was := rollups;
      UpsertRows(Finished(samples, Trunc(now1)));
      forall k
        ensures HasFinished(samples, k, now1) ==> k in rollups && RowOver(rollups[k], samples, k)
        ensures !HasFinished(samples, k, now1) ==> (k in rollups <==> k in was) && (k in rollups ==> rollups[k] == was[k])
      {
        UpsertRowOver(was, samples, now1, k);
      }
      forall x ensures x in Since(samples, Cutoff(now2)) <==> x in samples && x.ts >= Cutoff(now2) {
        FilterMember((y: Sample) => y.ts >= Cutoff(now2), samples, x);
      }
      samples := Since(samples, Cutoff(now2));
    }

    /** The upsert row by row, in any order. */
    method UpsertRows(done: seq<Sample>)
      modifies this`rollups
      ensures rollups == old(rollups) + Grouped(done)
      ensures rollups.Keys == old(rollups).Keys + Keys(done)
      ensures forall k | k in Keys(done) :: Group(done, k) != [] && rollups[k] == Agg(Group(done, k))
      ensures forall k | k in old(rollups) && k !in Keys(done) :: rollups[k] == old(rollups)[k]
    {
      var todo := Keys(done);
      while todo != {}
        invariant todo <= Keys(done) && rollups.Keys == old(rollups).Keys + (Keys(done) - todo)
        invariant forall k | k in Keys(done) - todo :: Group(done, k) != [] && rollups[k] == Agg(Group(done, k))
        invariant forall k | k in old(rollups) && (k !in Keys(done) || k in todo) :: rollups[k] == old(rollups)[k]
        decreases todo
      {
        var k :| k in todo;
        GroupNonempty(done, k);
        rollups := rollups[k := Agg(Group(done, k))];
        todo := todo - {k};
      }
    }

    /** ORDER BY ts DESC LIMIT n, then reversed in place: the newest n samples in chronological order. */
    method RecentMetrics(miner: Id, limit: nat) returns (points: array<Sample>)
      ensures fresh(points) && points[..] == LastN(limit, Filter((x: Sample) => x.miner == miner, samples))
    {
      var newest := Backwards(LastN(limit, Filter((x: Sample) => x.miner == miner, samples)));
      points := new Sample[|newest|](i requires 0 <= i < |newest| => newest[i]);
      assert points[..] == newest;
      ReverseInPlace(points);
      BackwardsTwice(LastN(limit, Filter((x: Sample) => x.miner == miner, samples)));
    }
  }

  function Backwards<T>(s: seq<T>): (r: seq<T>)
    ensures |r| == |s| && forall k | 0 <= k < |s| :: r[k] == s[|s| - 1 - k]
  {
    seq(|s|, i requires 0 <= i < |s| => s[|s| - 1 - i])
  }

  lemma {:induction false} BackwardsTwice<T>(s: seq<T>)
    ensures Backwards(Backwards(s)) == s
  {
  }

  method ReverseInPlace(points: array<Sample>)
    modifies points
    ensures points[..] == Backwards(old(points[..]))
  {
    ghost var was := points[..];
    var i, j := 0, points.Length - 1;
    while i < j
      invariant 0 <= i <= j + 1 && j == points.Length - 1 - i
      invariant forall k | i <= k <= j :: points[k] == was[k]
      invariant forall k | 0 <= k < i || j < k < points.Length :: points[k] == was[points.Length - 1 - k]
    {
      points[i], points[j] := points[j], points[i];
      i, j := i + 1, j - 1;
    }
    assert forall k | 0 <= k < points.Length :: points[k] == was[points.Length - 1 - k];
  }

  // ---------------------------------------------------------------------
  // Runs
  // ---------------------------------------------------------------------

  /**
   `all` is every sample ever recorded, `cutoff` the latest delete cutoff,
   `aggregated` the bound of the last upsert and `passes` what each upsert read, from
   which it computed the rows it wrote: history for the statements below.
   */
  datatype State = State(now: nat, samples: seq<Sample>, rollups: map<Key, Row>,
                         all: seq<Sample>, cutoff: nat, aggregated: nat, passes: seq<seq<Sample>>)

  datatype Event = Insert(miner: Id, hashrate: real, acc: nat, rej: nat) | Aggregate | Prune | Tick(to: nat)

  const INIT := State(0, [], map[], [], 0, 0, [])

  predicate Enabled(s: State, e: Event) { e.Tick? ==> s.now <= e.to }

  function Next(s: State, e: Event): State
    requires Enabled(s, e)
  {
    match e
    case Insert(m, h, acc, rej) =>
      var x := Sample(m, s.now, h, acc, rej);
      s.(samples := s.samples + [x], all := s.all + [x])
    case Aggregate =>
      s.(rollups := Upsert(s.rollups, s.samples, s.now), aggregated := Trunc(s.now),
         passes := s.passes + [Finished(s.samples, Trunc(s.now))])
    case Prune => s.(samples := Since(s.samples, Cutoff(s.now)), cutoff := Cutoff(s.now))
    case Tick(to) => s.(now := to)
  }

  ghost predicate Feasible(s: State, evs: seq<Event>)
    decreases |evs|
  {
    evs == [] || (Enabled(s, evs[0]) && Feasible(Next(s, evs[0]), evs[1..]))
  }

  ghost function After(s: State, evs: seq<Event>): State
    requires Feasible(s, evs)
    decreases |evs|
  {
    if evs == [] then s else After(Next(s, evs[0]), evs[1..])
  }

  /** The row of a bucket agrees with every sample ever recorded in it, and is there only if one was. */
  ghost predicate Exact(s: State, k: Key) {
    && (k in s.rollups <==> Group(s.all, k) != [])
    && (k in s.rollups ==> s.rollups[k] == Agg(Group(s.all, k)))
  }

  ghost predicate Basic(s: State) {
    && s.samples == Since(s.all, s.cutoff)
    && s.cutoff <= Cutoff(s.now) && s.aggregated <= s.now && s.aggregated % HOUR == 0
    && (forall x | x in s.all :: x.ts <= s.now)
    && (forall k | k in s.rollups :: Group(s.all, k) != [])
  }

  ghost predicate Inv(s: State) {
    && Basic(s)
    && forall k: Key | s.cutoff <= k.bucket && k.bucket + HOUR <= s.aggregated :: Exact(s, k)
  }

  lemma {:induction false} GroupSnoc(xs: seq<Sample>, x: Sample, k: Key)
    ensures Group(xs + [x], k) == Group(xs, k) + (if KeyOf(x) == k then [x] else [])
  {
    FilterConcat((y: Sample) => KeyOf(y) == k, xs, [x]);
  }

  /** A bucket no delete has touched reads the same from the table as from the whole history. */
  lemma {:induction false} GroupSurvives(xs: seq<Sample>, cutoff: nat, bound: nat, k: Key)
    requires cutoff <= k.bucket && k.bucket + HOUR <= bound
    ensures Group(Finished(Since(xs, cutoff), bound), k) == Group(xs, k)
  {
    var p, q, r := (x: Sample) => KeyOf(x) == k, (x: Sample) => x.ts < bound, (x: Sample) => x.ts >= cutoff;
    FilterFilter(p, q, p, Since(xs, cutoff));
    FilterFilter(p, r, p, xs);
  }

  lemma {:induction false} InsertKeepsInv(s: State, x: Sample)
    requires Inv(s) && x.ts == s.now
    ensures Inv(s.(samples := s.samples + [x], all := s.all + [x]))
  {
    var t := s.(samples := s.samples + [x], all := s.all + [x]);
    FilterConcat((y: Sample) => y.ts >= s.cutoff, s.all, [x]);
    assert t.samples == Since(t.all, t.cutoff);
    forall k | k in t.rollups ensures Group(t.all, k) != [] { GroupSnoc(s.all, x, k); }
    forall k: Key | t.cutoff <= k.bucket && k.bucket + HOUR <= t.aggregated ensures Exact(t, k) {
      ExactAfterInsert(s, x, k);
    }
  }

  lemma {:induction false} ExactAfterInsert(s: State, x: Sample, k: Key)
    requires Basic(s) && x.ts == s.now && k.bucket + HOUR <= s.aggregated && Exact(s, k)
    ensures Exact(s.(samples := s.samples + [x], all := s.all + [x]), k)
  {
    GroupSnoc(s.all, x, k);
    assert Trunc(x.ts) != k.bucket;
    assert Group(s.all, k) + [] == Group(s.all, k);
  }

  lemma {:induction false} AggregateKeepsBasic(s: State)
    requires Basic(s)
    ensures Basic(Next(s, Aggregate))
    ensures forall k: Key | s.cutoff <= k.bucket && k.bucket + HOUR <= Trunc(s.now) :: Exact(Next(s, Aggregate), k)
  {
    var t := Next(s, Aggregate);
    var done := Finished(s.samples, Trunc(s.now));
    forall k | k in t.rollups ensures Group(t.all, k) != [] {
      if k in Keys(done) {
        var x :| x in done && KeyOf(x) == k;
        FilterMember((y: Sample) => y.ts < Trunc(s.now), s.samples, x);
        FilterMember((y: Sample) => y.ts >= s.cutoff, s.all, x);
        GroupNonempty(s.all, k);
      }
    }
    forall k: Key | s.cutoff <= k.bucket && k.bucket + HOUR <= Trunc(s.now) ensures Exact(t, k) {
      GroupSurvives(s.all, s.cutoff, Trunc(s.now), k);
      GroupNonempty(done, k);
    }
  }

  lemma {:induction false} PruneKeepsBasic(s: State)
    requires Basic(s)
    ensures Basic(Next(s, Prune))
  {
    var c := Cutoff(s.now);
    FilterFilter((x: Sample) => x.ts >= c, (x: Sample) => x.ts >= s.cutoff, (x: Sample) => x.ts >= c, s.all);
  }

  lemma {:induction false} StepKeepsInv(s: State, e: Event)
    requires Inv(s) && Enabled(s, e)
    ensures Inv(Next(s, e))
  {
    var t := Next(s, e);
    match e
    case Insert(m, h, acc, rej) => InsertKeepsInv(s, Sample(m, s.now, h, acc, rej));
    case Aggregate => AggregateKeepsBasic(s);
    case Prune =>
      PruneKeepsBasic(s);
      forall k: Key | t.cutoff <= k.bucket && k.bucket + HOUR <= t.aggregated ensures Exact(t, k) { assert Exact(s, k); }
    case Tick(to) =>
      forall k: Key | t.cutoff <= k.bucket && k.bucket + HOUR <= t.aggregated ensures Exact(t, k) { assert Exact(s, k); }
  }

  lemma {:induction false} RunKeepsInv(s: State, evs: seq<Event>)
    requires Inv(s) && Feasible(s, evs)
    ensures Inv(After(s, evs))
    decreases |evs|
  {
    if evs != [] {
      StepKeepsInv(s, evs[0]);
      RunKeepsInv(Next(s, evs[0]), evs[1..]);
    }
  }

  /**
   In any run, a bucket finished before the last upsert and starting no earlier
   than the latest delete cutoff has a row equal to the exact aggregate of every
   sample ever recorded in it, and none if none was.
   */
  lemma {:induction false} RollupAgrees(evs: seq<Event>, k: Key)
    requires Feasible(INIT, evs)
    requires After(INIT, evs).cutoff <= k.bucket && k.bucket + HOUR <= After(INIT, evs).aggregated
    ensures var t := After(INIT, evs);
            && (k in t.rollups <==> exists x :: x in t.all && InHour(x, k))
            && (k in t.rollups ==> RowOver(t.rollups[k], t.all, k))
  {
    RunKeepsInv(INIT, evs);
    assert Exact(After(INIT, evs), k);
    ExactRow(After(INIT, evs), k);
  }

  lemma {:induction false} ExactRow(s: State, k: Key)
    requires Exact(s, k)
    ensures k in s.rollups <==> exists x :: x in s.all && InHour(x, k)
    ensures k in s.rollups ==> RowOver(s.rollups[k], s.all, k)
  {
    GroupInHour(s.all, k);
    if k in s.rollups {
      AggIsRowOver(s.rollups[k], s.all, k);
    }
  }

  lemma {:induction false} InsertsLater(s: State, x: Sample, k: Key)
    requires x.ts == s.now && s.aggregated <= s.now && k.bucket + HOUR <= s.aggregated
    ensures Group(s.all + [x], k) == Group(s.all, k)
  {
    GroupSnoc(s.all, x, k);
    assert KeyOf(x) != k;
    assert Group(s.all, k) + [] == Group(s.all, k);
  }

  lemma {:induction false} BucketClosedStep(s: State, e: Event, k: Key)
    requires Basic(s) && Enabled(s, e) && k.bucket + HOUR <= s.aggregated
    ensures Group(Next(s, e).all, k) == Group(s.all, k) && s.aggregated <= Next(s, e).aggregated
  {
    if e.Insert? {
      InsertsLater(s, Sample(e.miner, s.now, e.hashrate, e.acc, e.rej), k);
    } else {
      assert Next(s, e).all == s.all;
    }
  }

  /** Once an upsert has passed a bucket nothing more is recorded in it. */
  lemma {:induction false} BucketClosed(s: State, evs: seq<Event>, k: Key)
    requires Inv(s) && Feasible(s, evs) && k.bucket + HOUR <= s.aggregated
    ensures Group(After(s, evs).all, k) == Group(s.all, k) && s.aggregated <= After(s, evs).aggregated
    decreases |evs|
  {
    if evs != [] {
      StepKeepsInv(s, evs[0]);
      BucketClosedStep(s, evs[0], k);
      BucketClosed(Next(s, evs[0]), evs[1..], k);
    }
  }

  /** However many passes repeat it, the row of a finished bucket changes no more until a delete reaches the bucket. */
  lemma {:induction false} RepeatChangesNothing(before: seq<Event>, evs: seq<Event>, k: Key)
    requires Feasible(INIT, before) && Feasible(After(INIT, before), evs)
    requires var s, t := After(INIT, before), After(After(INIT, before), evs);
             k.bucket + HOUR <= s.aggregated && s.cutoff <= k.bucket && t.cutoff <= k.bucket
    ensures var s, t := After(INIT, before), After(After(INIT, before), evs);
            (k in t.rollups <==> k in s.rollups) && (k in s.rollups ==> t.rollups[k] == s.rollups[k])
  {
    var s := After(INIT, before);
    RunKeepsInv(INIT, before);
    RunKeepsInv(s, evs);
    BucketClosed(s, evs, k);
    assert Exact(s, k) && Exact(After(s, evs), k);
  }

  // ---------------------------------------------------------------------
  // No sample is deleted before it was aggregated
  // ---------------------------------------------------------------------

  ghost predicate WasRead(passes: seq<seq<Sample>>, x: Sample) { exists i :: 0 <= i < |passes| && x in passes[i] }

  /** Everything below the last upsert's bound was read by one, unless it had been deleted; nothing above it was. */
  ghost predicate ReadUpTo(s: State) {
    && (forall x | x in s.samples && x.ts < s.aggregated :: WasRead(s.passes, x))
    && (forall x | WasRead(s.passes, x) :: x.ts < s.aggregated)
  }

  ghost predicate DeletedRead(s: State) {
    forall x | x in s.all && x !in s.samples :: WasRead(s.passes, x)
  }

  /** A delete that reaches no sample the last upsert had not reached. */
  predicate PruneInTime(s: State) {
    forall x | x in s.samples && x.ts < Cutoff(s.now) :: x.ts < s.aggregated
  }

  ghost predicate PrunesInTime(s: State, evs: seq<Event>)
    requires Feasible(s, evs)
    decreases |evs|
  {
    evs == [] || ((evs[0].Prune? ==> PruneInTime(s)) && PrunesInTime(Next(s, evs[0]), evs[1..]))
  }

  lemma {:induction false} DeletedBelowCutoff(s: State, x: Sample)
    requires Basic(s)
    ensures x in s.samples <==> x in s.all && x.ts >= s.cutoff
  {
    FilterMember((y: Sample) => y.ts >= s.cutoff, s.all, x);
  }

  lemma {:induction false} ReadsSnoc(passes: seq<seq<Sample>>, more: seq<Sample>, x: Sample)
    ensures WasRead(passes + [more], x) <==> WasRead(passes, x) || x in more
  {
    if WasRead(passes, x) {
      var i :| 0 <= i < |passes| && x in passes[i];
      assert x in (passes + [more])[i];
    }
    if x in more {
      assert x in (passes + [more])[|passes|];
    }
    if WasRead(passes + [more], x) && x !in more {
      var i :| 0 <= i < |passes + [more]| && x in (passes + [more])[i];
      assert x in passes[i];
    }
  }

  lemma {:induction false} AggregateReads(s: State)
    requires Basic(s) && ReadUpTo(s)
    ensures ReadUpTo(Next(s, Aggregate)) && (DeletedRead(Next(s, Aggregate)) <==> DeletedRead(s))
  {
    var done := Finished(s.samples, Trunc(s.now));
    TruncMonotone(s.aggregated, s.now);
    forall x ensures WasRead(s.passes + [done], x) <==> WasRead(s.passes, x) || (x in s.samples && x.ts < Trunc(s.now)) {
      ReadsSnoc(s.passes, done, x);
      FilterMember((y: Sample) => y.ts < Trunc(s.now), s.samples, x);
    }
  }

  lemma {:induction false} PruneReads(s: State)
    requires Basic(s) && ReadUpTo(s)
    ensures ReadUpTo(Next(s, Prune)) && (DeletedRead(Next(s, Prune)) <==> DeletedRead(s) && PruneInTime(s))
  {
    var t := Next(s, Prune);
    forall x ensures x in t.samples <==> x in s.samples && x.ts >= Cutoff(s.now) {
      FilterMember((y: Sample) => y.ts >= Cutoff(s.now), s.samples, x);
    }
    forall x ensures x in s.samples <==> x in s.all && x.ts >= s.cutoff { DeletedBelowCutoff(s, x); }
  }

  lemma {:induction false} InsertReads(s: State, e: Event)
    requires Basic(s) && ReadUpTo(s) && e.Insert?
    ensures ReadUpTo(Next(s, e)) && (DeletedRead(Next(s, e)) <==> DeletedRead(s))
  {
    forall x ensures x in s.samples <==> x in s.all && x.ts >= s.cutoff { DeletedBelowCutoff(s, x); }
    var fresher := Sample(e.miner, s.now, e.hashrate, e.acc, e.rej);
    assert fresher.ts >= s.cutoff;
    assert forall x :: x in Next(s, e).samples <==> x in s.samples || x == fresher;
    assert forall x :: x in Next(s, e).all <==> x in s.all || x == fresher;
  }

  lemma {:induction false} DeletionsReadIff(s: State, evs: seq<Event>)
    requires Inv(s) && ReadUpTo(s) && Feasible(s, evs)
    ensures DeletedRead(After(s, evs)) <==> DeletedRead(s) && PrunesInTime(s, evs)
    decreases |evs|
  {
    if evs != [] {
      StepKeepsInv(s, evs[0]);
      match evs[0] {
        case Insert(_, _, _, _) => InsertReads(s, evs[0]);
        case Aggregate => AggregateReads(s);
        case Prune => PruneReads(s);
        case Tick(_) =>
      }
      DeletionsReadIff(Next(s, evs[0]), evs[1..]);
    }
  }

  /**
   In any run, every deleted sample was read by an earlier upsert, and so counted in
   the row that upsert wrote, exactly when no delete reached past the last upsert.
   */
  lemma {:induction false} DeletedWereAggregatedIff(evs: seq<Event>)
    requires Feasible(INIT, evs)
    ensures (forall x | x in After(INIT, evs).all && x !in After(INIT, evs).samples :: WasRead(After(INIT, evs).passes, x))
       <==> PrunesInTime(INIT, evs)
  {
    DeletionsReadIff(INIT, evs);
  }

  /** What an upsert reads it counts: the row of the sample's bucket is the aggregate of everything read for the bucket. */
  lemma {:induction false} ReadMeansCounted(s: State, x: Sample)
    requires x in Finished(s.samples, Trunc(s.now))
    ensures var t, done := Next(s, Aggregate), Finished(s.samples, Trunc(s.now));
            && t.passes[|t.passes| - 1] == done && x in done && InHour(x, KeyOf(x))
            && KeyOf(x) in t.rollups && RowOver(t.rollups[KeyOf(x)], done, KeyOf(x))
  {
    FilterMember((y: Sample) => KeyOf(y) == KeyOf(x), Finished(s.samples, Trunc(s.now)), x);
    AggIsRowOver(Next(s, Aggregate).rollups[KeyOf(x)], Finished(s.samples, Trunc(s.now)), KeyOf(x));
  }

  /** Every sample below the last upsert's bound has a row, and nothing at or above it was deleted. */
  ghost predicate Settled(s: State) {
    && s.cutoff <= s.aggregated
    && forall x | x in s.all && x.ts < s.aggregated :: KeyOf(x) in s.rollups
  }

  /** The delete of every pass runs at most 48 hours after the hour its upsert reached. */
  ghost predicate InTime(s: State, evs: seq<Event>)
    requires Feasible(s, evs)
    decreases |evs|
  {
    evs == [] || ((evs[0].Prune? ==> s.now <= s.aggregated + RETENTION) && InTime(Next(s, evs[0]), evs[1..]))
  }

  lemma {:induction false} SettledStep(s: State, e: Event)
    requires Inv(s) && Settled(s) && Enabled(s, e)
    requires e.Prune? ==> s.now <= s.aggregated + RETENTION
    ensures Settled(Next(s, e))
  {
    var t := Next(s, e);
    if e.Aggregate? {
      forall x | x in t.all && x.ts < t.aggregated ensures KeyOf(x) in t.rollups {
        if x.ts >= s.aggregated {
          FilterMember((y: Sample) => y.ts >= s.cutoff, s.all, x);
          FilterMember((y: Sample) => y.ts < Trunc(s.now), s.samples, x);
          assert x in Finished(s.samples, Trunc(s.now));
        }
      }
      assert s.aggregated <= t.aggregated by { TruncMonotone(s.aggregated, s.now); }
    }
  }

  lemma {:induction false} TruncMonotone(h: nat, ts: nat)
    requires h % HOUR == 0 && h <= ts
    ensures h <= Trunc(ts)
  {
  }

  lemma {:induction false} InTimePrunes(s: State, evs: seq<Event>)
    requires Feasible(s, evs) && InTime(s, evs)
    ensures PrunesInTime(s, evs)
    decreases |evs|
  {
    if evs != [] {
      InTimePrunes(Next(s, evs[0]), evs[1..]);
    }
  }

  /** In particular when each pass deletes at most 48 hours after the hour its upsert reached. */
  lemma {:induction false} DeletedWereAggregated(evs: seq<Event>)
    requires Feasible(INIT, evs) && InTime(INIT, evs)
    ensures var t := After(INIT, evs);
            forall x | x in t.all && x !in t.samples :: WasRead(t.passes, x)
  {
    InTimePrunes(INIT, evs);
    DeletedWereAggregatedIff(evs);
  }

  // ---------------------------------------------------------------------
  // When rollups are kept forever
  // ---------------------------------------------------------------------

  lemma {:induction false} CountOf(xs: seq<Sample>)
    requires xs != []
    ensures Agg(xs).count == |xs|
  {
    if |xs| > 1 {
      CountOf(xs[..|xs| - 1]);
    }
  }

  lemma {:induction false} FilterLength(p: Sample -> bool, xs: seq<Sample>)
    ensures |Filter(p, xs)| <= |xs|
    ensures |Filter(p, xs)| == |xs| <==> forall x | x in xs :: p(x)
  {
    if xs != [] {
      FilterLength(p, xs[1..]);
      assert forall x :: x in xs <==> x == xs[0] || x in xs[1..];
    }
  }

  /** A cutoff that has taken some samples of a group and left others. */
  ghost predicate Split(g: seq<Sample>, cutoff: nat) {
    (exists x :: x in g && x.ts < cutoff) && (exists x :: x in g && x.ts >= cutoff)
  }

  /** The row an upsert leaves for a finished bucket is the aggregate of the samples not yet deleted, if there are any. */
  lemma {:induction false} RowAfterAggregate(s: State, k: Key)
    requires Basic(s) && k.bucket + HOUR <= Trunc(s.now)
    ensures var t, left := Next(s, Aggregate), Filter((x: Sample) => x.ts >= s.cutoff, Group(s.all, k));
            && (left == [] ==> (k in t.rollups <==> k in s.rollups) && (k in s.rollups ==> t.rollups[k] == s.rollups[k]))
            && (left != [] ==> k in t.rollups && t.rollups[k] == Agg(left))
  {
    LeftOfBucket(s.all, s.cutoff, Trunc(s.now), k);
    GroupNonempty(Finished(s.samples, Trunc(s.now)), k);
  }

  lemma {:induction false} LeftEmptyIff(g: seq<Sample>, c: nat)
    ensures Filter((x: Sample) => x.ts >= c, g) == [] <==> forall x | x in g :: x.ts < c
  {
    var keep := (x: Sample) => x.ts >= c;
    var left := Filter(keep, g);
    if left != [] {
      FilterMember(keep, g, left[0]);
    } else {
      forall x | x in g ensures x.ts < c { FilterMember(keep, g, x); }
    }
  }

  /** A row that lacks samples a delete has taken: no later upsert brings them back. */
  ghost predicate Short(s: State, k: Key) {
    k in s.rollups && s.rollups[k].count < |Group(s.all, k)| && exists x :: x in Group(s.all, k) && x.ts < s.cutoff
  }

  lemma {:induction false} LeftIsShort(g: seq<Sample>, c: nat)
    requires exists x :: x in g && x.ts < c
    ensures var left := Filter((x: Sample) => x.ts >= c, g); left != [] ==> Agg(left).count < |g|
  {
    var keep := (x: Sample) => x.ts >= c;
    var x :| x in g && x.ts < c;
    FilterLength(keep, g);
    if Filter(keep, g) != [] {
      CountOf(Filter(keep, g));
    }
  }

  lemma {:induction false} ShortIsInexact(s: State, k: Key)
    requires Short(s, k)
    ensures !Exact(s, k)
  {
    CountOf(Group(s.all, k));
  }

  /**
   What an upsert does to a finished bucket with an exact row, whatever was deleted
   and inserted before it: the row stays exact if and only if deletes have taken none
   of the bucket's samples or all of them.
   */
  lemma {:induction false} SplitBucketIff(s: State, k: Key)
    requires Inv(s) && Exact(s, k) && k in s.rollups && k.bucket + HOUR <= Trunc(s.now)
    ensures Exact(Next(s, Aggregate), k)
       <==> (forall x | x in Group(s.all, k) :: x.ts >= s.cutoff) || (forall x | x in Group(s.all, k) :: x.ts < s.cutoff)
  {
    var g := Group(s.all, k);
    var keep := (x: Sample) => x.ts >= s.cutoff;
    RowAfterAggregate(s, k);
    LeftEmptyIff(g, s.cutoff);
    if forall x | x in g :: x.ts >= s.cutoff {
      FilterAll(keep, g);
    } else if exists x :: x in g && x.ts >= s.cutoff {
      LeftIsShort(g, s.cutoff);
      ShortIsInexact(Next(s, Aggregate), k);
    }
  }

  // Runs

  /** Some upsert of the run finds the bucket split. */
  ghost predicate SplitAggregated(s: State, evs: seq<Event>, k: Key)
    requires Feasible(s, evs)
    decreases |evs|
  {
    evs != [] && ((evs[0].Aggregate? && Split(Group(s.all, k), s.cutoff)) || SplitAggregated(Next(s, evs[0]), evs[1..], k))
  }

  lemma {:induction false} CutoffGrows(s: State, e: Event)
    requires Inv(s) && Enabled(s, e)
    ensures s.cutoff <= Next(s, e).cutoff
  {
  }

  lemma {:induction false} ShortStays(s: State, e: Event, k: Key)
    requires Inv(s) && Enabled(s, e) && k.bucket + HOUR <= s.aggregated && Short(s, k)
    ensures Short(Next(s, e), k)
  {
    BucketClosedStep(s, e, k);
    CutoffGrows(s, e);
    if e.Aggregate? {
      TruncMonotone(s.aggregated, s.now);
      RowAfterAggregate(s, k);
      LeftIsShort(Group(s.all, k), s.cutoff);
    }
  }

  lemma {:induction false} ShortForever(s: State, evs: seq<Event>, k: Key)
    requires Inv(s) && Feasible(s, evs) && k.bucket + HOUR <= s.aggregated && Short(s, k)
    ensures Short(After(s, evs), k)
    decreases |evs|
  {
    if evs != [] {
      ShortStays(s, evs[0], k);
      BucketClosedStep(s, evs[0], k);
      StepKeepsInv(s, evs[0]);
      ShortForever(Next(s, evs[0]), evs[1..], k);
    }
  }

  lemma {:induction false} SplitMakesShort(s: State, k: Key)
    requires Inv(s) && k.bucket + HOUR <= s.aggregated && Split(Group(s.all, k), s.cutoff)
    ensures Short(Next(s, Aggregate), k)
  {
    TruncMonotone(s.aggregated, s.now);
    RowAfterAggregate(s, k);
    LeftEmptyIff(Group(s.all, k), s.cutoff);
    LeftIsShort(Group(s.all, k), s.cutoff);
  }

  lemma {:induction false} ExactStep(s: State, e: Event, k: Key)
    requires Inv(s) && Enabled(s, e) && k.bucket + HOUR <= s.aggregated && Exact(s, k) && k in s.rollups
    requires e.Aggregate? ==> !Split(Group(s.all, k), s.cutoff)
    ensures Exact(Next(s, e), k) && k in Next(s, e).rollups
  {
    BucketClosedStep(s, e, k);
    if e.Aggregate? {
      TruncMonotone(s.aggregated, s.now);
      SplitBucketIff(s, k);
    }
  }

  lemma {:induction false} RowExactIff(s: State, evs: seq<Event>, k: Key)
    requires Inv(s) && Feasible(s, evs) && k.bucket + HOUR <= s.aggregated && Exact(s, k) && k in s.rollups
    ensures Exact(After(s, evs), k) <==> !SplitAggregated(s, evs, k)
    decreases |evs|
  {
    if evs != [] {
      var t := Next(s, evs[0]);
      BucketClosedStep(s, evs[0], k);
      StepKeepsInv(s, evs[0]);
      if evs[0].Aggregate? && Split(Group(s.all, k), s.cutoff) {
        SplitMakesShort(s, k);
        ShortForever(t, evs[1..], k);
        ShortIsInexact(After(s, evs), k);
      } else {
        ExactStep(s, evs[0], k);
        RowExactIff(t, evs[1..], k);
      }
    }
  }

  /**
   Are rollups kept for ever? In any run, from the moment a finished bucket has its
   exact row, the row is exact at the end if and only if no upsert on the way found
   the bucket split by a delete.
   */
  lemma {:induction false} KeptForeverIff(before: seq<Event>, evs: seq<Event>, k: Key)
    requires Feasible(INIT, before) && Feasible(After(INIT, before), evs)
    requires var s := After(INIT, before); s.cutoff <= k.bucket && k.bucket + HOUR <= s.aggregated && Group(s.all, k) != []
    ensures var s, t := After(INIT, before), After(After(INIT, before), evs);
            && k in s.rollups && RowOver(s.rollups[k], s.all, k)
            && k in t.rollups && Group(t.all, k) == Group(s.all, k)
            && (RowOver(t.rollups[k], t.all, k) <==> !SplitAggregated(s, evs, k))
  {
    var s := After(INIT, before);
    var t := After(s, evs);
    RunKeepsInv(INIT, before);
    assert Exact(s, k);
    BucketClosed(s, evs, k);
    RowStays(s, evs, k);
    RowExactIff(s, evs, k);
    AggIsRowOver(s.rollups[k], s.all, k);
    AggIsRowOver(t.rollups[k], t.all, k);
  }

  lemma {:induction false} RowStays(s: State, evs: seq<Event>, k: Key)
    requires Feasible(s, evs) && k in s.rollups
    ensures k in After(s, evs).rollups
    decreases |evs|
  {
    if evs != [] {
      RowStays(Next(s, evs[0]), evs[1..], k);
    }
  }

  lemma {:induction false} LeftOfBucket(xs: seq<Sample>, c: nat, bound: nat, k: Key)
    requires k.bucket + HOUR <= bound
    ensures Group(Finished(Since(xs, c), bound), k) == Filter((x: Sample) => x.ts >= c, Group(xs, k))
  {
    var p, q, r := (x: Sample) => KeyOf(x) == k, (x: Sample) => x.ts < bound, (x: Sample) => x.ts >= c;
    var both := (x: Sample) => KeyOf(x) == k && x.ts >= c;
    FilterFilter(p, q, p, Since(xs, c));
    FilterFilter(p, r, both, xs);
    FilterFilter(r, p, both, xs);
  }

  /** Accepted or rejected shares of some samples. */
  function ShareSum(xs: seq<Sample>, rejected: bool): nat {
    if xs == [] then 0 else (if rejected then xs[0].rej else xs[0].acc) + ShareSum(xs[1..], rejected)
  }

  lemma {:induction false} ShareSumSnoc(xs: seq<Sample>, x: Sample, rejected: bool)
    ensures ShareSum(xs + [x], rejected) == ShareSum(xs, rejected) + if rejected then x.rej else x.acc
  {
    if xs == [] {
      assert xs + [x] == [x];
    } else {
      assert (xs + [x])[1..] == xs[1..] + [x];
      ShareSumSnoc(xs[1..], x, rejected);
    }
  }

  lemma {:induction false} AggShares(xs: seq<Sample>, rejected: bool)
    requires xs != []
    ensures (if rejected then Agg(xs).rej else Agg(xs).acc) == ShareSum(xs, rejected)
  {
    var pre, x := xs[..|xs| - 1], xs[|xs| - 1];
    assert xs == pre + [x];
    ShareSumSnoc(pre, x, rejected);
    if |xs| > 1 {
      AggShares(pre, rejected);
    }
  }

  lemma {:induction false} ShareSumParts(c: nat, xs: seq<Sample>, rejected: bool)
    ensures ShareSum(xs, rejected)
         == ShareSum(Filter((x: Sample) => x.ts >= c, xs), rejected) + ShareSum(Filter((x: Sample) => x.ts < c, xs), rejected)
  {
    if xs != [] {
      ShareSumParts(c, xs[1..], rejected);
      var p, q := Filter((x: Sample) => x.ts >= c, xs[1..]), Filter((x: Sample) => x.ts < c, xs[1..]);
      assert ([xs[0]] + p)[1..] == p && ([xs[0]] + q)[1..] == q && [] + p == p && [] + q == q;
    }
  }

  /** When deletes have split a bucket, the next upsert takes exactly the shares of the deleted part out of its row. */
  lemma {:induction false} SplitBucketLosesShares(s: State, k: Key)
    requires Inv(s) && Exact(s, k) && k in s.rollups && k.bucket + HOUR <= Trunc(s.now)
    requires exists x :: x in Group(s.all, k) && x.ts >= s.cutoff
    ensures var t, gone := Next(s, Aggregate), Filter((x: Sample) => x.ts < s.cutoff, Group(s.all, k));
            && k in t.rollups
            && t.rollups[k].acc + ShareSum(gone, false) == s.rollups[k].acc
            && t.rollups[k].rej + ShareSum(gone, true) == s.rollups[k].rej
  {
    var g := Group(s.all, k);
    var left := Filter((x: Sample) => x.ts >= s.cutoff, g);
    RowAfterAggregate(s, k);
    LeftEmptyIff(g, s.cutoff);
    AggShares(g, false);
    AggShares(g, true);
    AggShares(left, false);
    AggShares(left, true);
    ShareSumParts(s.cutoff, g, false);
    ShareSumParts(s.cutoff, g, true);
  }

  // A run that loses a sample: two samples in one hour, hourly passes, and a cutoff between them.

  lemma {:induction false} Then(s: State, e: Event, rest: seq<Event>, k: Key)
    ensures Feasible(s, [e] + rest) <==> Enabled(s, e) && Feasible(Next(s, e), rest)
    ensures Feasible(s, [e] + rest) ==> After(s, [e] + rest) == After(Next(s, e), rest)
    ensures Feasible(s, [e] + rest) ==>
              (SplitAggregated(s, [e] + rest, k) <==>
                 (e.Aggregate? && Split(Group(s.all, k), s.cutoff)) || SplitAggregated(Next(s, e), rest, k))
  {
    assert ([e] + rest)[0] == e && ([e] + rest)[1..] == rest;
  }

  lemma {:induction false} RunConcat(s: State, xs: seq<Event>, ys: seq<Event>)
    requires Feasible(s, xs) && Feasible(After(s, xs), ys)
    ensures Feasible(s, xs + ys) && After(s, xs + ys) == After(After(s, xs), ys)
    decreases |xs|
  {
    if xs == [] {
      assert xs + ys == ys;
    } else {
      assert (xs + ys)[0] == xs[0] && (xs + ys)[1..] == xs[1..] + ys;
      RunConcat(Next(s, xs[0]), xs[1..], ys);
    }
  }

  const EARLY := Sample(0, 0, 1.0, 1, 0)
  const LATE := Sample(0, HOUR / 2, 1.0, 1, 0)
  const FIRST_HOUR := Key(0, 0)

  /** The clock and the history of a state. */
  predicate At(s: State, now: nat, all: seq<Sample>, cutoff: nat, aggregated: nat) {
    s.now == now && s.all == all && s.cutoff == cutoff && s.aggregated == aggregated
  }

  lemma {:induction false} TwoSamples() returns (run: seq<Event>)
    ensures Feasible(INIT, run) && At(After(INIT, run), HOUR, [EARLY, LATE], 0, HOUR)
  {
    var e, k := Insert(0, 1.0, 1, 0), FIRST_HOUR;
    var s1 := Next(INIT, e);
    var s2 := Next(s1, Tick(HOUR / 2));
    var s3 := Next(s2, e);
    var s4 := Next(s3, Tick(HOUR));
    var s5 := Next(s4, Aggregate);
    var s6 := Next(s5, Prune);
    assert At(s3, HOUR / 2, [EARLY, LATE], 0, 0);
    assert At(s6, HOUR, [EARLY, LATE], 0, HOUR);
    Then(s5, Prune, [], k);
    Then(s4, Aggregate, [Prune] + [], k);
    Then(s3, Tick(HOUR), [Aggregate] + ([Prune] + []), k);
    Then(s2, e, [Tick(HOUR)] + ([Aggregate] + ([Prune] + [])), k);
    Then(s1, Tick(HOUR / 2), [e] + ([Tick(HOUR)] + ([Aggregate] + ([Prune] + []))), k);
    Then(INIT, e, [Tick(HOUR / 2)] + ([e] + ([Tick(HOUR)] + ([Aggregate] + ([Prune] + [])))), k);
    run := [e] + ([Tick(HOUR / 2)] + ([e] + ([Tick(HOUR)] + ([Aggregate] + ([Prune] + [])))));
  }

  /** Two days later one pass deletes the earlier sample, and the next one aggregates what is left. */
  lemma {:induction false} TwoPasses(s: State) returns (run: seq<Event>)
    requires At(s, HOUR, [EARLY, LATE], 0, HOUR) && Split([EARLY, LATE], HOUR / 4) && Group([EARLY, LATE], FIRST_HOUR) == [EARLY, LATE]
    ensures Feasible(s, run) && SplitAggregated(s, run, FIRST_HOUR)
  {
    var k := FIRST_HOUR;
    var now1, now2 := RETENTION + HOUR / 4, RETENTION + 2 * HOUR;
    var s1 := Next(s, Tick(now1));
    var s2 := Next(s1, Aggregate);
    var s3 := Next(s2, Prune);
    var s4 := Next(s3, Tick(now2));
    assert s4.all == [EARLY, LATE] && s4.cutoff == HOUR / 4;
    Then(s4, Aggregate, [], k);
    Then(s3, Tick(now2), [Aggregate] + [], k);
    Then(s2, Prune, [Tick(now2)] + ([Aggregate] + []), k);
    Then(s1, Aggregate, [Prune] + ([Tick(now2)] + ([Aggregate] + [])), k);
    Then(s, Tick(now1), [Aggregate] + ([Prune] + ([Tick(now2)] + ([Aggregate] + []))), k);
    run := [Tick(now1)] + ([Aggregate] + ([Prune] + ([Tick(now2)] + ([Aggregate] + []))));
  }

  lemma {:induction false} BothInFirstHour()
    ensures Group([EARLY, LATE], FIRST_HOUR) == [EARLY, LATE] && Split([EARLY, LATE], HOUR / 4)
  {
    var p := (x: Sample) => KeyOf(x) == FIRST_HOUR;
    FilterAll(p, [EARLY, LATE]);
    assert [EARLY, LATE][0] == EARLY && [EARLY, LATE][1] == LATE;
  }

  /** Rollups are not kept for ever: a run of the program's own passes after which the row of a finished hour lacks a sample. */
  lemma {:induction false} RowLosesASample() returns (run: seq<Event>, k: Key)
    ensures Feasible(INIT, run)
    ensures var t := After(INIT, run);
            k.bucket + HOUR <= t.aggregated && k in t.rollups && (exists x :: x in t.all && InHour(x, k)) && !RowOver(t.rollups[k], t.all, k)
  {
    k := FIRST_HOUR;
    var before := TwoSamples();
    BothInFirstHour();
    var evs := TwoPasses(After(INIT, before));
    KeptForeverIff(before, evs, k);
    RunConcat(INIT, before, evs);
    RunKeepsInv(INIT, before);
    BucketClosed(After(INIT, before), evs, k);
    run := before + evs;
    GroupInHour(After(INIT, run).all, k);
  }

  /** A run whose deletes all happen on the hour. */
  ghost predicate OnTheHour(s: State, evs: seq<Event>)
    requires Feasible(s, evs)
    decreases |evs|
  {
    evs == [] || ((evs[0].Prune? ==> s.now % HOUR == 0) && OnTheHour(Next(s, evs[0]), evs[1..]))
  }

  ghost predicate Forever(s: State) {
    && Inv(s) && Settled(s) && s.cutoff % HOUR == 0
    && forall k: Key | k.bucket % HOUR == 0 && k.bucket + HOUR <= s.aggregated :: Exact(s, k)
  }

  lemma {:induction false} ForeverStep(s: State, e: Event)
    requires Forever(s) && Enabled(s, e)
    requires e.Prune? ==> s.now % HOUR == 0 && s.now <= s.aggregated + RETENTION
    ensures Forever(Next(s, e))
  {
    var t := Next(s, e);
    StepKeepsInv(s, e);
    SettledStep(s, e);
    forall k: Key | k.bucket % HOUR == 0 && k.bucket + HOUR <= t.aggregated ensures Exact(t, k) {
      if e.Aggregate? {
        if k.bucket < s.cutoff {
          ExactAfterAggregate(s, k);
        }
      } else {
        assert Exact(s, k);
        if e.Insert? {
          ExactAfterInsert(s, Sample(e.miner, s.now, e.hashrate, e.acc, e.rej), k);
        }
      }
    }
  }

  lemma {:induction false} ExactAfterAggregate(s: State, k: Key)
    requires Forever(s) && k.bucket % HOUR == 0 && k.bucket < s.cutoff
    ensures Exact(Next(s, Aggregate), k)
  {
    assert k.bucket + HOUR <= s.cutoff by { HoursApart(k.bucket, s.cutoff); }
    OldBucketUntouched(s, k);
    assert Exact(s, k);
  }

  lemma {:induction false} HoursApart(a: nat, b: nat)
    requires a % HOUR == 0 && b % HOUR == 0 && a < b
    ensures a + HOUR <= b
  {
  }

  lemma {:induction false} OldBucketUntouched(s: State, k: Key)
    requires Basic(s) && k.bucket + HOUR <= s.cutoff
    ensures k !in Keys(Finished(s.samples, Trunc(s.now)))
  {
    forall x | x in Finished(s.samples, Trunc(s.now)) ensures KeyOf(x) != k {
      FilterMember((y: Sample) => y.ts < Trunc(s.now), s.samples, x);
      FilterMember((y: Sample) => y.ts >= s.cutoff, s.all, x);
    }
  }

  lemma {:induction false} RunStaysForever(s: State, evs: seq<Event>)
    requires Forever(s) && Feasible(s, evs) && InTime(s, evs) && OnTheHour(s, evs)
    ensures Forever(After(s, evs))
    decreases |evs|
  {
    if evs != [] {
      ForeverStep(s, evs[0]);
      RunStaysForever(Next(s, evs[0]), evs[1..]);
    }
  }

  /** When every delete runs on the hour, the row of every finished bucket stays exact forever, long after its samples are gone. */
  lemma {:induction false} AlignedRollupsAreForever(evs: seq<Event>, k: Key)
    requires Feasible(INIT, evs) && InTime(INIT, evs) && OnTheHour(INIT, evs)
    requires k.bucket % HOUR == 0 && k.bucket + HOUR <= After(INIT, evs).aggregated
    ensures var t := After(INIT, evs);
            && (k in t.rollups <==> exists x :: x in t.all && InHour(x, k))
            && (k in t.rollups ==> RowOver(t.rollups[k], t.all, k))
  {
    RunStaysForever(INIT, evs);
    assert Exact(After(INIT, evs), k);
    ExactRow(After(INIT, evs), k);
  }
}
