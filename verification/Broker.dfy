/**
 The event broker (internal/events/events.go): per-owner subscriber sets with a
 cap, and bounded queues that drop when full. Every critical section, every
 close and every receive is one atomic step.
 */
module Broker {

  import opened Base

  const MAX_CONNS_PER_USER := 5
  const QUEUE := 32

  datatype Event = Event(kind: string, data: string)

  datatype Chan = Chan(owner: string, queue: seq<Event>, closed: bool)

  datatype State = State(next: Id, subs: map<string, set<Id>>, chans: map<Id, Chan>)

  datatype Action =
    | Subscribe(owner: string)
    | Detach(ch: Id)   // the locked half of an unsubscribe
    | Close(ch: Id)    // its close(ch)
    | Publish(owner: string, e: Event)
    | PublishAll(e: Event)
    | Receive(ch: Id)

  const INIT := State(0, map[], map[])

  function SubsOf(s: State, owner: string): set<Id> {
    if owner in s.subs then s.subs[owner] else {}
  }

  /** Who a publication goes to. */
  ghost predicate Targets(s: State, a: Action, ch: Id) {
    match a
    case Publish(owner, _) => ch in SubsOf(s, owner)
    case PublishAll(_) => exists owner :: owner in s.subs && ch in s.subs[owner]
    case _ => false
  }

  /** A non-blocking send. */
  function Offer(c: Chan, e: Event): Chan {
    if |c.queue| < QUEUE then c.(queue := c.queue + [e]) else c
  }

  function OfferTo(chans: map<Id, Chan>, to: set<Id>, e: Event): map<Id, Chan> {
    map ch | ch in chans :: if ch in to then Offer(chans[ch], e) else chans[ch]
  }

  function AllSubs(s: State): set<Id> {
    set owner, ch | owner in s.subs && ch in s.subs[owner] :: ch
  }

  predicate Enabled(s: State, a: Action) {
    match a
    case Detach(ch) => ch in s.chans && ch in SubsOf(s, s.chans[ch].owner)
    case Close(ch) => ch in s.chans && ch !in SubsOf(s, s.chans[ch].owner) && !s.chans[ch].closed
    case Receive(ch) => ch in s.chans && s.chans[ch].queue != []
    case _ => true
  }

  function Next(s: State, a: Action): State
    requires Enabled(s, a)
  {
    match a
    case Subscribe(owner) =>
      if |SubsOf(s, owner)| >= MAX_CONNS_PER_USER then s
      else State(s.next + 1, s.subs[owner := SubsOf(s, owner) + {s.next}], s.chans[s.next := Chan(owner, [], false)])
    case Detach(ch) =>
      var owner := s.chans[ch].owner;
      var left := s.subs[owner] - {ch};
      s.(subs := if left == {} then s.subs - {owner} else s.subs[owner := left])
    case Close(ch) => s.(chans := s.chans[ch := s.chans[ch].(closed := true)])
    case Publish(owner, e) => s.(chans := OfferTo(s.chans, SubsOf(s, owner), e))
    case PublishAll(e) => s.(chans := OfferTo(s.chans, AllSubs(s), e))
    case Receive(ch) => s.(chans := s.chans[ch := s.chans[ch].(queue := s.chans[ch].queue[1..])])
  }

  ghost predicate Feasible(s: State, run: seq<Action>)
    decreases |run|
  {
    run == [] || (Enabled(s, run[0]) && Feasible(Next(s, run[0]), run[1..]))
  }

  ghost function After(s: State, run: seq<Action>): State
    requires Feasible(s, run)
    decreases |run|
  {
    if run == [] then s else After(Next(s, run[0]), run[1..])
  }

  // ---------------------------------------------------------------------
  // Invariant
  // ---------------------------------------------------------------------

  ghost predicate Inv(s: State) {
    && (forall owner | owner in s.subs :: 1 <= |s.subs[owner]| <= 5)
    && (forall owner, ch | owner in s.subs && ch in s.subs[owner] ::
          ch in s.chans && s.chans[ch].owner == owner && !s.chans[ch].closed)
    && (forall ch | ch in s.chans :: ch < s.next && |s.chans[ch].queue| <= 32)
  }

  lemma {:induction false} SubscribeKeepsInv(s: State, owner: string)
    requires Inv(s)
    ensures Inv(Next(s, Subscribe(owner)))
  {
    assert s.next !in s.chans;
    assert s.next !in SubsOf(s, owner);
  }

  lemma {:induction false} DetachKeepsInv(s: State, ch: Id)
    requires Inv(s) && Enabled(s, Detach(ch))
    ensures Inv(Next(s, Detach(ch)))
  {
    var owner := s.chans[ch].owner;
    assert |s.subs[owner] - {ch}| == |s.subs[owner]| - 1;
  }

  lemma {:induction false} StepKeepsInv(s: State, a: Action)
    requires Inv(s) && Enabled(s, a)
    ensures Inv(Next(s, a))
  {
    match a
    case Subscribe(owner) => SubscribeKeepsInv(s, owner);
    case Detach(ch) => DetachKeepsInv(s, ch);
    case _ =>
  }

  /** Caps, no empty subscriber set, bounded queues and no closed subscriber, in every reachable state. */
  lemma {:induction false} RunKeepsInv(s: State, run: seq<Action>)
    requires Inv(s) && Feasible(s, run)
    ensures Inv(After(s, run))
    decreases |run|
  {
    if run != [] {
      StepKeepsInv(s, run[0]);
      RunKeepsInv(Next(s, run[0]), run[1..]);
    }
  }

  /** Nothing is ever sent to a closed channel, and nothing to a stranger's. */
  lemma {:induction false} NoSendOnClosed(run: seq<Action>, a: Action, ch: Id)
    requires Feasible(INIT, run) && Targets(After(INIT, run), a, ch)
    ensures ch in After(INIT, run).chans && !After(INIT, run).chans[ch].closed
    ensures a.Publish? ==> After(INIT, run).chans[ch].owner == a.owner
  {
    RunKeepsInv(INIT, run);
  }

  // ---------------------------------------------------------------------
  // What a subscriber gets
  // ---------------------------------------------------------------------

  /** Events published to ch during a run. */
  ghost function Offered(s: State, run: seq<Action>, ch: Id): seq<Event>
    requires Feasible(s, run)
    decreases |run|
  {
    if run == [] then []
    else (if Targets(s, run[0], ch) then [run[0].e] else []) + Offered(Next(s, run[0]), run[1..], ch)
  }

  /** Events received from ch during a run. */
  ghost function Received(s: State, run: seq<Action>, ch: Id): seq<Event>
    requires Feasible(s, run)
    decreases |run|
  {
    if run == [] then []
    else (if run[0] == Receive(ch) then [s.chans[ch].queue[0]] else []) + Received(Next(s, run[0]), run[1..], ch)
  }

  /** How often a publication found ch's queue full. */
  ghost function Drops(s: State, run: seq<Action>, ch: Id): nat
    requires Feasible(s, run)
    decreases |run|
  {
    if run == [] then 0
    else (if ch in s.chans && Targets(s, run[0], ch) && |s.chans[ch].queue| >= QUEUE then 1 else 0)
         + Drops(Next(s, run[0]), run[1..], ch)
  }

  ghost predicate Subsequence<T>(a: seq<T>, b: seq<T>)
    decreases |b|
  {
    a == [] || (b != [] && ((a[0] == b[0] && Subsequence(a[1..], b[1..])) || Subsequence(a, b[1..])))
  }

  lemma {:induction false} SubsequenceRefl<T>(a: seq<T>)
    ensures Subsequence(a, a)
  {
    if a != [] {
      SubsequenceRefl(a[1..]);
    }
  }

  lemma {:induction false} SubsequenceInsert<T>(x: seq<T>, a: seq<T>, e: T, b: seq<T>)
    requires Subsequence(x, a + b)
    ensures Subsequence(x, a + ([e] + b))
    decreases |a|
  {
    var c := a + ([e] + b);
    if x == [] {
    } else if a == [] {
      assert c[1..] == b == a + b;
    } else {
      assert (a + b)[1..] == a[1..] + b && c[1..] == a[1..] + ([e] + b);
      if x[0] == a[0] && Subsequence(x[1..], (a + b)[1..]) {
        SubsequenceInsert(x[1..], a[1..], e, b);
      } else {
        SubsequenceInsert(x, a[1..], e, b);
      }
    }
  }

  ghost function Queue(s: State, ch: Id): seq<Event> {
    if ch in s.chans then s.chans[ch].queue else []
  }

  lemma {:induction false} ChanStays(s: State, a: Action, ch: Id)
    requires Inv(s) && Enabled(s, a) && ch in s.chans
    ensures ch in Next(s, a).chans
    ensures Queue(Next(s, a), ch) ==
              if a == Receive(ch) then Queue(s, ch)[1..]
              else if Targets(s, a, ch) && |Queue(s, ch)| < QUEUE then Queue(s, ch) + [a.e]
              else Queue(s, ch)
  {
  }

  /**
   Lossy fan-out: what a subscriber has received plus what is queued for it is
   an in-order subsequence of what was published to it.
   */
  lemma {:induction false} InOrderSubsequence(s: State, run: seq<Action>, ch: Id)
    requires Inv(s) && Feasible(s, run) && ch in s.chans
    ensures Subsequence(Received(s, run, ch) + Queue(After(s, run), ch), Queue(s, ch) + Offered(s, run, ch))
    decreases |run|
  {
    var q := Queue(s, ch);
    if run == [] {
      assert q + [] == q && [] + q == q;
      SubsequenceRefl(q);
    } else {
      var a, t := run[0], Next(s, run[0]);
      StepKeepsInv(s, a);
      ChanStays(s, a, ch);
      InOrderSubsequence(t, run[1..], ch);
      var r, e, o := Received(t, run[1..], ch), Queue(After(s, run), ch), Offered(t, run[1..], ch);
      if a == Receive(ch) {
        ReceiveStep(q, r, e, o);
        assert Offered(s, run, ch) == [] + o == o;
      } else if Targets(s, a, ch) {
        PublishStep(q, r, e, o, a.e);
        assert Received(s, run, ch) == [] + r == r;
      } else {
        assert Received(s, run, ch) == [] + r == r && Offered(s, run, ch) == [] + o == o;
      }
    }
  }

  lemma {:induction false} ReceiveStep<T>(q: seq<T>, r: seq<T>, e: seq<T>, o: seq<T>)
    requires q != [] && Subsequence(r + e, q[1..] + o)
    ensures Subsequence(([q[0]] + r) + e, q + o)
  {
    var x, y := ([q[0]] + r) + e, q + o;
    assert x[1..] == r + e && y[1..] == q[1..] + o;
  }

  lemma {:induction false} PublishStep<T>(q: seq<T>, r: seq<T>, e: seq<T>, o: seq<T>, x: T)
    requires Subsequence(r + e, (if |q| < QUEUE then q + [x] else q) + o)
    ensures Subsequence(r + e, q + ([x] + o))
  {
    if |q| < QUEUE {
      assert (q + [x]) + o == q + ([x] + o);
    } else {
      SubsequenceInsert(r + e, q, x, o);
    }
  }

  lemma {:induction false} NothingUnaccounted(s: State, run: seq<Action>, ch: Id)
    requires Inv(s) && Feasible(s, run) && ch in s.chans
    ensures |Received(s, run, ch)| + |Queue(After(s, run), ch)| + Drops(s, run, ch) == |Queue(s, ch)| + |Offered(s, run, ch)|
    decreases |run|
  {
    if run != [] {
      StepKeepsInv(s, run[0]);
      ChanStays(s, run[0], ch);
      NothingUnaccounted(Next(s, run[0]), run[1..], ch);
    }
  }

  lemma {:induction false} SubsequenceOfSameLength<T>(a: seq<T>, b: seq<T>)
    requires Subsequence(a, b)
    ensures |a| <= |b| && (|a| == |b| ==> a == b)
    decreases |b|
  {
    if a != [] {
      if a[0] == b[0] && Subsequence(a[1..], b[1..]) {
        SubsequenceOfSameLength(a[1..], b[1..]);
        assert a == [a[0]] + a[1..] && b == [b[0]] + b[1..];
      } else {
        SubsequenceOfSameLength(a, b[1..]);
      }
    }
  }

  /** A subscriber gets everything, in order, if and only if its queue was never full at a publication. */
  lemma {:induction false} LosslessIffNeverFull(s: State, run: seq<Action>, ch: Id)
    requires Inv(s) && Feasible(s, run) && ch in s.chans
    ensures Received(s, run, ch) + Queue(After(s, run), ch) == Queue(s, ch) + Offered(s, run, ch) <==> Drops(s, run, ch) == 0
  {
    NothingUnaccounted(s, run, ch);
    InOrderSubsequence(s, run, ch);
    SubsequenceOfSameLength(Received(s, run, ch) + Queue(After(s, run), ch), Queue(s, ch) + Offered(s, run, ch));
  }

  // ---------------------------------------------------------------------
  // The broker
  // ---------------------------------------------------------------------

  class Broker {
    var next: Id
    var subs: map<string, set<Id>>
    var chans: map<Id, Chan>

    function View(): State
      reads this
    {
      State(next, subs, chans)
    }

    constructor ()
      ensures View() == INIT
    {
      next, subs, chans := 0, map[], map[];
    }

    method SubscribeOwner(owner: string) returns (ch: Option<Id>)
      requires Inv(View())
      modifies this
      ensures View() == Next(old(View()), Subscribe(owner))
      ensures ch.None? <==> owner in old(subs) && |old(subs)[owner]| == 5
      ensures ch.None? ==> subs == old(subs) && chans == old(chans)
      ensures ch.Some? ==> ch.value !in old(chans) && chans == old(chans)[ch.value := Chan(owner, [], false)]
      ensures ch.Some? ==> subs == old(subs)[owner := (if owner in old(subs) then old(subs)[owner] else {}) + {ch.value}]
    {
      var mine := if owner in subs then subs[owner] else {};
      if |mine| >= MAX_CONNS_PER_USER {
        return None;
      }
      ch := Some(next);
      subs := subs[owner := mine + {next}];
      chans := chans[next := Chan(owner, [], false)];
      next := next + 1;
    }

    /** The function Subscribe hands back. */
    method Unsubscribe(ch: Id)
      requires Enabled(View(), Detach(ch)) && Inv(View())
      modifies this
      ensures Enabled(Next(old(View()), Detach(ch)), Close(ch))
      ensures View() == Next(Next(old(View()), Detach(ch)), Close(ch))
      ensures chans == old(chans)[ch := old(chans)[ch].(closed := true)]
      ensures var owner := old(chans)[ch].owner;
              && (owner in subs <==> old(subs)[owner] != {ch})
              && (owner in subs ==> subs[owner] == old(subs)[owner] - {ch})
              && (forall o | o != owner :: (o in subs <==> o in old(subs)) && (o in subs ==> subs[o] == old(subs)[o]))
    {
      var owner := chans[ch].owner;
      var left := subs[owner] - {ch};
      subs := if left == {} then subs - {owner} else subs[owner := left];
      chans := chans[ch := chans[ch].(closed := true)];
    }

    method PublishTo(owner: string, e: Event)
      requires Inv(View())
      modifies this`chans
      ensures View() == Next(old(View()), Publish(owner, e))
      ensures chans.Keys == old(chans).Keys
      ensures forall ch | ch in chans ::
                chans[ch] == if owner in subs && ch in subs[owner] && |old(chans)[ch].queue| < 32
                             then old(chans)[ch].(queue := old(chans)[ch].queue + [e]) else old(chans)[ch]
    {
      if owner in subs {
        OfferEach(subs[owner], e);
      }
    }

    /** One pass over a subscriber set, in whatever order the map yields it. */
    method OfferEach(to: set<Id>, e: Event)
      requires to <= chans.Keys
      modifies this`chans
      ensures chans == OfferTo(old(chans), to, e)
    {
      var todo := to;
      while todo != {}
        invariant todo <= to && to <= chans.Keys
        invariant chans == OfferTo(old(chans), to - todo, e)
        decreases |todo|
      {
        var ch :| ch in todo;
        if |chans[ch].queue| < QUEUE {
          chans := chans[ch := chans[ch].(queue := chans[ch].queue + [e])];
        }
        todo := todo - {ch};
      }
    }

    method PublishEverywhere(e: Event)
      requires Inv(View())
      modifies this`chans
      ensures View() == Next(old(View()), PublishAll(e))
      ensures OfferedToAll(subs, old(chans), chans, e)
    {
      var owners := subs.Keys;
      ghost var served: set<string> := {};
      while owners != {}
        invariant owners == subs.Keys - served && served <= subs.Keys
        invariant chans == OfferTo(old(chans), SubsUnder(subs, served), e)
        decreases |owners|
      {
        var owner :| owner in owners;
        OfferOwner(old(View()), served, owner, e);
        OfferEach(subs[owner], e);
        served := served + {owner};
        owners := owners - {owner};
      }
      AllOffered(old(View()), served, e);
    }
  }

  /** Every subscribed channel with room for it has the event at the end of its queue; nothing else has changed. */
  ghost predicate OfferedToAll(subs: map<string, set<Id>>, chans: map<Id, Chan>, chans': map<Id, Chan>, e: Event) {
    && chans'.Keys == chans.Keys
    && forall ch | ch in chans ::
         chans'[ch] == if (exists owner :: owner in subs && ch in subs[owner]) && |chans[ch].queue| < 32
                       then chans[ch].(queue := chans[ch].queue + [e]) else chans[ch]
  }

  /** The subscribers of some owners. */
  function SubsUnder(subs: map<string, set<Id>>, owners: set<string>): set<Id> {
    set owner, ch | owner in owners && owner in subs && ch in subs[owner] :: ch
  }

  lemma {:induction false} OwnersApart(s: State, served: set<string>, owner: string)
    requires Inv(s) && owner in s.subs && owner !in served
    ensures SubsUnder(s.subs, served) !! s.subs[owner]
    ensures SubsUnder(s.subs, served + {owner}) == SubsUnder(s.subs, served) + s.subs[owner]
    ensures s.subs[owner] <= s.chans.Keys
  {
    forall ch | ch in SubsUnder(s.subs, served) ensures ch !in s.subs[owner] {
      var o :| o in served && o in s.subs && ch in s.subs[o];
      assert s.chans[ch].owner == o;
    }
    forall ch | ch in SubsUnder(s.subs, served + {owner}) ensures ch in SubsUnder(s.subs, served) + s.subs[owner] {
      var o :| o in served + {owner} && o in s.subs && ch in s.subs[o];
    }
    forall ch | ch in SubsUnder(s.subs, served) ensures ch in SubsUnder(s.subs, served + {owner}) {
      var o :| o in served && o in s.subs && ch in s.subs[o];
      assert o in served + {owner};
    }
    forall ch | ch in s.subs[owner] ensures ch in SubsUnder(s.subs, served + {owner}) && ch in s.chans {
      assert owner in served + {owner};
    }
  }

  lemma {:induction false} OfferAgain(chans: map<Id, Chan>, a: set<Id>, b: set<Id>, e: Event)
    requires a !! b
    ensures OfferTo(OfferTo(chans, a, e), b, e) == OfferTo(chans, a + b, e)
    ensures OfferTo(chans, a, e).Keys == chans.Keys
  {
  }

  lemma {:induction false} OfferOwner(s: State, served: set<string>, owner: string, e: Event)
    requires Inv(s) && owner in s.subs && owner !in served
    ensures OfferTo(OfferTo(s.chans, SubsUnder(s.subs, served), e), s.subs[owner], e)
         == OfferTo(s.chans, SubsUnder(s.subs, served + {owner}), e)
    ensures s.subs[owner] <= OfferTo(s.chans, SubsUnder(s.subs, served), e).Keys
  {
    OwnersApart(s, served, owner);
    OfferAgain(s.chans, SubsUnder(s.subs, served), s.subs[owner], e);
  }

  lemma {:induction false} AllOffered(s: State, served: set<string>, e: Event)
    requires s.subs.Keys - served == {} && served <= s.subs.Keys
    ensures s.(chans := OfferTo(s.chans, SubsUnder(s.subs, served), e)) == Next(s, PublishAll(e))
    ensures OfferedToAll(s.subs, s.chans, OfferTo(s.chans, SubsUnder(s.subs, served), e), e)
  {
    assert forall owner | owner in s.subs.Keys :: owner in served || owner in s.subs.Keys - served;
    assert served == s.subs.Keys;
    SubsUnderAll(s);
    UnderAllOffered(s.subs, s.chans, e);
  }

  lemma {:induction false} UnderAllOffered(subs: map<string, set<Id>>, chans: map<Id, Chan>, e: Event)
    ensures OfferedToAll(subs, chans, OfferTo(chans, SubsUnder(subs, subs.Keys), e), e)
  {
    forall ch | ch in chans
      ensures ch in SubsUnder(subs, subs.Keys) <==> exists owner :: owner in subs && ch in subs[owner]
    {
      if owner :| owner in subs && ch in subs[owner] {
        assert owner in subs.Keys;
      }
    }
  }

  lemma {:induction false} SubsUnderAll(s: State)
    ensures SubsUnder(s.subs, s.subs.Keys) == AllSubs(s)
  {
    forall ch | ch in SubsUnder(s.subs, s.subs.Keys) ensures ch in AllSubs(s) {
      var o :| o in s.subs.Keys && o in s.subs && ch in s.subs[o];
    }
    forall ch | ch in AllSubs(s) ensures ch in SubsUnder(s.subs, s.subs.Keys) {
      var o :| o in s.subs && ch in s.subs[o];
      assert o in s.subs.Keys;
    }
  }
}
