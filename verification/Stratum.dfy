/**
 The pending-call table of the stratum client (internal/stratum/client.go):
 concurrent Calls, the read loop that dispatches responses, and failAll. Each
 critical section, channel operation and connection write is one atomic step.
 A channel send is a step that is enabled only while the buffer has room.
 */
module Stratum {

  import opened Base

  const BUFFER := 1

  datatype Resp = Resp(id: int, failed: bool, body: string)

  datatype Outcome = Replied(resp: Resp) | Cancelled | WriteFailed

  datatype Phase = Allocated | Registered | Waiting | Done(outcome: Outcome)

  datatype Call = Call(chan: Id, phase: Phase)

  /** The read loop: between the table lookup and the send it holds a response; failing, it holds the table's lock. */
  datatype Reader = Idle | Holding(resp: Resp, chan: Id) | Failing | Stopped

  datatype State = State(
    seqNo: int,
    nextChan: Id,
    calls: map<int, Call>,
    chans: map<Id, seq<Resp>>,
    pending: map<int, Id>,
    reader: Reader)

  const INIT := State(0, 0, map[], map[], map[], Idle)

  datatype Event =
    | Begin                       // seq.Add and make(chan, 1)
    | Register(id: int)
    | Write(id: int, ok: bool)
    | Cancel(id: int)             // ctx.Done
    | Complete(id: int)           // receive from the call's channel
    | Read(resp: Resp)            // decode a response and take its channel out of the table
    | Deliver                     // ch <- resp
    | ConnError(msg: string)      // decode error: failAll takes the lock
    | FailOne(id: int, msg: string)
    | FailEnd

  predicate Enabled(s: State, e: Event) {
    match e
    case Begin => true
    case Register(id) => id in s.calls && s.calls[id].phase == Allocated && s.reader != Failing
    case Write(id, _) => id in s.calls && s.calls[id].phase == Registered
    case Cancel(id) => id in s.calls && s.calls[id].phase == Waiting
    case Complete(id) => id in s.calls && s.calls[id].phase == Waiting && s.calls[id].chan in s.chans && s.chans[s.calls[id].chan] != []
    case Read(_) => s.reader == Idle
    case Deliver => s.reader.Holding? && CanSend(s, s.reader.chan)
    case ConnError(_) => s.reader == Idle
    case FailOne(id, _) => s.reader == Failing && id in s.pending && CanSend(s, s.pending[id])
    case FailEnd => s.reader == Failing && s.pending == map[]
  }

  predicate CanSend(s: State, ch: Id) { ch in s.chans && |s.chans[ch]| < BUFFER }

  function WithPhase(s: State, id: int, p: Phase): State
    requires id in s.calls
  {
    s.(calls := s.calls[id := s.calls[id].(phase := p)])
  }

  function Send(s: State, ch: Id, r: Resp): State
    requires ch in s.chans
  {
    s.(chans := s.chans[ch := s.chans[ch] + [r]])
  }

  function Next(s: State, e: Event): State
    requires Enabled(s, e)
  {
    match e
    case Begin =>
      s.(seqNo := s.seqNo + 1, nextChan := s.nextChan + 1,
         calls := s.calls[s.seqNo + 1 := Call(s.nextChan, Allocated)],
         chans := s.chans[s.nextChan := []])
    case Register(id) => WithPhase(s, id, Registered).(pending := s.pending[id := s.calls[id].chan])
    case Write(id, ok) => WithPhase(s, id, if ok then Waiting else Done(WriteFailed))
    case Cancel(id) => WithPhase(s, id, Done(Cancelled))
    case Complete(id) =>
      var ch := s.calls[id].chan;
      WithPhase(s, id, Done(Replied(s.chans[ch][0]))).(chans := s.chans[ch := s.chans[ch][1..]])
    case Read(resp) =>
      if resp.id in s.pending
      then s.(pending := s.pending - {resp.id}, reader := Holding(resp, s.pending[resp.id]))
      else s
    case Deliver => Send(s, s.reader.chan, s.reader.resp).(reader := Idle)
    case ConnError(_) => s.(reader := Failing)
    case FailOne(id, msg) => Send(s, s.pending[id], Resp(id, true, msg)).(pending := s.pending - {id})
    case FailEnd => s.(reader := Stopped)
  }

  ghost predicate Feasible(s: State, run: seq<Event>)
    decreases |run|
  {
    run == [] || (Enabled(s, run[0]) && Feasible(Next(s, run[0]), run[1..]))
  }

  ghost function After(s: State, run: seq<Event>): State
    requires Feasible(s, run)
    decreases |run|
  {
    if run == [] then s else After(Next(s, run[0]), run[1..])
  }

  // ---------------------------------------------------------------------
  // Invariant
  // ---------------------------------------------------------------------

  ghost predicate Held(s: State, id: int) { s.reader.Holding? && s.reader.resp.id == id }

  /** A value may still be sent to the call's channel. */
  ghost predicate Unanswered(s: State, id: int) {
    id in s.calls && (s.calls[id].phase == Allocated || id in s.pending || Held(s, id))
  }

  ghost predicate Wired(s: State) {
    && (forall id | id in s.calls :: id <= s.seqNo && s.calls[id].chan < s.nextChan && s.calls[id].chan in s.chans)
    && (forall i, j | i in s.calls && j in s.calls && i != j :: s.calls[i].chan != s.calls[j].chan)
    && (forall id | id in s.pending :: id in s.calls && s.pending[id] == s.calls[id].chan && s.calls[id].phase != Allocated)
    && (s.reader.Holding? ==>
          && s.reader.resp.id in s.calls && s.reader.chan == s.calls[s.reader.resp.id].chan
          && s.reader.resp.id !in s.pending && s.calls[s.reader.resp.id].phase != Allocated)
  }

  /** What a call's channel and outcome can be. */
  ghost predicate CallOk(s: State, id: int)
    requires Wired(s) && id in s.calls
  {
    var buf := s.chans[s.calls[id].chan];
    && |buf| <= BUFFER
    && (buf != [] ==> buf[0].id == id)
    && (Unanswered(s, id) ==> buf == [])
    && (s.calls[id].phase.Done? && s.calls[id].phase.outcome.Replied? ==>
          s.calls[id].phase.outcome.resp.id == id && buf == [] && !Unanswered(s, id))
  }

  ghost predicate Inv(s: State) {
    Wired(s) && forall id | id in s.calls :: CallOk(s, id)
  }

  lemma {:induction false} BeginKeepsWired(s: State)
    requires Wired(s)
    ensures Wired(Next(s, Begin))
  {
    assert s.seqNo + 1 !in s.calls;
  }

  lemma {:induction false} ReaderKeepsWired(s: State, e: Event)
    requires Inv(s) && Enabled(s, e) && (e.Read? || e.Deliver? || e.ConnError? || e.FailOne? || e.FailEnd?)
    ensures Wired(Next(s, e))
  {
  }

  lemma {:induction false} CallerKeepsWired(s: State, e: Event)
    requires Inv(s) && Enabled(s, e) && (e.Register? || e.Write? || e.Cancel? || e.Complete?)
    ensures Wired(Next(s, e))
  {
  }

  lemma {:induction false} StepKeepsWired(s: State, e: Event)
    requires Inv(s) && Enabled(s, e)
    ensures Wired(Next(s, e))
  {
    if e.Begin? {
      BeginKeepsWired(s);
    } else if e.Read? || e.Deliver? || e.ConnError? || e.FailOne? || e.FailEnd? {
      ReaderKeepsWired(s, e);
    } else {
      CallerKeepsWired(s, e);
    }
  }

  lemma {:induction false} ReaderKeepsCall(s: State, e: Event, id: int)
    requires Inv(s) && Enabled(s, e) && Wired(Next(s, e)) && id in s.calls
    requires e.Read? || e.Deliver? || e.ConnError? || e.FailOne? || e.FailEnd?
    ensures CallOk(Next(s, e), id)
  {
    assert CallOk(s, id);
    if e.Read? && e.resp.id in s.pending {
      assert CallOk(s, e.resp.id);
    } else if e.Deliver? {
      assert CallOk(s, s.reader.resp.id);
    }
  }

  lemma {:induction false} CallerKeepsCall(s: State, e: Event, id: int)
    requires Inv(s) && Enabled(s, e) && Wired(Next(s, e)) && id in s.calls
    requires e.Register? || e.Write? || e.Cancel? || e.Complete?
    ensures CallOk(Next(s, e), id)
  {
    assert CallOk(s, id);
  }

  lemma {:induction false} BeginKeepsCall(s: State, id: int)
    requires Inv(s) && Wired(Next(s, Begin)) && id in Next(s, Begin).calls
    ensures CallOk(Next(s, Begin), id)
  {
    assert s.seqNo + 1 !in s.calls;
    if id in s.calls {
      assert CallOk(s, id);
    }
  }

  lemma {:induction false} StepKeepsCall(s: State, e: Event, id: int)
    requires Inv(s) && Enabled(s, e) && Wired(Next(s, e)) && id in Next(s, e).calls
    ensures CallOk(Next(s, e), id)
  {
    if e.Begin? {
      BeginKeepsCall(s, id);
    } else if e.Read? || e.Deliver? || e.ConnError? || e.FailOne? || e.FailEnd? {
      ReaderKeepsCall(s, e, id);
    } else {
      CallerKeepsCall(s, e, id);
    }
  }

  lemma {:induction false} StepKeepsInv(s: State, e: Event)
    requires Inv(s) && Enabled(s, e)
    ensures Inv(Next(s, e))
  {
    StepKeepsWired(s, e);
    forall id | id in Next(s, e).calls ensures CallOk(Next(s, e), id) { StepKeepsCall(s, e, id); }
  }

  lemma {:induction false} RunKeepsInv(s: State, run: seq<Event>)
    requires Inv(s) && Feasible(s, run)
    ensures Inv(After(s, run))
    decreases |run|
  {
    if run != [] {
      StepKeepsInv(s, run[0]);
      RunKeepsInv(Next(s, run[0]), run[1..]);
    }
  }

  // ---------------------------------------------------------------------
  // Theorems
  // ---------------------------------------------------------------------

  /** A Call that completes does so with a message carrying its own id: its response, or the failure sent to it. */
  lemma {:induction false} CompletesWithOwnId(run: seq<Event>, id: int)
    requires Feasible(INIT, run) && id in After(INIT, run).calls
    requires var p := After(INIT, run).calls[id].phase; p.Done? && p.outcome.Replied?
    ensures After(INIT, run).calls[id].phase.outcome.resp.id == id
  {
    RunKeepsInv(INIT, run);
    assert CallOk(After(INIT, run), id);
  }

  /** The read loop never blocks: whenever it is about to send, to a live call or an abandoned one, there is room. */
  lemma {:induction false} ReaderNeverBlocks(run: seq<Event>)
    requires Feasible(INIT, run)
    ensures var s := After(INIT, run);
            && (s.reader.Holding? ==> Enabled(s, Deliver))
            && (s.reader == Failing ==> forall id, msg | id in s.pending :: Enabled(s, FailOne(id, msg)))
  {
    RunKeepsInv(INIT, run);
    var s := After(INIT, run);
    if s.reader.Holding? {
      assert CallOk(s, s.reader.resp.id);
    }
    forall id, msg | s.reader == Failing && id in s.pending ensures Enabled(s, FailOne(id, msg)) { assert CallOk(s, id); }
  }

  /** A message of the run: one that the reader decoded, or the failure sent to a call. */
  ghost predicate Said(run: seq<Event>, r: Resp) {
    Read(r) in run || exists msg :: FailOne(r.id, msg) in run && r == Resp(r.id, true, msg)
  }

  ghost predicate Genuine(s: State, run: seq<Event>) {
    && (forall ch, r | ch in s.chans && r in s.chans[ch] :: Said(run, r))
    && (s.reader.Holding? ==> Said(run, s.reader.resp))
    && (forall id | id in s.calls && s.calls[id].phase.Done? && s.calls[id].phase.outcome.Replied? :: Said(run, s.calls[id].phase.outcome.resp))
  }

  lemma {:induction false} SaidStill(past: seq<Event>, e: Event, r: Resp)
    requires Said(past, r)
    ensures Said(past + [e], r)
  {
    assert forall x | x in past :: x in past + [e];
  }

  lemma {:induction false} GenuineStep(s: State, e: Event, past: seq<Event>)
    requires Genuine(s, past) && Enabled(s, e)
    ensures Genuine(Next(s, e), past + [e])
  {
    var now := past + [e];
    assert e in now;
    forall r | Said(past, r) ensures Said(now, r) { SaidStill(past, e, r); }
    if e.FailOne? {
      assert Said(now, Resp(e.id, true, e.msg));
    }
  }

  lemma {:induction false} GenuineRun(s: State, past: seq<Event>, run: seq<Event>)
    requires Genuine(s, past) && Feasible(s, run)
    ensures Genuine(After(s, run), past + run)
    decreases |run|
  {
    if run == [] {
      assert past + run == past;
    } else {
      GenuineStep(s, run[0], past);
      GenuineRun(Next(s, run[0]), past + [run[0]], run[1..]);
      assert (past + [run[0]]) + run[1..] == past + run;
    }
  }

  /** Nothing is made up: what a Call returns was decoded from the connection, or is the failure sent to that call. */
  lemma {:induction false} RepliesAreGenuine(run: seq<Event>, id: int)
    requires Feasible(INIT, run) && id in After(INIT, run).calls
    requires var p := After(INIT, run).calls[id].phase; p.Done? && p.outcome.Replied?
    ensures var r := After(INIT, run).calls[id].phase.outcome.resp;
            r.id == id && (Read(r) in run || exists msg :: FailOne(id, msg) in run && r == Resp(id, true, msg))
  {
    CompletesWithOwnId(run, id);
    GenuineRun(INIT, [], run);
    assert [] + run == run;
  }

  /** Values sent during a run to the channel of call id. */
  ghost function Sends(s: State, run: seq<Event>, id: int): nat
    requires Feasible(s, run)
    decreases |run|
  {
    if run == [] then 0
    else (if (run[0] == Deliver && Held(s, id)) || (run[0].FailOne? && run[0].id == id) then 1 else 0)
         + Sends(Next(s, run[0]), run[1..], id)
  }

  ghost function Budget(s: State, id: int): nat {
    if id !in s.calls then (if id > s.seqNo then 1 else 0) else if Unanswered(s, id) then 1 else 0
  }

  lemma {:induction false} BudgetSpent(s: State, run: seq<Event>, id: int)
    requires Inv(s) && Feasible(s, run)
    ensures Sends(s, run, id) + Budget(After(s, run), id) == Budget(s, id)
    decreases |run|
  {
    if run != [] {
      StepKeepsInv(s, run[0]);
      BudgetStep(s, run[0], id);
      BudgetSpent(Next(s, run[0]), run[1..], id);
    }
  }

  lemma {:induction false} BudgetStep(s: State, e: Event, id: int)
    requires Inv(s) && Enabled(s, e)
    ensures (if (e == Deliver && Held(s, id)) || (e.FailOne? && e.id == id) then 1 else 0) + Budget(Next(s, e), id) == Budget(s, id)
  {
    assert s.seqNo + 1 !in s.calls;
  }

  /** Every call's channel receives at most one value in the whole run. */
  lemma {:induction false} AtMostOneValue(run: seq<Event>, id: int)
    requires Feasible(INIT, run)
    ensures Sends(INIT, run, id) <= 1
  {
    BudgetSpent(INIT, run, id);
  }

  /** A registered call has been sent nothing exactly as long as it is in the table or in the reader's hand. */
  lemma {:induction false} PendingUntilAnswered(run: seq<Event>, id: int)
    requires Feasible(INIT, run) && id in After(INIT, run).calls && After(INIT, run).calls[id].phase != Allocated
    requires id > 0
    ensures Sends(INIT, run, id) == 0 <==> id in After(INIT, run).pending || Held(After(INIT, run), id)
  {
    RunKeepsInv(INIT, run);
    BudgetSpent(INIT, run, id);
  }

  // ---------------------------------------------------------------------
  // The client
  // ---------------------------------------------------------------------

  class Client {
    var seqNo: int
    var nextChan: Id
    var calls: map<int, Call>
    var chans: map<Id, seq<Resp>>
    var pending: map<int, Id>
    var reader: Reader

    function View(): State
      reads this
    {
      State(seqNo, nextChan, calls, chans, pending, reader)
    }

    constructor ()
      ensures View() == INIT
    {
      seqNo, nextChan, calls, chans, pending, reader := 0, 0, map[], map[], map[], Idle;
    }

    /** The head of Call: allocate the id and the channel, then register it. */
    method StartCall() returns (id: int)
      requires Inv(View()) && reader != Failing
      modifies this
      ensures id == old(seqNo) + 1 && id !in old(calls)
      ensures Enabled(Next(old(View()), Begin), Register(id))
      ensures View() == Next(Next(old(View()), Begin), Register(id))
      ensures pending == old(pending)[id := old(nextChan)] && chans == old(chans)[old(nextChan) := []]
      ensures calls == old(calls)[id := Call(old(nextChan), Registered)]
      ensures forall i | i in old(calls) :: old(calls)[i].chan != old(nextChan)
    {
      seqNo := seqNo + 1;
      id := seqNo;
      calls := calls[id := Call(nextChan, Registered)];
      chans := chans[nextChan := []];
      pending := pending[id := nextChan];
      nextChan := nextChan + 1;
    }

    /** One iteration of readLoop on a response: look up, forget, and send outside the lock. */
    method Dispatch(resp: Resp) returns (delivered: bool)
      requires Inv(View()) && reader == Idle
      modifies this
      ensures delivered <==> resp.id in old(pending)
      ensures !delivered ==> View() == old(View())
      ensures delivered ==> pending == old(pending) - {resp.id} && old(pending)[resp.id] in old(chans)
                            && chans == old(chans)[old(pending)[resp.id] := [resp]]
      ensures delivered ==> Enabled(Next(old(View()), Read(resp)), Deliver)
                            && View() == Next(Next(old(View()), Read(resp)), Deliver)
    {
      delivered := resp.id in pending;
      if delivered {
        assert CallOk(View(), resp.id);
        var ch := pending[resp.id];
        assert chans[ch] + [resp] == [resp];
        pending := pending - {resp.id};
        chans := chans[ch := chans[ch] + [resp]];
      }
    }

    /** The send of failAll to one pending call: the buffer has room, so it does not block. */
    method SendFailure(id: int, msg: string)
      requires Inv(View()) && reader == Failing && id in pending
      modifies this`chans, this`pending
      ensures Inv(View()) && chans.Keys == old(chans).Keys
      ensures pending == old(pending) - {id}
      ensures chans[old(pending)[id]] == [Resp(id, true, msg)]
      ensures forall ch | ch in chans && ch != old(pending)[id] :: chans[ch] == old(chans)[ch]
    {
      assert CallOk(View(), id);
      assert Enabled(View(), FailOne(id, msg));
      StepKeepsInv(View(), FailOne(id, msg));
      var ch := pending[id];
      chans := chans[ch := chans[ch] + [Resp(id, true, msg)]];
      pending := pending - {id};
    }

    /** failAll, under the table's lock; the map is walked in any order. */
    method FailAll(msg: string)
      requires Inv(View()) && reader == Failing
      modifies this`chans, this`pending
      ensures Inv(View()) && pending == map[] && chans.Keys == old(chans).Keys
      ensures forall id | id in old(pending) :: chans[old(pending)[id]] == [Resp(id, true, msg)]
      ensures forall ch | ch in chans && ch !in old(pending).Values :: chans[ch] == old(chans)[ch]
    {
      ghost var all := pending;
      assert forall i, j | i in all && j in all && i != j :: all[i] != all[j];
      var todo := pending.Keys;
      while todo != {}
        invariant todo == pending.Keys && todo <= all.Keys
        invariant Inv(View()) && chans.Keys == old(chans).Keys
        invariant forall id | id in todo :: pending[id] == all[id]
        invariant forall id | id in all && id !in todo :: chans[all[id]] == [Resp(id, true, msg)]
        invariant forall ch | ch in chans && ch !in all.Values :: chans[ch] == old(chans)[ch]
        decreases |todo|
      {
        var id := PickKey(todo);
        SendFailure(id, msg);
        todo := todo - {id};
      }
    }
  }

  method PickKey(todo: set<int>) returns (id: int)
    requires todo != {}
    ensures id in todo
  {
    HasMember(todo);
    id :| id in todo;
  }

  lemma {:induction false} HasMember(s: set<int>)
    ensures s == {} || exists x :: x in s
  {
    if forall x: int :: x !in s {
      assert s == {};
    }
  }
}
