/**
 One-time join codes and enrolment (internal/swarm/codes.go over the
 join_codes and workers tables). Every SQL statement, and the enrolment
 transaction, is one atomic step; an enrolment's query and its transaction are
 two steps, so enrolments race with each other, with Revoke, with DeleteWorker
 and with expiry.
 */
module Enrollment {

  import opened Base
  import opened JoinCode

  const CODE_TTL: nat := 15 * 60
  const BROWSER_TOKEN_TTL: nat := 24 * 60 * 60

  datatype Kind = Native | Browser

  // code_hash is compared with bcrypt; the model keeps the hashed input itself.
  datatype CodeRow = CodeRow(owner: string, hashed: string, expiresAt: nat, consumedBy: Option<Id>, consumedAt: Option<nat>)
  datatype WorkerRow = WorkerRow(owner: string, kind: Kind, enrolledAt: nat, revokedAt: Option<nat>)

  /** What an enrolment remembers between its query and its transaction. */
  datatype Match = Match(code: Id, owner: string)

  datatype State = State(
    now: nat,
    next: Id,                    // every id handed out so far is below this
    codes: map<Id, CodeRow>,
    workers: map<Id, WorkerRow>,
    enrolling: map<Id, Match>)

  datatype Event =
    | Create(owner: string, random: seq<Byte>)
    | Pick(typed: string, code: Id)
    | Commit(enrolment: Id, kind: Kind)
    | Revoke(owner: string, code: Id)
    | RevokeWorker(owner: string, worker: Id)
    | DeleteWorker(owner: string, worker: Id)
    | Tick(to: nat)

  const INIT := State(0, 0, map[], map[], map[])

  /** Unconsumed and unexpired: what the candidate query of Enroll and CheckCode returns. */
  predicate Redeemable(s: State, c: Id) {
    c in s.codes && s.codes[c].consumedBy.None? && s.now < s.codes[c].expiresAt
  }

  predicate Matches(s: State, typed: string, c: Id) {
    |NormalizeCode(typed)| == 10 && Redeemable(s, c) && s.codes[c].hashed == NormalizeCode(typed)
  }

  predicate Enabled(s: State, e: Event) {
    match e
    case Create(_, random) => |random| == 7
    case Pick(typed, c) => Matches(s, typed, c)
    case Commit(n, _) => n in s.enrolling
    case Tick(to) => s.now <= to
    case _ => true
  }

  predicate Succeeds(s: State, n: Id) {
    n in s.enrolling && Redeemable(s, s.enrolling[n].code)
  }

  function Next(s: State, e: Event): State
    requires Enabled(s, e)
  {
    match e
    case Create(owner, random) =>
      s.(next := s.next + 1,
         codes := s.codes[s.next := CodeRow(owner, NormalizeCode(CodeOf(random)), s.now + CODE_TTL, None, None)])
    case Pick(_, c) =>
      s.(next := s.next + 1, enrolling := s.enrolling[s.next := Match(c, s.codes[c].owner)])
    case Commit(n, kind) =>
      var m := s.enrolling[n];
      var rest := s.enrolling - {n};
      if Succeeds(s, n) then
        s.(next := s.next + 1,
           enrolling := rest,
           workers := s.workers[s.next := WorkerRow(m.owner, kind, s.now, None)],
           codes := s.codes[m.code := s.codes[m.code].(consumedBy := Some(s.next), consumedAt := Some(s.now))])
      else
        s.(enrolling := rest)
    case Revoke(owner, c) =>
      if c in s.codes && s.codes[c].owner == owner && s.codes[c].consumedBy.None?
      then s.(codes := s.codes - {c}) else s
    case RevokeWorker(owner, w) =>
      if w in s.workers && s.workers[w].owner == owner && s.workers[w].revokedAt.None?
      then s.(workers := s.workers[w := s.workers[w].(revokedAt := Some(s.now))]) else s
    case DeleteWorker(owner, w) =>
      if w in s.workers && s.workers[w].owner == owner
      then s.(workers := s.workers - {w}, codes := Released(s.codes, w)) else s
    case Tick(to) => s.(now := to)
  }

  /** ON DELETE SET NULL: the code a deleted worker consumed points at nobody. */
  function Released(codes: map<Id, CodeRow>, w: Id): map<Id, CodeRow> {
    map c | c in codes :: if codes[c].consumedBy == Some(w) then codes[c].(consumedBy := None) else codes[c]
  }

  ghost predicate Feasible(s: State, evs: seq<Event>)
    decreases |evs|
  {
    evs == [] || (Enabled(s, evs[0]) && Feasible(Next(s, evs[0]), evs[1..]))
  }

  ghost function After(s: State, evs: seq<Event>): State
    requires Feasible(s, evs)
    decreases |evs|
  {
    if evs == [] then s else After(Next(s, evs[0]), evs[1..])
  }

  // ---------------------------------------------------------------------
  // Invariant: workers and consumed codes correspond one to one
  // ---------------------------------------------------------------------

  ghost predicate Holds(s: State, c: Id, w: Id) {
    c in s.codes && s.codes[c].consumedBy == Some(w)
  }

  ghost predicate Bijection(s: State) {
    && (forall c, w :: Holds(s, c, w) ==> w in s.workers && s.workers[w].owner == s.codes[c].owner)
    && (forall w | w in s.workers :: exists c :: Holds(s, c, w))
    && (forall c, d, w :: Holds(s, c, w) && Holds(s, d, w) ==> c == d)
  }

  ghost predicate Fresh(s: State) {
    && (forall c | c in s.codes :: c < s.next)
    && (forall w | w in s.workers :: w < s.next)
    && (forall n | n in s.enrolling :: n < s.next && s.enrolling[n].code < s.next)
  }

  ghost predicate Inv(s: State) {
    && Fresh(s)
    && Bijection(s)
    && (forall n | n in s.enrolling && s.enrolling[n].code in s.codes ::
          s.codes[s.enrolling[n].code].owner == s.enrolling[n].owner)
    && (forall c | c in s.codes && s.codes[c].consumedBy.Some? :: s.codes[c].consumedAt.Some?)
  }

  lemma {:induction false} CommitKeepsInv(s: State, n: Id, kind: Kind)
    requires Inv(s) && Succeeds(s, n)
    ensures Inv(Next(s, Commit(n, kind)))
  {
    var t := Next(s, Commit(n, kind));
    var c0 := s.enrolling[n].code;
    assert Holds(t, c0, s.next);
    forall c, w | Holds(t, c, w) ensures w in t.workers && t.workers[w].owner == t.codes[c].owner && (w == s.next <==> c == c0) {
      if c != c0 {
        assert Holds(s, c, w);
      }
    }
    forall w | w in t.workers ensures exists c :: Holds(t, c, w) {
      if w != s.next {
        var c :| Holds(s, c, w);
        assert Holds(t, c, w);
      }
    }
    forall c, d, w | Holds(t, c, w) && Holds(t, d, w) ensures c == d {
      if c != c0 && d != c0 {
        assert Holds(s, c, w) && Holds(s, d, w);
      }
    }
  }

  lemma {:induction false} DeleteKeepsInv(s: State, owner: string, w0: Id)
    requires Inv(s)
    ensures Inv(Next(s, DeleteWorker(owner, w0)))
  {
    var t := Next(s, DeleteWorker(owner, w0));
    forall c, w | Holds(t, c, w) ensures Holds(s, c, w) {}
    forall w | w in t.workers ensures exists c :: Holds(t, c, w) {
      var c :| Holds(s, c, w);
      assert Holds(t, c, w);
    }
  }

  lemma {:induction false} SameHoldersKeepInv(s: State, t: State)
    requires Inv(s) && Fresh(t) && t.workers.Keys == s.workers.Keys
    requires forall w | w in t.workers :: t.workers[w].owner == s.workers[w].owner
    requires forall c, w :: Holds(t, c, w) <==> Holds(s, c, w)
    requires forall c | c in t.codes :: if c in s.codes then t.codes[c] == s.codes[c] else t.codes[c].consumedBy.None?
    requires forall n | n in t.enrolling && t.enrolling[n].code in t.codes :: t.codes[t.enrolling[n].code].owner == t.enrolling[n].owner
    ensures Inv(t)
  {
    forall c, w | Holds(t, c, w) ensures w in t.workers && t.workers[w].owner == t.codes[c].owner { assert Holds(s, c, w); }
    forall w | w in t.workers ensures exists c :: Holds(t, c, w) { var c :| Holds(s, c, w); assert Holds(t, c, w); }
  }

  lemma {:induction false} CodeRowsKeepInv(s: State, e: Event)
    requires Inv(s) && Enabled(s, e) && (e.Create? || e.Revoke?)
    ensures Inv(Next(s, e))
  {
    SameHoldersKeepInv(s, Next(s, e));
  }

  lemma {:induction false} QuietKeepsInv(s: State, e: Event)
    requires Inv(s) && Enabled(s, e)
    requires e.Pick? || e.RevokeWorker? || e.Tick? || (e.Commit? && !Succeeds(s, e.enrolment))
    ensures Inv(Next(s, e))
  {
    assert Next(s, e).codes == s.codes;
    SameHoldersKeepInv(s, Next(s, e));
  }

  lemma {:induction false} StepKeepsInv(s: State, e: Event)
    requires Inv(s) && Enabled(s, e)
    ensures Inv(Next(s, e))
  {
    if e.Commit? && Succeeds(s, e.enrolment) {
      CommitKeepsInv(s, e.enrolment, e.kind);
    } else if e.DeleteWorker? {
      DeleteKeepsInv(s, e.owner, e.worker);
    } else if e.Create? || e.Revoke? {
      CodeRowsKeepInv(s, e);
    } else {
      QuietKeepsInv(s, e);
    }
  }

  /** In every reachable state workers and consumed codes correspond one to one, owners agreeing. */
  lemma {:induction false} RunKeepsInv(s: State, evs: seq<Event>)
    requires Inv(s) && Feasible(s, evs)
    ensures Inv(After(s, evs))
    decreases |evs|
  {
    if evs != [] {
      StepKeepsInv(s, evs[0]);
      RunKeepsInv(Next(s, evs[0]), evs[1..]);
    }
  }

  lemma {:induction false} EnrollmentBijection(evs: seq<Event>)
    requires Feasible(INIT, evs)
    ensures Bijection(After(INIT, evs))
  {
    RunKeepsInv(INIT, evs);
  }

  // ---------------------------------------------------------------------
  // How often a code is redeemed
  // ---------------------------------------------------------------------

  /** How many successful enrolments of a run redeem code c. */
  ghost function Redemptions(s: State, evs: seq<Event>, c: Id): nat
    requires Feasible(s, evs)
    decreases |evs|
  {
    if evs == [] then 0
    else Redeems(s, evs[0], c) + Redemptions(Next(s, evs[0]), evs[1..], c)
  }

  /** How many worker deletions of a run release code c. */
  ghost function Releases(s: State, evs: seq<Event>, c: Id): nat
    requires Feasible(s, evs)
    decreases |evs|
  {
    if evs == [] then 0
    else (if evs[0].DeleteWorker? && evs[0].worker in s.workers && s.workers[evs[0].worker].owner == evs[0].owner
             && Holds(s, c, evs[0].worker) then 1 else 0)
         + Releases(Next(s, evs[0]), evs[1..], c)
  }

  ghost function Held(s: State, c: Id): nat {
    if c in s.codes && s.codes[c].consumedBy.Some? then 1 else 0
  }

  /** Conservation: every redemption is either still held or was released by deleting its worker. */
  lemma {:induction false} RedemptionsBalance(s: State, evs: seq<Event>, c: Id)
    requires Inv(s) && Feasible(s, evs)
    ensures Held(s, c) + Redemptions(s, evs, c) == Releases(s, evs, c) + Held(After(s, evs), c)
    decreases |evs|
  {
    if evs != [] {
      StepKeepsInv(s, evs[0]);
      RedemptionsBalance(Next(s, evs[0]), evs[1..], c);
    }
  }

  lemma {:induction false} NoDeletionNoRelease(s: State, evs: seq<Event>, c: Id)
    requires Feasible(s, evs) && forall e | e in evs :: !e.DeleteWorker?
    ensures Releases(s, evs, c) == 0
    decreases |evs|
  {
    if evs != [] {
      assert evs[0] in evs;
      NoDeletionNoRelease(Next(s, evs[0]), evs[1..], c);
    }
  }

  /** Without DeleteWorker a code is redeemed at most once in the whole run. */
  lemma {:induction false} SingleUseWithoutDeletion(evs: seq<Event>, c: Id)
    requires Feasible(INIT, evs) && forall e | e in evs :: !e.DeleteWorker?
    ensures Redemptions(INIT, evs, c) <= 1
  {
    RedemptionsBalance(INIT, evs, c);
    NoDeletionNoRelease(INIT, evs, c);
  }

  /**
   With it the promise fails: deleting the worker makes its code redeemable
   again exactly when the code has not expired yet.
   */
  lemma {:induction false} ReusableAfterDeletionIff(s: State, c: Id, w: Id)
    requires Inv(s) && Holds(s, c, w)
    ensures Redeemable(Next(s, DeleteWorker(s.codes[c].owner, w)), c) <==> s.now < s.codes[c].expiresAt
  {
    assert w in s.workers && s.workers[w].owner == s.codes[c].owner;
  }

  /** A run in which one code enrols two workers, whatever the random draw was. */
  lemma {:induction false} CodeRedeemedTwice(random: seq<Byte>)
    requires |random| == 7
    ensures Feasible(INIT, TwiceRun(random)) && Redemptions(INIT, TwiceRun(random), 0) == 2
  {
    var h := CodeOf(random);
    GeneratedCodeSpellings(random, h);
    var e0, e1, e2 := Create("ann", random), Pick(h, 0), Commit(1, Native);
    var last := [DeleteWorker("ann", 2)] + ([Pick(h, 0)] + [Commit(3, Native)]);
    var s1 := Next(INIT, e0);
    var s2 := Next(s1, e1);
    var s3 := Next(s2, e2);
    TwiceFirstHalf(random, s1, s2, s3);
    TwiceSecondHalf(h, s3);
    RunOfCons(s2, e2, last);
    RunOfCons(s1, e1, [e2] + last);
    RunOfCons(INIT, e0, [e1] + ([e2] + last));
    assert TwiceRun(random) == [e0] + ([e1] + ([e2] + last));
  }

  /** The worker is deleted and its code used again. */
  lemma {:induction false} TwiceSecondHalf(h: string, s: State)
    requires |NormalizeCode(h)| == 10 && s.now == 0 && s.next == 3 && s.enrolling == map[]
    requires s.workers == map[2 := WorkerRow("ann", Native, 0, None)]
    requires s.codes == map[0 := CodeRow("ann", NormalizeCode(h), CODE_TTL, Some(2), Some(0))]
    ensures var run := [DeleteWorker("ann", 2)] + ([Pick(h, 0)] + [Commit(3, Native)]);
            Feasible(s, run) && Redemptions(s, run, 0) == 1
  {
    var e3, e4, e5 := DeleteWorker("ann", 2), Pick(h, 0), Commit(3, Native);
    var s4 := Next(s, e3);
    assert Redeemable(s4, 0) && s4.codes[0].hashed == NormalizeCode(h);
    var s5 := Next(s4, e4);
    assert Redeems(s5, e5, 0) == 1;
    RunOfOne(s5, e5);
    RunOfCons(s4, e4, [e5]);
    RunOfCons(s, e3, [e4] + [e5]);
  }

  lemma {:induction false} TwiceFirstHalf(random: seq<Byte>, s1: State, s2: State, s3: State)
    requires |random| == 7
    requires s1 == Next(INIT, Create("ann", random))
    requires |NormalizeCode(CodeOf(random))| == 10
    ensures Enabled(s1, Pick(CodeOf(random), 0))
    ensures s2 == Next(s1, Pick(CodeOf(random), 0)) ==> Redeems(s2, Commit(1, Native), 0) == 1
    ensures s2 == Next(s1, Pick(CodeOf(random), 0)) && s3 == Next(s2, Commit(1, Native)) ==>
              && s3.now == 0 && s3.next == 3 && s3.enrolling == map[]
              && s3.workers == map[2 := WorkerRow("ann", Native, 0, None)]
              && s3.codes == map[0 := CodeRow("ann", NormalizeCode(CodeOf(random)), CODE_TTL, Some(2), Some(0))]
  {
    assert s1.codes == map[0 := CodeRow("ann", NormalizeCode(CodeOf(random)), CODE_TTL, None, None)];
  }

  function TwiceRun(random: seq<Byte>): seq<Event>
    requires |random| == 7
  {
    [Create("ann", random), Pick(CodeOf(random), 0), Commit(1, Native), DeleteWorker("ann", 2),
     Pick(CodeOf(random), 0), Commit(3, Native)]
  }

  lemma {:induction false} RunOfOne(s: State, e: Event)
    ensures Feasible(s, [e]) <==> Enabled(s, e)
    ensures Feasible(s, [e]) ==> forall c :: Redemptions(s, [e], c) == Redeems(s, e, c)
  {
    RunOfCons(s, e, []);
    assert [e] + [] == [e];
  }

  ghost function Redeems(s: State, e: Event, c: Id): nat {
    if e.Commit? && Succeeds(s, e.enrolment) && s.enrolling[e.enrolment].code == c then 1 else 0
  }

  lemma {:induction false} RunOfCons(s: State, e: Event, rest: seq<Event>)
    ensures Feasible(s, [e] + rest) <==> Enabled(s, e) && Feasible(Next(s, e), rest)
    ensures Feasible(s, [e] + rest) ==>
              forall c :: Redemptions(s, [e] + rest, c) == Redeems(s, e, c) + Redemptions(Next(s, e), rest, c)
  {
    assert ([e] + rest)[1..] == rest;
  }

  // ---------------------------------------------------------------------
  // Spellings and revocation
  // ---------------------------------------------------------------------

  /**
   A code stays open for every spelling of it and for nothing else: in any
   state where the row created from `random` is still redeemable, a typed
   string matches that row exactly when it spells the displayed code.
   */
  lemma {:induction false} EverySpellingMatches(s: State, c: Id, random: seq<Byte>, typed: string)
    requires |random| == 7 && Redeemable(s, c) && s.codes[c].hashed == NormalizeCode(CodeOf(random))
    ensures Matches(s, typed, c) <==> SameSpelling(typed, CodeOf(random))
  {
    GeneratedCodeSpellings(random, typed);
  }

  datatype AuthResult = Authenticated(owner: string, kind: Kind) | WorkerRevoked | TokenExpired

  /** AuthenticateWorker once the token has been looked up. */
  function Authenticate(row: WorkerRow, now: nat): AuthResult {
    if row.revokedAt.Some? then WorkerRevoked
    else if row.kind == Browser && now > row.enrolledAt + BROWSER_TOKEN_TTL then TokenExpired
    else Authenticated(row.owner, row.kind)
  }

  /** A refused worker row stays refused for the rest of its life. */
  lemma {:induction false} RefusedForever(s: State, evs: seq<Event>, w: Id)
    requires Fresh(s) && Feasible(s, evs) && w in s.workers && !Authenticate(s.workers[w], s.now).Authenticated?
    ensures w in After(s, evs).workers ==> !Authenticate(After(s, evs).workers[w], After(s, evs).now).Authenticated?
    decreases |evs|
  {
    if evs != [] {
      var t := Next(s, evs[0]);
      if w in t.workers {
        RefusedForever(t, evs[1..], w);
      } else {
        GoneForever(t, evs[1..], w);
      }
    }
  }

  lemma {:induction false} GoneForever(s: State, evs: seq<Event>, w: Id)
    requires Fresh(s) && Feasible(s, evs) && w !in s.workers && w < s.next
    ensures w !in After(s, evs).workers
    decreases |evs|
  {
    if evs != [] {
      GoneForever(Next(s, evs[0]), evs[1..], w);
    }
  }

  // What a whole run makes of a worker and of a code

  lemma {:induction false} RowStep(s: State, e: Event, w: Id)
    requires Fresh(s) && Enabled(s, e) && w in s.workers && w in Next(s, e).workers
    ensures Fresh(Next(s, e))
    ensures Next(s, e).workers[w].(revokedAt := s.workers[w].revokedAt) == s.workers[w]
    ensures Next(s, e).workers[w].revokedAt.Some? <==> s.workers[w].revokedAt.Some? || e == RevokeWorker(s.workers[w].owner, w)
  {
  }

  /** A row keeps everything but revoked_at, and that is set exactly by a revocation of its owner. */
  lemma {:induction false} RowOverRun(s: State, evs: seq<Event>, w: Id)
    requires Fresh(s) && Feasible(s, evs) && w in s.workers && w in After(s, evs).workers
    ensures After(s, evs).workers[w].(revokedAt := s.workers[w].revokedAt) == s.workers[w]
    ensures After(s, evs).workers[w].revokedAt.Some? <==> s.workers[w].revokedAt.Some? || RevokeWorker(s.workers[w].owner, w) in evs
    decreases |evs|
  {
    if evs != [] {
      var t := Next(s, evs[0]);
      if w !in t.workers {
        GoneForever(t, evs[1..], w);
      }
      RowStep(s, evs[0], w);
      RowOverRun(t, evs[1..], w);
      assert evs == [evs[0]] + evs[1..];
    }
  }

  /**
   Who gets in. Take the worker that a successful enrolment created, at any later moment
   at which its row exists: it is refused if and only if the owner of its code has
   revoked it since, or it is a browser and more than 24 hours old. Otherwise it is let
   in as that owner's worker, of the kind it enrolled as.
   */
  lemma {:induction false} AuthenticatedIff(before: seq<Event>, n: Id, kind: Kind, rest: seq<Event>)
    requires Feasible(INIT, before) && Succeeds(After(INIT, before), n)
    requires Feasible(Next(After(INIT, before), Commit(n, kind)), rest)
    requires After(INIT, before).next in After(Next(After(INIT, before), Commit(n, kind)), rest).workers
    ensures var s := After(INIT, before);
            var t, w, owner := After(Next(s, Commit(n, kind)), rest), s.next, s.codes[s.enrolling[n].code].owner;
            var r := Authenticate(t.workers[w], t.now);
            && (!r.Authenticated? <==> RevokeWorker(owner, w) in rest || (kind == Browser && t.now > s.now + 24 * 60 * 60))
            && (RevokeWorker(owner, w) in rest <==> r == WorkerRevoked)
            && (r.Authenticated? ==> r == Authenticated(owner, kind))
  {
    RunKeepsInv(INIT, before);
    StepKeepsInv(After(INIT, before), Commit(n, kind));
    RowOverRun(Next(After(INIT, before), Commit(n, kind)), rest, After(INIT, before).next);
  }

  /** The owner takes the code back while nobody holds it. */
  ghost predicate Withdrawn(s: State, evs: seq<Event>, owner: string, c: Id)
    requires Feasible(s, evs)
    decreases |evs|
  {
    evs != [] && ((evs[0] == Revoke(owner, c) && Held(s, c) == 0) || Withdrawn(Next(s, evs[0]), evs[1..], owner, c))
  }

  lemma {:induction false} CodeOverRun(s: State, evs: seq<Event>, c: Id)
    requires Inv(s) && Feasible(s, evs) && c in s.codes
    ensures c in After(s, evs).codes <==> !Withdrawn(s, evs, s.codes[c].owner, c)
    ensures var t := After(s, evs);
            c in t.codes ==> t.codes[c].owner == s.codes[c].owner && t.codes[c].hashed == s.codes[c].hashed
                             && t.codes[c].expiresAt == s.codes[c].expiresAt
    decreases |evs|
  {
    if evs != [] {
      var t := Next(s, evs[0]);
      StepKeepsInv(s, evs[0]);
      if c in t.codes {
        CodeOverRun(t, evs[1..], c);
      } else {
        CodeGone(t, evs[1..], c);
      }
    }
  }

  lemma {:induction false} CodeGone(s: State, evs: seq<Event>, c: Id)
    requires Inv(s) && Feasible(s, evs) && c !in s.codes && c < s.next
    ensures c !in After(s, evs).codes
    decreases |evs|
  {
    if evs != [] {
      StepKeepsInv(s, evs[0]);
      CodeGone(Next(s, evs[0]), evs[1..], c);
    }
  }

  /**
   How long a code is open. At any moment after its creation a typed text matches it if
   and only if the text spells it, less than 15 minutes have passed, its owner has not
   taken it back, and every redemption of it has been released by deleting the worker.
   */
  lemma {:induction false} CodeOpenIff(before: seq<Event>, owner: string, random: seq<Byte>, rest: seq<Event>, typed: string)
    requires |random| == 7 && Feasible(INIT, before) && Feasible(Next(After(INIT, before), Create(owner, random)), rest)
    ensures var s := After(INIT, before);
            var u, c := Next(s, Create(owner, random)), s.next;
            var t := After(u, rest);
            Matches(t, typed, c) <==>
              && SameSpelling(typed, CodeOf(random))
              && t.now < s.now + 15 * 60
              && !Withdrawn(u, rest, owner, c)
              && Redemptions(u, rest, c) == Releases(u, rest, c)
  {
    var s := After(INIT, before);
    var u, c := Next(s, Create(owner, random)), s.next;
    RunKeepsInv(INIT, before);
    StepKeepsInv(s, Create(owner, random));
    CodeOverRun(u, rest, c);
    RedemptionsBalance(u, rest, c);
    GeneratedCodeSpellings(random, typed);
  }

  // ---------------------------------------------------------------------
  // The Codes service
  // ---------------------------------------------------------------------

  datatype EnrollResult = Enrolled(worker: Id, owner: string) | CodeInvalid

  class Codes {
    var now: nat
    var next: Id
    var codes: map<Id, CodeRow>
    var workers: map<Id, WorkerRow>
    var enrolling: map<Id, Match>

    function View(): State
      reads this
    {
      State(now, next, codes, workers, enrolling)
    }

    constructor ()
      ensures View() == INIT
    {
      now, next, codes, workers, enrolling := 0, 0, map[], map[], map[];
    }

    method CreateCode(owner: string, random: seq<Byte>) returns (id: Id, plain: string)
      requires |random| == 7
      modifies this
      ensures View() == Next(old(View()), Create(owner, random))
      ensures id == old(next) && plain == CodeOf(random)
      ensures codes == old(codes)[id := CodeRow(owner, NormalizeCode(plain), old(now) + 15 * 60, None, None)]
    {
      plain := GenerateCode(random);
      id := next;
      codes := codes[id := CodeRow(owner, NormalizeCode(plain), now + CODE_TTL, None, None)];
      next := next + 1;
    }

    method RevokeCode(owner: string, id: Id) returns (ok: bool)
      modifies this
      ensures View() == Next(old(View()), Revoke(owner, id))
      ensures ok <==> id in old(codes) && old(codes)[id].owner == owner && old(codes)[id].consumedBy.None?
      ensures codes == if ok then old(codes) - {id} else old(codes)
    {
      ok := id in codes && codes[id].owner == owner && codes[id].consumedBy.None?;
      if ok {
        codes := codes - {id};
      }
    }

    /** The row scan of Enroll and CheckCode: the first matching candidate in whatever order rows arrive. */
    method FindMatch(typed: string) returns (found: Option<Id>)
      ensures found.Some? ==> Matches(View(), typed, found.value)
      ensures found.None? ==> forall c :: !Matches(View(), typed, c)
    {
      var norm := NormalizeCode(typed);
      found := None;
      if |norm| != 10 {
        return;
      }
      var rows := set c | c in codes && codes[c].consumedBy.None? && now < codes[c].expiresAt;
      while rows != {}
        invariant rows <= codes.Keys && forall c | c in rows :: Redeemable(View(), c)
        invariant forall c :: Matches(View(), typed, c) ==> c in rows
        decreases |rows|
      {
        var c :| c in rows;
        if codes[c].hashed == norm {
          return Some(c);
        }
        rows := rows - {c};
      }
    }

    method CheckCode(typed: string) returns (ok: bool)
      ensures ok <==> exists c :: Matches(View(), typed, c)
    {
      var found := FindMatch(typed);
      ok := found.Some?;
    }

    /** First half of Enroll: pick a candidate row. */
    method EnrollPick(typed: string) returns (enrolment: Option<Id>)
      modifies this
      ensures enrolment.None? ==> View() == old(View()) && forall c :: !Matches(old(View()), typed, c)
      ensures enrolment.Some? ==> enrolment.value == old(next) && old(next) in enrolling
                                  && Matches(old(View()), typed, enrolling[old(next)].code)
                                  && View() == Next(old(View()), Pick(typed, enrolling[old(next)].code))
    {
      var found := FindMatch(typed);
      if found.None? {
        return None;
      }
      enrolling := enrolling[next := Match(found.value, codes[found.value].owner)];
      enrolment := Some(next);
      next := next + 1;
    }

    /** Second half of Enroll: the transaction that inserts the worker and consumes the code, or rolls back. */
    method EnrollCommit(enrolment: Id, kind: Kind) returns (r: EnrollResult)
      requires Fresh(View()) && enrolment in enrolling
      modifies this
      ensures View() == Next(old(View()), Commit(enrolment, kind))
      ensures var c := old(enrolling)[enrolment].code;
              && (r.Enrolled? <==> c in old(codes) && old(codes)[c].consumedBy.None? && old(now) < old(codes)[c].expiresAt)
              && (r.Enrolled? ==>
                    && r.owner == old(enrolling)[enrolment].owner && r.worker !in old(workers)
                    && workers == old(workers)[r.worker := WorkerRow(r.owner, kind, old(now), None)]
                    && codes == old(codes)[c := old(codes)[c].(consumedBy := Some(r.worker), consumedAt := Some(old(now)))])
              && (r.CodeInvalid? ==> workers == old(workers) && codes == old(codes))
    {
      var m := enrolling[enrolment];
      enrolling := enrolling - {enrolment};
      if m.code !in codes || codes[m.code].consumedBy.Some? || codes[m.code].expiresAt <= now {
        return CodeInvalid;
      }
      workers := workers[next := WorkerRow(m.owner, kind, now, None)];
      codes := codes[m.code := codes[m.code].(consumedBy := Some(next), consumedAt := Some(now))];
      r := Enrolled(next, m.owner);
      next := next + 1;
    }

    method RemoveWorker(owner: string, w: Id) returns (ok: bool)
      modifies this
      ensures View() == Next(old(View()), DeleteWorker(owner, w))
      ensures ok <==> w in old(workers) && old(workers)[w].owner == owner
      ensures workers == if ok then old(workers) - {w} else old(workers)
      ensures codes.Keys == old(codes).Keys
      ensures forall c | c in codes ::
                codes[c] == if ok && old(codes)[c].consumedBy == Some(w) then old(codes)[c].(consumedBy := None) else old(codes)[c]
    {
      ok := w in workers && workers[w].owner == owner;
      if ok {
        workers := workers - {w};
        codes := map c | c in codes :: if codes[c].consumedBy == Some(w) then codes[c].(consumedBy := None) else codes[c];
      }
    }
  }
}
