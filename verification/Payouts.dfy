/**
 Payout observation: extracting payments from a pool's JSON response and
 recording them once each (internal/payouts/poller.go, InsertPayout of
 internal/store/store.go).
 */
module Payouts {

  import opened Base
  import Template

  // ---------------------------------------------------------------------
  // extractPayments
  // ---------------------------------------------------------------------

  datatype Json =
    | Null | Bool(b: bool) | Num(n: real) | Str(s: string)
    | Arr(items: seq<Json>) | Obj(fields: map<string, Json>)

  datatype Payment = Payment(txid: string, amount: real, paidAt: Option<int>)

  const LISTS := ["payments", "Payments"]
  const TX_KEYS := ["tx", "txid", "tx_hash", "txHash", "hash"]
  const AMOUNT_KEYS := ["amount", "value"]
  const TIME_KEYS := ["timestamp", "time", "date", "created_at"]

  /** How fmt.Sscanf("%g") and time.Parse(RFC3339) read a text. */
  datatype Readers = Readers(number: string -> Option<real>, date: string -> Option<int>)

  /** Go's float-to-int64 conversion, toward zero. */
  function Truncate(r: real): (n: int)
    ensures if r >= 0.0 then n as real <= r < n as real + 1.0 else n as real - 1.0 < r <= n as real
  {
    if r >= 0.0 then r.Floor else -((-r).Floor)
  }

  function AmountIn(v: Json, rd: Readers): Option<real> {
    match v
    case Num(n) => Some(n)
    case Str(s) => rd.number(s)
    case _ => None
  }

  function TimeIn(v: Json, rd: Readers): Option<int> {
    match v
    case Num(n) => Some(Truncate(n))
    case Str(s) => rd.date(s)
    case _ => None
  }

  function Field(m: map<string, Json>, k: string): Json {
    if k in m then m[k] else Null
  }

  predicate IsText(v: Json) { v.Str? && v.s != "" }

  /** i is the position of the first key holding a non-empty text. */
  predicate FirstText(m: map<string, Json>, keys: seq<string>, i: nat) {
    i < |keys| && IsText(Field(m, keys[i])) && forall j | 0 <= j < i :: !IsText(Field(m, keys[j]))
  }

  /** i is the position of the last key holding something `get` reads. */
  predicate LastReadable<T>(m: map<string, Json>, keys: seq<string>, get: Json -> Option<T>, i: nat) {
    i < |keys| && get(Field(m, keys[i])).Some? && forall j | i < j < |keys| :: get(Field(m, keys[j])).None?
  }

  /** What a payment entry must say: the first transaction key wins, the last amount and the last time key do. */
  ghost predicate Reads(m: map<string, Json>, rd: Readers, p: Payment) {
    var txs, amounts, times := ["tx", "txid", "tx_hash", "txHash", "hash"], ["amount", "value"], ["timestamp", "time", "date", "created_at"];
    && (p.txid == "" ==> forall j | 0 <= j < |txs| :: !IsText(Field(m, txs[j])))
    && (p.txid != "" ==> exists i: nat :: FirstText(m, txs, i) && Field(m, txs[i]) == Str(p.txid))
    && ((p.amount == 0.0 && forall j | 0 <= j < |amounts| :: AmountIn(Field(m, amounts[j]), rd).None?)
        || exists i: nat :: LastReadable(m, amounts, v => AmountIn(v, rd), i) && AmountIn(Field(m, amounts[i]), rd) == Some(p.amount))
    && ((p.paidAt.None? && forall j | 0 <= j < |times| :: TimeIn(Field(m, times[j]), rd).None?)
        || exists i: nat :: LastReadable(m, times, v => TimeIn(v, rd), i) && TimeIn(Field(m, times[i]), rd) == p.paidAt)
  }

  method TxIdOf(m: map<string, Json>) returns (txid: string)
    ensures txid == "" ==> forall j | 0 <= j < |TX_KEYS| :: !IsText(Field(m, TX_KEYS[j]))
    ensures txid != "" ==> exists i: nat :: FirstText(m, TX_KEYS, i) && Field(m, TX_KEYS[i]) == Str(txid)
  {
    txid := "";
    var keys := TX_KEYS;
    for i := 0 to |keys|
      invariant txid == "" && forall j | 0 <= j < i :: !IsText(Field(m, keys[j]))
    {
      var v := Field(m, keys[i]);
      if IsText(v) {
        assert FirstText(m, TX_KEYS, i);
        return v.s;
      }
    }
  }

  /** The loops over amount and time keys, where a later key overrides an earlier one. */
  method LastOf<T>(m: map<string, Json>, keys: seq<string>, get: Json -> Option<T>) returns (r: Option<T>)
    ensures r.None? ==> forall j | 0 <= j < |keys| :: get(Field(m, keys[j])).None?
    ensures r.Some? ==> exists i: nat :: LastReadable(m, keys, get, i) && get(Field(m, keys[i])) == r
  {
    r := None;
    ghost var at := 0;
    for i := 0 to |keys|
      invariant r.None? ==> forall j | 0 <= j < i :: get(Field(m, keys[j])).None?
      invariant r.Some? ==> at < i && get(Field(m, keys[at])) == r && forall j | at < j < i :: get(Field(m, keys[j])).None?
    {
      var v := get(Field(m, keys[i]));
      if v.Some? {
        r := v;
        at := i;
      }
    }
    if r.Some? {
      assert LastReadable(m, keys, get, at);
    }
  }

  method ReadPayment(m: map<string, Json>, rd: Readers) returns (p: Payment)
    ensures Reads(m, rd, p)
  {
    var txid := TxIdOf(m);
    var amount := LastOf(m, AMOUNT_KEYS, v => AmountIn(v, rd));
    var paidAt := LastOf(m, TIME_KEYS, v => TimeIn(v, rd));
    p := Payment(txid, if amount.Some? then amount.value else 0.0, paidAt);
  }

  function Objects(items: seq<Json>): seq<map<string, Json>> {
    if items == [] then []
    else (if items[0].Obj? then [items[0].fields] else []) + Objects(items[1..])
  }

  /** The objects among some values, in order. */
  lemma {:induction false} ObjectsInOrder(items: seq<Json>)
    ensures var objs := Filter((v: Json) => v.Obj?, items);
            |Objects(items)| == |objs| && forall i | 0 <= i < |objs| :: objs[i] == Obj(Objects(items)[i])
  {
    if items != [] {
      ObjectsInOrder(items[1..]);
    }
  }

  predicate ListAt(doc: Json, key: string) { doc.Obj? && key in doc.fields && doc.fields[key].Arr? }

  /** The array a response's payments are taken from. */
  function PaymentList(doc: Json): (arr: seq<Json>)
    ensures ListAt(doc, "payments") ==> arr == doc.fields["payments"].items
    ensures !ListAt(doc, "payments") && ListAt(doc, "Payments") ==> arr == doc.fields["Payments"].items
    ensures !ListAt(doc, "payments") && !ListAt(doc, "Payments") ==> arr == []
  {
    if !doc.Obj? then []
    else if Field(doc.fields, "payments").Arr? then doc.fields["payments"].items
    else if Field(doc.fields, "Payments").Arr? then doc.fields["Payments"].items
    else []
  }

  /** extractPayments: one payment per object of the list, in order. */
  method ExtractPayments(doc: Json, rd: Readers) returns (ps: seq<Payment>)
    ensures var objs := Filter((v: Json) => v.Obj?, PaymentList(doc));
            |ps| == |objs| && forall i | 0 <= i < |ps| :: objs[i].Obj? && Reads(objs[i].fields, rd, ps[i])
  {
    ps := [];
    if !doc.Obj? {
      return;
    }
    var arr: seq<Json> := [];
    var keys := LISTS;
    assert |keys| == 2 && keys[0] == "payments" && keys[1] == "Payments";
    for i := 0 to |keys|
      invariant arr == []
      invariant forall j | 0 <= j < i :: !Field(doc.fields, keys[j]).Arr?
    {
      var v := Field(doc.fields, keys[i]);
      if v.Arr? {
        arr := v.items;
        break;
      }
    }
    assert arr == PaymentList(doc);
    var i := 0;
    ghost var seen: seq<map<string, Json>> := [];
    while i < |arr|
      invariant 0 <= i <= |arr|
      invariant seen + Objects(arr[i..]) == Objects(arr)
      invariant |ps| == |seen| && forall j | 0 <= j < |ps| :: Reads(seen[j], rd, ps[j])
    {
      assert arr[i..][1..] == arr[i + 1..];
      if arr[i].Obj? {
        var p := ReadPayment(arr[i].fields, rd);
        ps := ps + [p];
        assert seen + ([arr[i].fields] + Objects(arr[i + 1..])) == (seen + [arr[i].fields]) + Objects(arr[i + 1..]);
        seen := seen + [arr[i].fields];
      }
      i := i + 1;
    }
    assert seen == Objects(arr);
    ObjectsInOrder(arr);
  }

  // ---------------------------------------------------------------------
  // The ledger
  // ---------------------------------------------------------------------

  /** One (wallet, pool endpoint) pair being polled. */
  datatype PoolApi = PoolApi(owner: string, currency: string, address: string, txTpl: string, pool: string)

  datatype Row = Row(owner: string, currency: string, txid: Option<string>, amount: real, explorerURL: string, pool: string, paidAt: Option<int>)

  datatype Detected = Detected(owner: string, currency: string, amount: real, txid: string, explorerURL: string, verified: bool)

  function ExplorerURL(q: PoolApi, txid: string): string {
    if txid != "" && Template.IndexFrom(q.txTpl, "{txid}", 0) >= 0 then Template.ReplaceAll(q.txTpl, "{txid}", txid) else ""
  }

  function RowOf(q: PoolApi, p: Payment): Row {
    Row(q.owner, q.currency, if p.txid == "" then None else Some(p.txid), p.amount, ExplorerURL(q, p.txid), q.pool, p.paidAt)
  }

  function EventOf(r: Row): Detected {
    Detected(r.owner, r.currency, r.amount, if r.txid.Some? then r.txid.value else "", r.explorerURL, r.explorerURL != "")
  }

  predicate Conflicts(rows: seq<Row>, r: Row) {
    r.txid.Some? && exists i :: 0 <= i < |rows| && rows[i].currency == r.currency && rows[i].txid == r.txid
  }

  /** INSERT ... ON CONFLICT (currency_id, txid) DO NOTHING; a NULL txid never conflicts. */
  function Insert(rows: seq<Row>, r: Row): seq<Row> {
    if Conflicts(rows, r) then rows else rows + [r]
  }

  function Record(rows: seq<Row>, q: PoolApi, p: Payment): seq<Row> {
    if p.amount <= 0.0 then rows else Insert(rows, RowOf(q, p))
  }

  function RecordAll(rows: seq<Row>, q: PoolApi, ps: seq<Payment>): seq<Row>
    decreases |ps|
  {
    if ps == [] then rows else RecordAll(Record(rows, q, ps[0]), q, ps[1..])
  }

  function EventsOf(rows: seq<Row>): seq<Detected> {
    if rows == [] then [] else EventsOf(rows[..|rows| - 1]) + [EventOf(rows[|rows| - 1])]
  }

  lemma {:induction false} ReplacesOne(a: string, k: string, b: string, v: string)
    requires Template.IsKey(k) && '{' !in a && '{' !in b
    ensures Template.ReplaceAll(a + (k + b), k, v) == a + (v + b)
  {
    Template.ReplaceSkips(a, k + b, k, v);
    assert k + b != "" && k <= k + b && (k + b)[|k|..] == b;
    Template.ReplaceSkips(b, "", k, v);
    assert b + "" == b;
  }

  lemma {:induction false} FindsIt(a: string, k: string, b: string)
    ensures Template.IndexFrom(a + (k + b), k, 0) >= 0
  {
    assert (a + (k + b))[|a|..|a| + |k|] == k;
    assert Template.Occurs(a + (k + b), k, |a|);
  }

  /** The link to a transaction is the explorer's template with the id in its place. */
  lemma {:induction false} ExplorerLink(q: PoolApi, a: string, b: string, txid: string)
    requires q.txTpl == a + "{txid}" + b && '{' !in a && '{' !in b
    ensures ExplorerURL(q, txid) == if txid == "" then "" else a + txid + b
  {
    var k := "{txid}";
    assert Template.IsKey(k);
    assert q.txTpl == a + (k + b);
    FindsIt(a, k, b);
    ReplacesOne(a, k, b, txid);
    assert a + (txid + b) == a + txid + b;
  }

  class Ledger {
    var rows: seq<Row>
    var published: seq<Detected>

    constructor ()
      ensures rows == [] && published == []
    {
      rows, published := [], [];
    }

    method InsertPayout(r: Row) returns (inserted: bool)
      modifies this`rows
      ensures rows == Insert(old(rows), r) && (inserted <==> !Conflicts(old(rows), r))
    {
      inserted := true;
      if r.txid.Some? {
        for i := 0 to |rows|
          invariant rows == old(rows) && inserted
          invariant forall j | 0 <= j < i :: !(rows[j].currency == r.currency && rows[j].txid == r.txid)
        {
          if rows[i].currency == r.currency && rows[i].txid == r.txid {
            return false;
          }
        }
      }
      rows := rows + [r];
    }

    /** The recording loop of check, with a live broker. */
    method Check(q: PoolApi, ps: seq<Payment>)
      requires published == EventsOf(rows)
      modifies this
      ensures rows == RecordAll(old(rows), q, ps)
      ensures published == EventsOf(rows)
    {
      var i := 0;
      while i < |ps|
        invariant 0 <= i <= |ps|
        invariant RecordAll(rows, q, ps[i..]) == RecordAll(old(rows), q, ps)
        invariant published == EventsOf(rows)
      {
        assert ps[i..][1..] == ps[i + 1..];
        if ps[i].amount > 0.0 {
          var r := RowOf(q, ps[i]);
          var inserted := InsertPayout(r);
          if inserted {
            assert rows[..|rows| - 1] + [r] == rows;
            published := published + [EventOf(r)];
          }
        }
        i := i + 1;
      }
    }
  }

  // ---------------------------------------------------------------------
  // Theorems
  // ---------------------------------------------------------------------

  /** At most one row per currency and transaction id. */
  ghost predicate Unique(rows: seq<Row>) {
    forall i, j | 0 <= i < j < |rows| && rows[i].txid.Some? :: !(rows[i].currency == rows[j].currency && rows[i].txid == rows[j].txid)
  }

  datatype Seen = Seen(currency: string, payment: Payment)

  datatype Poll = Poll(api: PoolApi, payments: seq<Payment>)

  /** Everything a sequence of polls has seen, in order. */
  function History(polls: seq<Poll>): seq<Seen> {
    if polls == [] then [] else SeenIn(polls[0].api, polls[0].payments) + History(polls[1..])
  }

  function SeenIn(q: PoolApi, ps: seq<Payment>): seq<Seen> {
    if ps == [] then [] else [Seen(q.currency, ps[0])] + SeenIn(q, ps[1..])
  }

  function Polled(rows: seq<Row>, polls: seq<Poll>): seq<Row>
    decreases |polls|
  {
    if polls == [] then rows else Polled(RecordAll(rows, polls[0].api, polls[0].payments), polls[1..])
  }

  /** The first positive amount seen for a transaction. */
  function FirstAmount(h: seq<Seen>, currency: string, txid: string): Option<real> {
    if h == [] then None
    else if h[0].currency == currency && h[0].payment.txid == txid && h[0].payment.amount > 0.0 then Some(h[0].payment.amount)
    else FirstAmount(h[1..], currency, txid)
  }

  /** The amount the ledger holds for a transaction. */
  function Booked(rows: seq<Row>, currency: string, txid: string): Option<real> {
    if rows == [] then None
    else if rows[0].currency == currency && rows[0].txid == Some(txid) then Some(rows[0].amount)
    else Booked(rows[1..], currency, txid)
  }

  function OrElse(a: Option<real>, b: Option<real>): Option<real> { if a.Some? then a else b }

  lemma {:induction false} BookedSnoc(rows: seq<Row>, r: Row, currency: string, txid: string)
    ensures Booked(rows + [r], currency, txid)
            == OrElse(Booked(rows, currency, txid), if r.currency == currency && r.txid == Some(txid) then Some(r.amount) else None)
  {
    if rows == [] {
      assert rows + [r] == [r];
    } else {
      assert (rows + [r])[1..] == rows[1..] + [r];
      BookedSnoc(rows[1..], r, currency, txid);
    }
  }

  lemma {:induction false} BookedIff(rows: seq<Row>, currency: string, txid: string)
    ensures Booked(rows, currency, txid).Some? <==>
              exists i :: 0 <= i < |rows| && rows[i].currency == currency && rows[i].txid == Some(txid)
  {
    if rows != [] {
      BookedIff(rows[1..], currency, txid);
      if i :| 0 <= i < |rows| && rows[i].currency == currency && rows[i].txid == Some(txid) {
        if i > 0 {
          assert rows[1..][i - 1] == rows[i];
        }
      }
    }
  }

  lemma {:induction false} RecordBooks(rows: seq<Row>, q: PoolApi, p: Payment, currency: string, txid: string)
    requires txid != ""
    ensures Booked(Record(rows, q, p), currency, txid) == OrElse(Booked(rows, currency, txid), FirstAmount([Seen(q.currency, p)], currency, txid))
  {
    var r := RowOf(q, p);
    BookedSnoc(rows, r, currency, txid);
    BookedIff(rows, currency, txid);
    assert FirstAmount([Seen(q.currency, p)][1..], currency, txid) == None;
    if r.txid.Some? && r.currency == currency && r.txid == Some(txid) {
      assert Conflicts(rows, r) <==> Booked(rows, currency, txid).Some?;
    }
  }

  lemma {:induction false} FirstAmountConcat(a: seq<Seen>, b: seq<Seen>, currency: string, txid: string)
    ensures FirstAmount(a + b, currency, txid) == OrElse(FirstAmount(a, currency, txid), FirstAmount(b, currency, txid))
  {
    if a == [] {
      assert a + b == b;
    } else {
      assert (a + b)[1..] == a[1..] + b;
      FirstAmountConcat(a[1..], b, currency, txid);
    }
  }

  lemma {:induction false} RecordAllBooks(rows: seq<Row>, q: PoolApi, ps: seq<Payment>, currency: string, txid: string)
    requires txid != ""
    ensures Booked(RecordAll(rows, q, ps), currency, txid) == OrElse(Booked(rows, currency, txid), FirstAmount(SeenIn(q, ps), currency, txid))
    decreases |ps|
  {
    if ps != [] {
      RecordBooks(rows, q, ps[0], currency, txid);
      RecordAllBooks(Record(rows, q, ps[0]), q, ps[1..], currency, txid);
      FirstAmountConcat([Seen(q.currency, ps[0])], SeenIn(q, ps[1..]), currency, txid);
    }
  }

  /** After any sequence of polls the ledger holds, per transaction, the first positive amount ever seen. */
  lemma {:induction false} LedgerHoldsFirstAmount(rows: seq<Row>, polls: seq<Poll>, currency: string, txid: string)
    requires txid != ""
    ensures Booked(Polled(rows, polls), currency, txid) == OrElse(Booked(rows, currency, txid), FirstAmount(History(polls), currency, txid))
    decreases |polls|
  {
    if polls != [] {
      var p := polls[0];
      RecordAllBooks(rows, p.api, p.payments, currency, txid);
      LedgerHoldsFirstAmount(RecordAll(rows, p.api, p.payments), polls[1..], currency, txid);
      FirstAmountConcat(SeenIn(p.api, p.payments), History(polls[1..]), currency, txid);
    }
  }

  lemma {:induction false} RecordAllUnique(rows: seq<Row>, q: PoolApi, ps: seq<Payment>)
    requires Unique(rows)
    ensures Unique(RecordAll(rows, q, ps))
    decreases |ps|
  {
    if ps != [] {
      var r := RowOf(q, ps[0]);
      var next := Record(rows, q, ps[0]);
      assert Unique(next) by {
        if next != rows {
          assert next == rows + [r] && !Conflicts(rows, r);
          forall i, j | 0 <= i < j < |next| && next[i].txid.Some?
            ensures !(next[i].currency == next[j].currency && next[i].txid == next[j].txid)
          {
            assert next[i] == rows[i];
          }
        }
      }
      RecordAllUnique(next, q, ps[1..]);
    }
  }

  /** ... and never two rows for one transaction. */
  lemma {:induction false} LedgerUnique(rows: seq<Row>, polls: seq<Poll>)
    requires Unique(rows)
    ensures Unique(Polled(rows, polls))
    decreases |polls|
  {
    if polls != [] {
      RecordAllUnique(rows, polls[0].api, polls[0].payments);
      LedgerUnique(RecordAll(rows, polls[0].api, polls[0].payments), polls[1..]);
    }
  }

  /** The rows a response adds every time it is polled: its positive payments without a transaction id. */
  function Untracked(q: PoolApi, ps: seq<Payment>): seq<Row> {
    if ps == [] then []
    else (if ps[0].amount > 0.0 && ps[0].txid == "" then [RowOf(q, ps[0])] else []) + Untracked(q, ps[1..])
  }

  ghost predicate Covers(rows: seq<Row>, q: PoolApi, ps: seq<Payment>) {
    forall i | 0 <= i < |ps| && ps[i].amount > 0.0 && ps[i].txid != "" :: Conflicts(rows, RowOf(q, ps[i]))
  }

  lemma {:induction false} ConflictPersists(rows: seq<Row>, more: seq<Row>, r: Row)
    requires Conflicts(rows, r)
    ensures Conflicts(rows + more, r)
  {
    var i :| 0 <= i < |rows| && rows[i].currency == r.currency && rows[i].txid == r.txid;
    assert (rows + more)[i] == rows[i];
  }

  lemma {:induction false} RecordAllGrows(rows: seq<Row>, q: PoolApi, ps: seq<Payment>) returns (more: seq<Row>)
    ensures RecordAll(rows, q, ps) == rows + more
    decreases |ps|
  {
    if ps == [] {
      more := [];
    } else {
      var next := Record(rows, q, ps[0]);
      var rest := RecordAllGrows(next, q, ps[1..]);
      more := next[|rows|..] + rest;
      assert rows <= next;
      assert next == rows + next[|rows|..];
    }
  }

  lemma {:induction false} AfterRecordingCovered(rows: seq<Row>, q: PoolApi, ps: seq<Payment>)
    ensures Covers(RecordAll(rows, q, ps), q, ps)
    decreases |ps|
  {
    if ps != [] {
      var r := RowOf(q, ps[0]);
      var next := Record(rows, q, ps[0]);
      AfterRecordingCovered(next, q, ps[1..]);
      var more := RecordAllGrows(next, q, ps[1..]);
      forall i | 0 <= i < |ps| && ps[i].amount > 0.0 && ps[i].txid != "" ensures Conflicts(RecordAll(rows, q, ps), RowOf(q, ps[i])) {
        if i == 0 {
          if !Conflicts(rows, r) {
            assert next[|rows|] == r;
          }
          assert Conflicts(next, r);
          ConflictPersists(next, more, r);
        } else {
          assert ps[1..][i - 1] == ps[i];
        }
      }
    }
  }

  lemma {:induction false} CoveredAddsUntracked(rows: seq<Row>, q: PoolApi, ps: seq<Payment>)
    requires Covers(rows, q, ps)
    ensures RecordAll(rows, q, ps) == rows + Untracked(q, ps)
    decreases |ps|
  {
    if ps != [] {
      var next := Record(rows, q, ps[0]);
      var add := if ps[0].amount > 0.0 && ps[0].txid == "" then [RowOf(q, ps[0])] else [];
      assert next == rows + add;
      forall i | 0 <= i < |ps[1..]| && ps[1..][i].amount > 0.0 && ps[1..][i].txid != "" ensures Conflicts(next, RowOf(q, ps[1..][i])) {
        assert ps[1..][i] == ps[i + 1];
        ConflictPersists(rows, add, RowOf(q, ps[i + 1]));
      }
      CoveredAddsUntracked(next, q, ps[1..]);
      assert (rows + add) + Untracked(q, ps[1..]) == rows + (add + Untracked(q, ps[1..]));
    }
  }

  /** Polling a response again adds exactly its payments without a transaction id, and nothing else. */
  lemma {:induction false} RepollAddsOnlyUntracked(rows: seq<Row>, q: PoolApi, ps: seq<Payment>)
    ensures RecordAll(RecordAll(rows, q, ps), q, ps) == RecordAll(rows, q, ps) + Untracked(q, ps)
  {
    AfterRecordingCovered(rows, q, ps);
    CoveredAddsUntracked(RecordAll(rows, q, ps), q, ps);
  }

  /** So polling is idempotent if and only if every positive payment carries a transaction id. */
  lemma {:induction false} RepollIdempotentIff(rows: seq<Row>, q: PoolApi, ps: seq<Payment>)
    ensures RecordAll(RecordAll(rows, q, ps), q, ps) == RecordAll(rows, q, ps)
            <==> forall i | 0 <= i < |ps| :: ps[i].amount > 0.0 ==> ps[i].txid != ""
  {
    RepollAddsOnlyUntracked(rows, q, ps);
    UntrackedEmptyIff(q, ps);
    var once := RecordAll(rows, q, ps);
    assert |once + Untracked(q, ps)| == |once| + |Untracked(q, ps)|;
  }

  lemma {:induction false} UntrackedEmptyIff(q: PoolApi, ps: seq<Payment>)
    ensures Untracked(q, ps) == [] <==> forall i | 0 <= i < |ps| :: ps[i].amount > 0.0 ==> ps[i].txid != ""
  {
    if ps != [] {
      UntrackedEmptyIff(q, ps[1..]);
      assert forall i | 0 <= i < |ps[1..]| :: ps[1..][i] == ps[i + 1];
      if Untracked(q, ps) == [] {
        forall i | 0 <= i < |ps| ensures ps[i].amount > 0.0 ==> ps[i].txid != "" {
          if i > 0 {
            assert ps[1..][i - 1] == ps[i];
          }
        }
      }
    }
  }

  lemma {:induction false} EventsOfRows(rows: seq<Row>)
    ensures |EventsOf(rows)| == |rows| && forall i | 0 <= i < |rows| :: EventsOf(rows)[i] == EventOf(rows[i])
  {
    if rows != [] {
      EventsOfRows(rows[..|rows| - 1]);
    }
  }

  /** A transaction id that is recorded is never empty, so an event's empty id means a payment without one. */
  ghost predicate NamedIds(rows: seq<Row>) { forall i | 0 <= i < |rows| :: rows[i].txid != Some("") }

  lemma {:induction false} RecordAllNamed(rows: seq<Row>, q: PoolApi, ps: seq<Payment>)
    requires NamedIds(rows)
    ensures NamedIds(RecordAll(rows, q, ps))
    decreases |ps|
  {
    if ps != [] {
      RecordAllNamed(Record(rows, q, ps[0]), q, ps[1..]);
    }
  }

  lemma {:induction false} PolledNamed(rows: seq<Row>, polls: seq<Poll>)
    requires NamedIds(rows)
    ensures NamedIds(Polled(rows, polls))
    decreases |polls|
  {
    if polls != [] {
      RecordAllNamed(rows, polls[0].api, polls[0].payments);
      PolledNamed(RecordAll(rows, polls[0].api, polls[0].payments), polls[1..]);
    }
  }

  /** Some event announces the transaction, and with this amount. */
  ghost predicate Announces(events: seq<Detected>, currency: string, txid: string, amount: real) {
    exists i :: 0 <= i < |events| && events[i].currency == currency && events[i].txid == txid && events[i].amount == amount
  }

  lemma {:induction false} AnnouncedIffBooked(rows: seq<Row>, currency: string, txid: string, amount: real)
    requires Unique(rows) && NamedIds(rows) && txid != ""
    ensures Announces(EventsOf(rows), currency, txid, amount) <==> Booked(rows, currency, txid) == Some(amount)
  {
    EventsOfRows(rows);
    BookedAt(rows, currency, txid);
    if i :| 0 <= i < |rows| && rows[i].currency == currency && rows[i].txid == Some(txid) {
      assert EventsOf(rows)[i] == EventOf(rows[i]);
    }
  }

  lemma {:induction false} BookedAt(rows: seq<Row>, currency: string, txid: string)
    requires Unique(rows)
    ensures forall i | 0 <= i < |rows| && rows[i].currency == currency && rows[i].txid == Some(txid) ::
              Booked(rows, currency, txid) == Some(rows[i].amount)
    ensures Booked(rows, currency, txid).Some? <==>
              exists i :: 0 <= i < |rows| && rows[i].currency == currency && rows[i].txid == Some(txid)
  {
    BookedIff(rows, currency, txid);
    if rows != [] {
      var rest := rows[1..];
      assert Unique(rest) by {
        assert forall i | 0 <= i < |rest| :: rest[i] == rows[i + 1];
      }
      BookedAt(rest, currency, txid);
      forall i | 0 <= i < |rows| && rows[i].currency == currency && rows[i].txid == Some(txid)
        ensures Booked(rows, currency, txid) == Some(rows[i].amount)
      {
        if i > 0 {
          assert rest[i - 1] == rows[i];
        }
      }
    }
  }

  /** The event carries the row's owner, currency, amount, id and link, and is verified exactly if there is a link. */
  predicate Tells(e: Detected, r: Row) {
    && e.owner == r.owner && e.currency == r.currency && e.amount == r.amount && e.explorerURL == r.explorerURL
    && (e.verified <==> r.explorerURL != "")
    && (match r.txid case Some(id) => e.txid == id case None => e.txid == "")
  }

  /** The row books this payment of this poll. */
  predicate Books(r: Row, q: PoolApi, p: Payment) {
    && p.amount > 0.0 && r.amount == p.amount && r.paidAt == p.paidAt
    && r.owner == q.owner && r.currency == q.currency && r.pool == q.pool && r.explorerURL == ExplorerURL(q, p.txid)
    && (if p.txid == "" then r.txid == None else r.txid == Some(p.txid))
  }

  ghost predicate FromPolls(r: Row, polls: seq<Poll>) {
    exists i, k :: 0 <= i < |polls| && 0 <= k < |polls[i].payments| && Books(r, polls[i].api, polls[i].payments[k])
  }

  ghost predicate FromPayments(r: Row, q: PoolApi, ps: seq<Payment>) {
    exists k :: 0 <= k < |ps| && Books(r, q, ps[k])
  }

  lemma {:induction false} RecordAllFrom(rows: seq<Row>, q: PoolApi, ps: seq<Payment>, i: nat)
    requires i < |RecordAll(rows, q, ps)|
    ensures (i < |rows| && RecordAll(rows, q, ps)[i] == rows[i]) || FromPayments(RecordAll(rows, q, ps)[i], q, ps)
    decreases |ps|
  {
    if ps != [] {
      var next, r := Record(rows, q, ps[0]), RecordAll(rows, q, ps)[i];
      RecordAllFrom(next, q, ps[1..], i);
      if FromPayments(r, q, ps[1..]) {
        var k :| 0 <= k < |ps[1..]| && Books(r, q, ps[1..][k]);
        assert ps[k + 1] == ps[1..][k];
      } else if i >= |rows| {
        assert Books(r, q, ps[0]);
      }
    }
  }

  /** Every row of the ledger books a positive payment of some poll, with that poll's owner, currency and pool. */
  lemma {:induction false} EveryRowIsAPayment(rows: seq<Row>, polls: seq<Poll>, i: nat)
    requires i < |Polled(rows, polls)|
    ensures (i < |rows| && Polled(rows, polls)[i] == rows[i]) || FromPolls(Polled(rows, polls)[i], polls)
    decreases |polls|
  {
    if polls != [] {
      var q, ps, r := polls[0].api, polls[0].payments, Polled(rows, polls)[i];
      var next := RecordAll(rows, q, ps);
      EveryRowIsAPayment(next, polls[1..], i);
      if FromPolls(r, polls[1..]) {
        var j, k :| 0 <= j < |polls[1..]| && 0 <= k < |polls[1..][j].payments| && Books(r, polls[1..][j].api, polls[1..][j].payments[k]);
        assert polls[j + 1] == polls[1..][j];
      } else {
        RecordAllFrom(rows, q, ps, i);
        if FromPayments(r, q, ps) {
          var k :| 0 <= k < |ps| && Books(r, q, ps[k]);
          assert Books(r, polls[0].api, polls[0].payments[k]);
        }
      }
    }
  }

  /** A payment is on the ledger: some row of its currency has its id, or books it when it has none. */
  ghost predicate OnLedger(rows: seq<Row>, q: PoolApi, p: Payment) {
    exists i :: 0 <= i < |rows| && rows[i].currency == q.currency && (if p.txid == "" then Books(rows[i], q, p) else rows[i].txid == Some(p.txid))
  }

  /** The ledger only grows. */
  lemma {:induction false} PolledGrows(rows: seq<Row>, polls: seq<Poll>)
    ensures rows <= Polled(rows, polls)
    decreases |polls|
  {
    if polls != [] {
      var _ := RecordAllGrows(rows, polls[0].api, polls[0].payments);
      PolledGrows(RecordAll(rows, polls[0].api, polls[0].payments), polls[1..]);
    }
  }

  lemma {:induction false} StaysOnLedger(rows: seq<Row>, rows': seq<Row>, q: PoolApi, p: Payment)
    requires OnLedger(rows, q, p) && rows <= rows'
    ensures OnLedger(rows', q, p)
  {
    var i :| 0 <= i < |rows| && rows[i].currency == q.currency && (if p.txid == "" then Books(rows[i], q, p) else rows[i].txid == Some(p.txid));
    assert rows'[i] == rows[i];
  }

  lemma {:induction false} RecordPutsOnLedger(rows: seq<Row>, q: PoolApi, p: Payment)
    requires p.amount > 0.0
    ensures OnLedger(Record(rows, q, p), q, p)
  {
    var r := RowOf(q, p);
    if Conflicts(rows, r) {
      var i :| 0 <= i < |rows| && rows[i].currency == r.currency && rows[i].txid == r.txid;
      assert rows[i].txid == Some(p.txid);
    } else {
      assert (rows + [r])[|rows|] == r && Books(r, q, p);
    }
  }

  lemma {:induction false} RecordAllPutsOnLedger(rows: seq<Row>, q: PoolApi, ps: seq<Payment>, k: nat)
    requires k < |ps| && ps[k].amount > 0.0
    ensures OnLedger(RecordAll(rows, q, ps), q, ps[k])
    decreases |ps|
  {
    var next := Record(rows, q, ps[0]);
    if k == 0 {
      RecordPutsOnLedger(rows, q, ps[0]);
      var _ := RecordAllGrows(next, q, ps[1..]);
      StaysOnLedger(next, RecordAll(rows, q, ps), q, ps[0]);
    } else {
      assert ps[1..][k - 1] == ps[k];
      RecordAllPutsOnLedger(next, q, ps[1..], k - 1);
    }
  }

  /** No positive payment of any poll is missed. */
  lemma {:induction false} EveryPaymentIsBooked(rows: seq<Row>, polls: seq<Poll>, j: nat, k: nat)
    requires j < |polls| && k < |polls[j].payments| && polls[j].payments[k].amount > 0.0
    ensures OnLedger(Polled(rows, polls), polls[j].api, polls[j].payments[k])
    decreases |polls|
  {
    var next := RecordAll(rows, polls[0].api, polls[0].payments);
    if j == 0 {
      RecordAllPutsOnLedger(rows, polls[0].api, polls[0].payments, k);
      PolledGrows(next, polls[1..]);
      StaysOnLedger(next, Polled(rows, polls), polls[0].api, polls[0].payments[k]);
    } else {
      assert polls[1..][j - 1] == polls[j];
      EveryPaymentIsBooked(next, polls[1..], j - 1, k);
    }
  }

  /**
   What is published over any polls, starting from an empty ledger: one event per row;
   never two for one currency and transaction id; and for every transaction exactly the
   event with the first positive amount seen for it, if one was seen.
   */
  lemma {:induction false} OneEventPerRow(polls: seq<Poll>)
    ensures var rows, events := Polled([], polls), EventsOf(Polled([], polls));
            && |events| == |rows| && (forall i | 0 <= i < |rows| :: Tells(events[i], rows[i]))
            && (forall i, j | 0 <= i < j < |events| && events[i].txid != "" ::
                  !(events[i].currency == events[j].currency && events[i].txid == events[j].txid))
    ensures forall currency, txid: string, amount: real | txid != "" ::
              Announces(EventsOf(Polled([], polls)), currency, txid, amount) <==> FirstAmount(History(polls), currency, txid) == Some(amount)
  {
    var rows := Polled([], polls);
    LedgerUnique([], polls);
    PolledNamed([], polls);
    EventsOfRows(rows);
    forall currency, txid: string, amount: real | txid != ""
      ensures Announces(EventsOf(rows), currency, txid, amount) <==> FirstAmount(History(polls), currency, txid) == Some(amount)
    {
      LedgerHoldsFirstAmount([], polls, currency, txid);
      AnnouncedIffBooked(rows, currency, txid, amount);
    }
  }
}
