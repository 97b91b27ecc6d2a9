/**
 Argument templates of the adapter engine (internal/engine/adapter/adapter.go):
 renderArgs rewrites each argument once per placeholder, in the unspecified
 order in which Go iterates a map.
 */
module Template {

  import opened Base

  type Table = map<string, string>

  // ---------------------------------------------------------------------
  // strings.ReplaceAll, placeholders and simultaneous substitution
  // ---------------------------------------------------------------------

  /** Leftmost, non-overlapping replacement of a non-empty pattern. */
  function ReplaceAll(s: string, k: string, v: string): string
    requires k != ""
    decreases |s|
  {
    if s == "" then ""
    else if k <= s then v + ReplaceAll(s[|k|..], k, v)
    else [s[0]] + ReplaceAll(s[1..], k, v)
  }

  predicate IsBrace(c: char) { c == '{' || c == '}' }

  predicate NoBraces(s: string) { forall i | 0 <= i < |s| :: !IsBrace(s[i]) }

  /** A placeholder: a brace-free name between braces. */
  predicate IsKey(k: string) {
    && |k| >= 2 && k[0] == '{' && k[|k| - 1] == '}'
    && forall i | 0 < i < |k| - 1 :: !IsBrace(k[i])
  }

  predicate Good(m: Table) {
    forall k | k in m :: IsKey(k) && NoBraces(m[k])
  }

  /** Position of the first brace at or after k; |s| when there is none. */
  function BraceFrom(s: string, k: nat): (e: nat)
    requires k <= |s|
    ensures k <= e <= |s|
    ensures forall i | k <= i < e :: !IsBrace(s[i])
    ensures e < |s| ==> IsBrace(s[e])
    decreases |s| - k
  {
    if k == |s| || IsBrace(s[k]) then k else BraceFrom(s, k + 1)
  }

  /** The placeholder s begins with, known or not; "" when it begins with none. */
  function Head(s: string): (h: string)
    ensures h <= s && (h != "" ==> IsKey(h))
  {
    if s == "" || s[0] != '{' then ""
    else
      var e := BraceFrom(s, 1);
      if e < |s| && s[e] == '}' then s[..e + 1] else ""
  }

  lemma {:induction false} HeadIsThePlaceholder(s: string, k: string)
    requires IsKey(k)
    ensures k <= s <==> Head(s) == k
  {
    if k <= s {
      var e := BraceFrom(s, 1);
      assert s[|k| - 1] == k[|k| - 1];
      assert forall i | 0 <= i < |k| :: s[i] == k[i];
      assert e == |k| - 1;
    }
  }

  /** One simultaneous left-to-right substitution by a whole table. */
  function Subst(s: string, m: Table): string
    decreases |s|
  {
    if s == "" then ""
    else
      var h := Head(s);
      if h != "" && h in m then m[h] + Subst(s[|h|..], m) else [s[0]] + Subst(s[1..], m)
  }

  predicate IsOrder(order: seq<string>, m: Table) {
    && (forall i | 0 <= i < |order| :: order[i] in m)
    && (forall i, j | 0 <= i < j < |order| :: order[i] != order[j])
    && (forall k | k in m :: k in order)
  }

  /** The rewriting loop of renderArgs, for one order of the keys. */
  function Sequential(s: string, order: seq<string>, m: Table): string
    requires forall i | 0 <= i < |order| :: order[i] != "" && order[i] in m
    decreases |order|
  {
    if order == [] then s else Sequential(ReplaceAll(s, order[0], m[order[0]]), order[1..], m)
  }

  /** No '{' opens before the previous one has closed; `open` says one is open already. */
  predicate Scan(s: string, open: bool) {
    if s == "" then true
    else if s[0] == '{' then !open && Scan(s[1..], true)
    else Scan(s[1..], open && s[0] != '}')
  }

  predicate Unnested(s: string) { Scan(s, false) }

  // ---------------------------------------------------------------------
  // Passing over text
  // ---------------------------------------------------------------------

  lemma {:induction false} ReplaceSkips(p: string, t: string, k: string, v: string)
    requires IsKey(k) && '{' !in p
    ensures ReplaceAll(p + t, k, v) == p + ReplaceAll(t, k, v)
  {
    if p == "" {
      assert p + t == t;
    } else {
      assert p[0] in p && (p + t)[0] == p[0];
      assert (p + t)[1..] == p[1..] + t;
      ReplaceSkips(p[1..], t, k, v);
    }
  }

  lemma {:induction false} SubstSkips(p: string, t: string, m: Table)
    requires '{' !in p
    ensures Subst(p + t, m) == p + Subst(t, m)
  {
    if p == "" {
      assert p + t == t;
    } else {
      assert p[0] in p && (p + t)[0] == p[0];
      assert (p + t)[1..] == p[1..] + t;
      SubstSkips(p[1..], t, m);
    }
  }

  lemma {:induction false} ScanSkips(p: string, t: string, open: bool)
    requires NoBraces(p)
    ensures Scan(p + t, open) == Scan(t, open)
  {
    if p == "" {
      assert p + t == t;
    } else {
      assert (p + t)[1..] == p[1..] + t && (p + t)[0] == p[0];
      ScanSkips(p[1..], t, open);
    }
  }

  lemma {:induction false} ScanClosedToo(s: string)
    requires Scan(s, true)
    ensures Scan(s, false)
  {
    if s != "" && s[0] != '}' {
      ScanClosedToo(s[1..]);
    }
  }

  lemma {:induction false} ScanKey(k: string, t: string, open: bool)
    requires IsKey(k)
    ensures Scan(k + t, open) <==> !open && Scan(t, false)
  {
    var name := k[1..|k| - 1];
    assert k + t == "{" + (name + ("}" + t));
    assert (k + t)[1..] == name + ("}" + t);
    ScanSkips(name, "}" + t, true);
    assert ("}" + t)[1..] == t;
  }

  /** While a brace is open, the text up to the next brace is a name, and that brace closes it. */
  lemma {:induction false} OpenText(t: string)
    requires Scan(t, true)
    ensures var e := BraceFrom(t, 0); (e < |t| ==> t[e] == '}' && Scan(t[e + 1..], false))
  {
    var e := BraceFrom(t, 0);
    assert t == t[..e] + t[e..];
    ScanSkips(t[..e], t[e..], true);
    if e < |t| {
      assert t[e..][1..] == t[e + 1..];
    }
  }

  /** Text under an open brace is brace-free, or a name, its closing brace and a rest. */
  lemma {:induction false} Opened(t: string) returns (closed: bool, p: string, r: string)
    requires Scan(t, true)
    ensures if closed then NoBraces(p) && t == (p + "}") + r else NoBraces(t)
  {
    OpenText(t);
    var e := BraceFrom(t, 0);
    closed, p, r := e < |t|, t[..e], "";
    if closed {
      r := t[e + 1..];
      assert t == t[..e] + [t[e]] + t[e + 1..];
    }
  }

  /** Rewriting what follows an open brace does not change the placeholder it begins. */
  lemma {:induction false} HeadStable(t: string, k: string, v: string, m: Table)
    requires Scan(t, true) && IsKey(k)
    ensures Head("{" + ReplaceAll(t, k, v)) == Head("{" + t)
    ensures Head("{" + Subst(t, m)) == Head("{" + t)
  {
    var closed, p, r := Opened(t);
    if closed {
      HeadStableWhenClosed(p, r, k, v, m);
    } else {
      HeadStableWhenUnclosed(t, k, v, m);
    }
  }

  lemma {:induction false} HeadStableWhenUnclosed(t: string, k: string, v: string, m: Table)
    requires NoBraces(t) && IsKey(k)
    ensures ReplaceAll(t, k, v) == t && Subst(t, m) == t
  {
    assert '{' !in t;
    assert t + "" == t;
    ReplaceSkips(t, "", k, v);
    SubstSkips(t, "", m);
  }

  lemma {:induction false} HeadOfClosed(p: string, r: string)
    requires NoBraces(p)
    ensures Head("{" + ((p + "}") + r)) == "{" + p + "}"
  {
    HeadOf(p, r);
    assert "{" + ((p + "}") + r) == "{" + p + "}" + r;
  }

  lemma {:induction false} HeadStableWhenClosed(p: string, r: string, k: string, v: string, m: Table)
    requires NoBraces(p) && IsKey(k)
    ensures var t := (p + "}") + r;
            Head("{" + ReplaceAll(t, k, v)) == Head("{" + t) && Head("{" + Subst(t, m)) == Head("{" + t)
  {
    assert '{' !in p + "}";
    ReplaceSkips(p + "}", r, k, v);
    SubstSkips(p + "}", r, m);
    HeadOfClosed(p, r);
    HeadOfClosed(p, ReplaceAll(r, k, v));
    HeadOfClosed(p, Subst(r, m));
  }

  lemma {:induction false} HeadOf(p: string, r: string)
    requires NoBraces(p)
    ensures Head("{" + p + "}" + r) == "{" + p + "}"
  {
    var k := "{" + p + "}";
    assert forall i | 0 < i < |k| - 1 :: k[i] == p[i - 1];
    HeadIsThePlaceholder(k + r, k);
  }

  lemma {:induction false} ReplaceKeepsScan(s: string, k: string, v: string, open: bool)
    requires IsKey(k) && NoBraces(v) && Scan(s, open)
    ensures Scan(ReplaceAll(s, k, v), open)
    decreases |s|
  {
    if s == "" {
    } else if k <= s {
      var rest := s[|k|..];
      assert s == k + rest;
      ScanKey(k, rest, open);
      ReplaceKeepsScan(rest, k, v, false);
      ScanSkips(v, ReplaceAll(rest, k, v), false);
    } else {
      var r := ReplaceAll(s[1..], k, v);
      assert ([s[0]] + r)[1..] == r;
      ReplaceKeepsScan(s[1..], k, v, if s[0] == '{' then true else open && s[0] != '}');
    }
  }

  // ---------------------------------------------------------------------
  // Confluence
  // ---------------------------------------------------------------------

  /** Rewriting one placeholder first and the others afterwards is one simultaneous substitution. */
  lemma {:induction false} OneKeyFirst(s: string, k: string, m: Table)
    requires Good(m) && k in m && Unnested(s)
    ensures Subst(ReplaceAll(s, k, m[k]), m - {k}) == Subst(s, m)
    decreases |s|
  {
    if s == "" {
      return;
    }
    var v, m' := m[k], m - {k};
    var h := Head(s);
    HeadIsThePlaceholder(s, k);
    if h == k {
      var rest := s[|k|..];
      assert s == k + rest;
      ScanKey(k, rest, false);
      OneKeyFirst(rest, k, m);
      assert '{' !in v;
      SubstSkips(v, ReplaceAll(rest, k, v), m');
    } else if h != "" && h in m {
      OtherKey(s, h, k, m);
    } else {
      PlainChar(s, k, m);
    }
  }

  /** A known placeholder at the front is substituted. */
  lemma {:induction false} SubstKey(h: string, t: string, m: Table)
    requires IsKey(h) && h in m
    ensures Subst(h + t, m) == m[h] + Subst(t, m)
  {
    HeadIsThePlaceholder(h + t, h);
    assert (h + t)[|h|..] == t;
  }

  /** Replacing one placeholder passes over another. */
  lemma {:induction false} ReplaceOther(h: string, t: string, k: string, v: string)
    requires IsKey(h) && IsKey(k) && h != k
    ensures ReplaceAll(h + t, k, v) == h + ReplaceAll(t, k, v)
  {
    HeadIsThePlaceholder(h + t, h);
    HeadIsThePlaceholder(h + t, k);
    var q := h[1..];
    assert '{' !in q;
    assert (h + t)[1..] == q + t && h == [h[0]] + q;
    ReplaceSkips(q, t, k, v);
    assert [h[0]] + (q + ReplaceAll(t, k, v)) == h + ReplaceAll(t, k, v);
  }

  lemma {:induction false} OtherKey(s: string, h: string, k: string, m: Table)
    requires Good(m) && k in m && Unnested(s) && s != ""
    requires h == Head(s) && h in m && h != k
    ensures Subst(ReplaceAll(s, k, m[k]), m - {k}) == Subst(s, m)
    decreases |s|, 0
  {
    var rest := s[|h|..];
    assert s == h + rest && h != "";
    ScanKey(h, rest, false);
    OneKeyFirst(rest, k, m);
    ReplaceOther(h, rest, k, m[k]);
    SubstKey(h, rest, m);
    SubstKey(h, ReplaceAll(rest, k, m[k]), m - {k});
  }

  lemma {:induction false} PlainChar(s: string, k: string, m: Table)
    requires Good(m) && k in m && Unnested(s) && s != ""
    requires Head(s) !in m
    ensures Subst(ReplaceAll(s, k, m[k]), m - {k}) == Subst(s, m)
    decreases |s|, 0
  {
    var v, t := m[k], s[1..];
    HeadIsThePlaceholder(s, k);
    var u := ReplaceAll(t, k, v);
    assert ReplaceAll(s, k, v) == [s[0]] + u && ([s[0]] + u)[1..] == u;
    if s[0] == '{' {
      HeadStable(t, k, v, m);
      assert "{" + t == s && "{" + u == [s[0]] + u;
      ScanClosedToo(t);
    }
    OneKeyFirst(t, k, m);
    assert Subst([s[0]] + u, m - {k}) == [s[0]] + Subst(u, m - {k});
  }

  lemma {:induction false} SubstNothing(s: string)
    ensures Subst(s, map[]) == s
  {
    if s != "" {
      SubstNothing(s[1..]);
      assert s == [s[0]] + s[1..];
    }
  }

  function Restrict(m: Table, order: seq<string>): Table {
    map k | k in m && k in order :: m[k]
  }

  lemma {:induction false} SequentialIsSubst(s: string, order: seq<string>, m: Table)
    requires Good(m) && Unnested(s)
    requires forall i | 0 <= i < |order| :: order[i] in m
    requires forall i, j | 0 <= i < j < |order| :: order[i] != order[j]
    ensures Sequential(s, order, m) == Subst(s, Restrict(m, order))
    decreases |order|
  {
    var now := Restrict(m, order);
    if order == [] {
      assert now == map[];
      SubstNothing(s);
    } else {
      var k, rest := order[0], order[1..];
      assert k in order && k !in rest;
      assert forall x :: x in order <==> x == k || x in rest;
      assert now - {k} == Restrict(m, rest);
      OneKeyFirst(s, k, now);
      ReplaceKeepsScan(s, k, m[k], false);
      SequentialIsSubst(ReplaceAll(s, k, m[k]), rest, m);
    }
  }

  /** Every iteration order of the table gives the one simultaneous substitution. */
  lemma {:induction false} Confluent(s: string, order: seq<string>, m: Table)
    requires Good(m) && Unnested(s) && IsOrder(order, m)
    ensures Sequential(s, order, m) == Subst(s, m)
  {
    SequentialIsSubst(s, order, m);
    assert Restrict(m, order) == m;
  }

  ghost predicate Contains(s: string, k: string) {
    exists i | 0 <= i <= |s| :: k <= s[i..]
  }

  /** No placeholder of the table is left in the result. */
  lemma {:induction false} NoKnownPlaceholderSurvives(s: string, k: string, m: Table)
    requires Good(m) && Unnested(s) && k in m
    ensures !Contains(Subst(s, m), k)
    decreases |s|
  {
    var r := Subst(s, m);
    forall i | 0 <= i <= |r| ensures !(k <= r[i..]) {
      SurvivesNowhere(s, k, m, i);
    }
  }

  lemma {:induction false} SurvivesNowhere(s: string, k: string, m: Table, i: nat)
    requires Good(m) && Unnested(s) && k in m && i <= |Subst(s, m)|
    ensures !(k <= Subst(s, m)[i..])
    decreases |s|
  {
    if s == "" {
      return;
    }
    var r, h := Subst(s, m), Head(s);
    if h != "" && h in m {
      var rest := s[|h|..];
      assert s == h + rest;
      ScanKey(h, rest, false);
      if i >= |m[h]| {
        assert r[i..] == Subst(rest, m)[i - |m[h]|..];
        SurvivesNowhere(rest, k, m, i - |m[h]|);
      } else {
        assert r[i..][0] == m[h][i];
      }
    } else {
      var t := s[1..];
      if s[0] == '{' {
        ScanClosedToo(t);
      }
      if i > 0 {
        assert r[i..] == Subst(t, m)[i - 1..];
        SurvivesNowhere(t, k, m, i - 1);
      } else if s[0] == '{' {
        HeadStable(t, k, "", m);
        assert "{" + t == s && "{" + Subst(t, m) == r == r[0..];
        HeadIsThePlaceholder(r, k);
      }
    }
  }

  /** A character that begins no known placeholder is passed over. */
  lemma {:induction false} SubstPlain(c: char, t: string, m: Table)
    requires Head([c] + t) !in m || Head([c] + t) == ""
    ensures Subst([c] + t, m) == [c] + Subst(t, m)
  {
    assert ([c] + t)[1..] == t;
  }

  lemma {:induction false} Regroup(a: string, b: string, c: string)
    ensures (a + b) + c == a + (b + c)
  {
  }

  lemma {:induction false} KeyBefore(h: string, rest: string, u: string, m: Table)
    requires IsKey(h) && h in m && Subst(rest + u, m) == Subst(rest, m) + Subst(u, m)
    ensures Subst(h + (rest + u), m) == Subst(h + rest, m) + Subst(u, m)
  {
    SubstKey(h, rest, m);
    SubstKey(h, rest + u, m);
    Regroup(m[h], Subst(rest, m), Subst(u, m));
  }

  lemma {:induction false} PlainBefore(c: char, t: string, u: string, m: Table)
    requires Head([c] + t) !in m || Head([c] + t) == ""
    requires Head([c] + (t + u)) == Head([c] + t) && Subst(t + u, m) == Subst(t, m) + Subst(u, m)
    ensures Subst([c] + (t + u), m) == Subst([c] + t, m) + Subst(u, m)
  {
    SubstPlain(c, t, m);
    SubstPlain(c, t + u, m);
    Regroup([c], Subst(t, m), Subst(u, m));
  }

  lemma {:induction false} ScanRest(a: string, u: string)
    requires a != "" && Unnested(a + u)
    ensures Unnested(a[1..] + u)
  {
    assert (a + u)[1..] == a[1..] + u && (a + u)[0] == a[0];
    if a[0] == '{' {
      ScanClosedToo(a[1..] + u);
    }
  }

  lemma {:induction false} BeforeAPlaceholder(a: string, u: string, m: Table)
    requires Unnested(a + u) && |u| > 0 && u[0] == '{'
    ensures Subst(a + u, m) == Subst(a, m) + Subst(u, m)
    decreases |a|
  {
    if a == "" {
      assert a + u == u;
      return;
    }
    HeadWithin(a, u);
    var h := Head(a);
    if h != "" && h in m {
      var rest := a[|h|..];
      assert a == h + rest && a + u == h + (rest + u);
      ScanKey(h, rest + u, false);
      BeforeAPlaceholder(rest, u, m);
      KeyBefore(h, rest, u, m);
    } else {
      assert a == [a[0]] + a[1..] && a + u == [a[0]] + (a[1..] + u);
      ScanRest(a, u);
      BeforeAPlaceholder(a[1..], u, m);
      PlainBefore(a[0], a[1..], u, m);
    }
  }

  lemma {:induction false} HeadWithin(a: string, u: string)
    requires a != "" && Unnested(a + u) && |u| > 0 && u[0] == '{'
    ensures Head(a + u) == Head(a)
  {
    var s := a + u;
    assert s[0] == a[0];
    if a[0] == '{' {
      assert s[1..] == a[1..] + u;
      OpenText(s[1..]);
      var e := BraceFrom(s[1..], 0);
      assert s[1..][|a| - 1] == u[0];
      assert e < |a| - 1;
      var p := s[1..][..e];
      assert s == "{" + p + "}" + s[e + 2..];
      assert a == "{" + p + "}" + a[e + 2..];
      HeadOf(p, s[e + 2..]);
      HeadOf(p, a[e + 2..]);
    }
  }

  lemma {:induction false} KeyTail(k: string)
    requires IsKey(k)
    ensures k == [k[0]] + k[1..] && '{' !in k[1..]
  {
    forall i | 0 <= i < |k[1..]| ensures k[1..][i] != '{' { assert k[1..][i] == k[i + 1]; }
  }

  lemma {:induction false} UnknownPasses(c: char, q: string, b: string, m: Table)
    requires IsKey([c] + q) && [c] + q !in m && '{' !in q
    ensures Subst([c] + (q + b), m) == [c] + (q + Subst(b, m))
  {
    Regroup([c], q, b);
    HeadIsThePlaceholder([c] + (q + b), [c] + q);
    SubstPlain(c, q + b, m);
    SubstSkips(q, b, m);
  }

  lemma {:induction false} UnknownFirst(k: string, b: string, m: Table)
    requires IsKey(k) && k !in m
    ensures Subst(k + b, m) == k + Subst(b, m)
  {
    KeyTail(k);
    UnknownPasses(k[0], k[1..], b, m);
    Regroup([k[0]], k[1..], b);
    Regroup([k[0]], k[1..], Subst(b, m));
  }

  /** A placeholder the table does not know stays verbatim, and the text around it is rendered on its own. */
  lemma {:induction false} UnknownStaysVerbatim(a: string, k: string, b: string, m: Table)
    requires IsKey(k) && k !in m && Unnested(a + k + b)
    ensures Subst(a + k + b, m) == Subst(a, m) + k + Subst(b, m)
  {
    assert a + k + b == a + (k + b);
    BeforeAPlaceholder(a, k + b, m);
    UnknownFirst(k, b, m);
    assert Subst(a, m) + (k + Subst(b, m)) == Subst(a, m) + k + Subst(b, m);
  }

  lemma {:induction false} TwoOrders(s: string, k1: string, k2: string, m: Table)
    requires k1 in m && k2 in m && k1 != "" && k2 != ""
    ensures Sequential(s, [k1, k2], m) == ReplaceAll(ReplaceAll(s, k1, m[k1]), k2, m[k2])
  {
    var r := ReplaceAll(s, k1, m[k1]);
    assert [k1, k2][1..] == [k2];
    assert Sequential(s, [k1, k2], m) == Sequential(r, [k2], m);
    assert Sequential(r, [k2], m) == Sequential(ReplaceAll(r, k2, m[k2]), [k2][1..], m);
  }

  lemma {:induction false} ReplaceHere(k: string, t: string, v: string)
    requires k != ""
    ensures ReplaceAll(k + t, k, v) == v + ReplaceAll(t, k, v)
  {
    assert (k + t)[|k|..] == t;
  }

  lemma {:induction false} ReplaceElsewhere(c: char, t: string, k: string, v: string)
    requires k != "" && !(k <= [c] + t)
    ensures ReplaceAll([c] + t, k, v) == [c] + ReplaceAll(t, k, v)
  {
    assert ([c] + t)[1..] == t;
  }

  /** A rewrites inside an open brace: "{" + key + "}" becomes "{" + value + "}". */
  lemma {:induction false} ReplaceNested(k: string, v: string)
    requires IsKey(k)
    ensures ReplaceAll("{" + (k + "}"), k, v) == "{" + (v + "}")
  {
    var s := "{" + (k + "}");
    assert !(k <= s) by {
      assert s[1] == k[0] == '{';
      assert k[1] != '{';
    }
    ReplaceElsewhere('{', k + "}", k, v);
    ReplaceHere(k, "}", v);
    ReplaceSkips("}", "", k, v);
    assert "}" + "" == "}";
  }

  lemma {:induction false} ReplaceAbsent(j: string, t: string, k: string, v: string)
    requires IsKey(j) && IsKey(k) && j != k && '{' !in t
    ensures ReplaceAll(j + t, k, v) == j + t
  {
    HeadIsThePlaceholder(j + t, j);
    HeadIsThePlaceholder(j + t, k);
    var q := j[1..] + t;
    assert '{' !in q;
    assert j + t == [j[0]] + q;
    ReplaceElsewhere(j[0], q, k, v);
    ReplaceSkips(q, "", k, v);
    assert q + "" == q;
  }

  /**
   Nesting breaks confluence: whenever a value spells the name of a second
   placeholder, a template that nests the first in braces is rendered
   differently by the two orders.
   */
  lemma {:induction false} NestedIsNotConfluent(k1: string, name: string, w: string)
    requires IsKey(k1) && NoBraces(name) && NoBraces(w) && k1 != "{" + name + "}"
    ensures var k2 := "{" + name + "}";
            var s, m := "{" + (k1 + "}"), map[k1 := name, k2 := w];
            && Good(m) && !Unnested(s)
            && Sequential(s, [k1, k2], m) == w
            && Sequential(s, [k2, k1], m) == k2 != w
  {
    var k2 := "{" + name + "}";
    var s, m := "{" + (k1 + "}"), map[k1 := name, k2 := w];
    assert IsKey(k2) by { HeadOf(name, ""); assert forall i | 0 < i < |k2| - 1 :: k2[i] == name[i - 1]; }
    assert s[1..] == k1 + "}";
    ScanKey(k1, "}", true);
    TwoOrders(s, k1, k2, m);
    TwoOrders(s, k2, k1, m);
    ReplaceNested(k1, name);
    assert "{" + (name + "}") == k2;
    ReplaceHere(k2, "", w);
    assert k2 + "" == k2 && w + "" == w;
    assert !(k2 <= s) by {
      assert s[1] == k1[0] == '{';
      assert k2[1] != '{';
    }
    ReplaceElsewhere('{', k1 + "}", k2, w);
    ReplaceAbsent(k1, "}", k2, w);
    assert IsBrace(k2[0]);
  }

  /** So does a value that is itself a placeholder. */
  lemma {:induction false} BracedValueIsNotConfluent(k1: string, k2: string, w: string)
    requires IsKey(k1) && IsKey(k2) && NoBraces(w) && k1 != k2
    ensures var m := map[k1 := k2, k2 := w];
            Sequential(k1, [k1, k2], m) == w && Sequential(k1, [k2, k1], m) == k2 != w
  {
    var m := map[k1 := k2, k2 := w];
    TwoOrders(k1, k1, k2, m);
    TwoOrders(k1, k2, k1, m);
    ReplaceHere(k1, "", k2);
    ReplaceHere(k2, "", w);
    ReplaceAbsent(k1, "", k2, w);
    assert k1 + "" == k1 && k2 + "" == k2 && w + "" == w;
    assert IsBrace(k2[0]);
  }

  // ---------------------------------------------------------------------
  // renderArgs
  // ---------------------------------------------------------------------

  function DecimalNat(n: nat): (s: string)
    ensures NoBraces(s) && s != ""
  {
    var c := [('0' as int + n % 10) as char];
    if n < 10 then c else DecimalNat(n / 10) + c
  }

  /** fmt's %d. */
  function Decimal(n: int): (s: string)
    ensures NoBraces(s)
  {
    if n < 0 then "-" + DecimalNat(-n) else DecimalNat(n)
  }

  function Max(a: int, b: int): int { if a < b then b else a }

  /** The number a text of decimal digits reads as. */
  function ReadNat(s: string): nat {
    if s == "" then 0 else ReadNat(s[..|s| - 1]) * 10 + (if '0' <= s[|s| - 1] <= '9' then s[|s| - 1] as int - '0' as int else 0)
  }

  predicate IsNumeral(s: string) {
    && s != "" && (forall i | 0 <= i < |s| :: '0' <= s[i] <= '9')
    && (|s| > 1 ==> s[0] != '0')
  }

  /** s is the decimal text of n, without a leading zero. */
  predicate Denotes(s: string, n: int) {
    if n < 0 then s != "" && s[0] == '-' && IsNumeral(s[1..]) && ReadNat(s[1..]) == -n else IsNumeral(s) && ReadNat(s) == n
  }

  lemma {:induction false} DecimalNatDenotes(n: nat)
    ensures IsNumeral(DecimalNat(n)) && ReadNat(DecimalNat(n)) == n
    ensures n > 0 ==> DecimalNat(n)[0] != '0'
  {
    var c := ('0' as int + n % 10) as char;
    if n < 10 {
      assert DecimalNat(n) == [c] && [c][..0] == "" && ReadNat([c]) == ReadNat([c][..0]) * 10 + n;
    } else {
      var s := DecimalNat(n / 10);
      DecimalNatDenotes(n / 10);
      assert (s + [c])[..|s|] == s && (s + [c])[0] == s[0];
    }
  }

  lemma {:induction false} DecimalDenotes(n: int)
    ensures Denotes(Decimal(n), n)
  {
    if n < 0 {
      DecimalNatDenotes(-n);
      SignedTail(DecimalNat(-n));
    } else {
      DecimalNatDenotes(n);
    }
  }

  lemma {:induction false} SignedTail(d: string)
    ensures ("-" + d)[1..] == d
  {
  }

  predicate Occurs(s: string, p: string, i: nat) {
    i + |p| <= |s| && s[i..i + |p|] == p
  }

  /** strings.Index, from k on. */
  function IndexFrom(s: string, p: string, k: nat): (i: int)
    ensures i == -1 || (k <= i && Occurs(s, p, i))
    ensures forall j: nat | k <= j && Occurs(s, p, j) :: 0 <= i <= j
    decreases |s| - k
  {
    if k + |p| > |s| then -1 else if Occurs(s, p, k) then k else IndexFrom(s, p, k + 1)
  }

  function LastIndex(s: string, c: char): (i: int)
    ensures -1 <= i < |s|
    ensures i >= 0 ==> s[i] == c
    ensures forall j | i < j < |s| :: s[j] != c
  {
    if s == "" then -1 else if s[|s| - 1] == c then |s| - 1 else LastIndex(s[..|s| - 1], c)
  }

  /** net.SplitHostPort, for the separator and bracket rules it documents. */
  function SplitHostPort(s: string): (r: Option<(string, string)>)
    ensures r.Some? && NoBraces(s) ==> NoBraces(r.value.0) && NoBraces(r.value.1)
  {
    var i := LastIndex(s, ':');
    if i < 0 then None
    else if s[0] == '[' then
      var end := IndexFrom(s, "]", 0);
      if end < 0 || end + 1 != i || '[' in s[1..] || ']' in s[end + 1..] then None
      else Some((s[1..end], s[i + 1..]))
    else if ':' in s[..i] || '[' in s || ']' in s then None
    else Some((s[..i], s[i + 1..]))
  }

  function WithoutScheme(pool: string): (s: string)
    ensures NoBraces(pool) ==> NoBraces(s)
  {
    var i := IndexFrom(pool, "://", 0);
    if i >= 0 then pool[i + 3..] else pool
  }

  function WithoutSlash(s: string): (t: string)
    ensures NoBraces(s) ==> NoBraces(t)
  {
    if s != "" && s[|s| - 1] == '/' then s[..|s| - 1] else s
  }

  /** The host and port, or the whole text and no port. */
  function HostPortOr(t: string): (r: (string, string))
    ensures NoBraces(t) ==> NoBraces(r.0) && NoBraces(r.1)
    ensures SplitHostPort(t).Some? ==> r == SplitHostPort(t).value
  {
    match SplitHostPort(t)
    case Some(hp) => hp
    case None => (t, "")
  }

  /** poolHostPort: the scheme and one trailing slash are dropped before the split. */
  function PoolHostPort(pool: string): (r: (string, string))
    ensures NoBraces(pool) ==> NoBraces(r.0) && NoBraces(r.1)
  {
    HostPortOr(WithoutSlash(WithoutScheme(pool)))
  }

  /** How a host is written in a URL: in brackets when it may contain colons. */
  function Written(host: string, bracketed: bool): string { if bracketed then "[" + host + "]" else host }

  predicate IsHost(host: string, bracketed: bool) {
    forall c | c in host :: c != '[' && c != ']' && (c == ':' ==> bracketed)
  }

  /** A pool URL takes apart into the host, plain or bracketed, and the port it was put together from. */
  lemma {:induction false} PoolUrlRoundTrip(scheme: string, host: string, port: string, bracketed: bool)
    requires ':' !in scheme && IsHost(host, bracketed)
    requires forall c | c in port :: c !in ":[]/"
    ensures PoolHostPort(scheme + "://" + (Written(host, bracketed) + ":" + port)) == (host, port)
    ensures PoolHostPort(scheme + "://" + (Written(host, bracketed) + ":" + port + "/")) == (host, port)
  {
    var hp := Written(host, bracketed) + ":" + port;
    if bracketed { BracketedSplits(host, port); } else { HostPortSplits(host, port); }
    NoTrailingSlash(Written(host, bracketed), port);
    PoolHostPortOf(scheme, hp, hp);
    var hps := hp + "/";
    assert hps[..|hps| - 1] == hp;
    PoolHostPortOf(scheme, hps, hp);
  }

  lemma {:induction false} NoTrailingSlash(host: string, port: string)
    requires '/' !in port
    ensures var hp := host + ":" + port; hp[|hp| - 1] != '/'
  {
    var hp := host + ":" + port;
    if port == "" { assert hp[|hp| - 1] == ':'; } else { assert hp[|hp| - 1] == port[|port| - 1] && port[|port| - 1] in port; }
  }

  lemma {:induction false} PoolHostPortOf(scheme: string, rest: string, t: string)
    requires ':' !in scheme && SplitHostPort(t).Some? && t == WithoutSlash(rest)
    ensures PoolHostPort(scheme + "://" + rest) == SplitHostPort(t).value
  {
    AfterScheme(scheme, rest);
    assert WithoutScheme(scheme + "://" + rest) == rest;
  }

  lemma {:induction false} AfterScheme(scheme: string, rest: string)
    requires ':' !in scheme
    ensures IndexFrom(scheme + "://" + rest, "://", 0) == |scheme|
    ensures (scheme + "://" + rest)[|scheme| + 3..] == rest
  {
    var s := scheme + "://" + rest;
    assert Occurs(s, "://", |scheme|);
    assert forall j: nat | j < |scheme| :: s[j] == scheme[j] && scheme[j] in scheme;
    assert forall j: nat | j < |scheme| :: s[j..j + 3][0] == s[j] && !Occurs(s, "://", j);
  }

  lemma {:induction false} LastColon(front: string, port: string)
    requires ':' !in port
    ensures LastIndex(front + ":" + port, ':') == |front|
  {
    var s := front + ":" + port;
    assert s[|front|] == ':';
    assert forall j | |front| < j < |s| :: s[j] == port[j - |front| - 1] && port[j - |front| - 1] in port;
  }

  lemma {:induction false} HostPortSplits(host: string, port: string)
    requires IsHost(host, false) && forall c | c in port :: c !in ":[]/"
    ensures SplitHostPort(host + ":" + port) == Some((host, port))
  {
    var s := host + ":" + port;
    LastColon(host, port);
    assert s[..|host|] == host && s[|host| + 1..] == port;
    assert forall c | c in s :: c in host || c == ':' || c in port;
    assert s[0] in s;
  }

  lemma {:induction false} BracketedAt(s: string, host: string, port: string)
    requires s == "[" + host + "]" + ":" + port
    ensures |s| == |host| + 3 + |port| && s[0] == '[' && s[|host| + 1] == ']' && s[|host| + 2] == ':'
    ensures forall i | 0 < i <= |host| :: s[i] == host[i - 1]
    ensures forall i | |host| + 3 <= i < |s| :: s[i] == port[i - |host| - 3]
    ensures s[1..|host| + 1] == host && s[|host| + 3..] == port
  {
  }

  lemma {:induction false} FirstClose(s: string, end: nat)
    requires end < |s| && s[end] == ']' && forall j | 0 <= j < end :: s[j] != ']'
    ensures IndexFrom(s, "]", 0) == end
  {
    assert s[end..end + 1] == "]" && Occurs(s, "]", end);
    var i := IndexFrom(s, "]", 0);
    assert 0 <= i <= end;
    assert s[i..i + 1][0] == s[i];
  }

  lemma {:induction false} AbsentFrom(s: string, k: nat, c: char)
    requires k <= |s| && forall i | k <= i < |s| :: s[i] != c
    ensures c !in s[k..]
  {
  }

  lemma {:induction false} BracketedSplits(host: string, port: string)
    requires IsHost(host, true) && forall c | c in port :: c !in ":[]/"
    ensures SplitHostPort("[" + host + "]" + ":" + port) == Some((host, port))
  {
    var s := "[" + host + "]" + ":" + port;
    var end := |host| + 1;
    BracketedAt(s, host, port);
    LastColon("[" + host + "]", port);
    forall i | 0 < i <= |host| ensures s[i] != '[' && s[i] != ']' { assert host[i - 1] in host; }
    forall i | end + 2 <= i < |s| ensures s[i] != '[' && s[i] != ']' { assert port[i - end - 2] in port; }
    FirstClose(s, end);
    AbsentFrom(s, 1, '[');
    AbsentFrom(s, end + 1, ']');
  }

  /** A pool address without a port is all host. */
  lemma {:induction false} PoolUrlWithoutPort(scheme: string, host: string)
    requires ':' !in scheme && ':' !in host && (host == "" || host[|host| - 1] != '/')
    ensures PoolHostPort(scheme + "://" + host) == (host, "") && PoolHostPort(host) == (host, "")
    ensures PoolHostPort(scheme + "://" + (host + "/")) == (host, "")
  {
    AfterScheme(scheme, host);
    AfterScheme(scheme, host + "/");
    assert (host + "/")[..|host + "/"| - 1] == host;
    NoColon(host);
  }

  lemma {:induction false} ColonIn(s: string, i: nat)
    requires Occurs(s, "://", i)
    ensures ':' in s
  {
    assert s[i..i + 3][0] == s[i];
  }

  lemma {:induction false} NoColon(host: string)
    requires ':' !in host
    ensures IndexFrom(host, "://", 0) == -1 && SplitHostPort(host) == None
  {
    if IndexFrom(host, "://", 0) >= 0 {
      ColonIn(host, IndexFrom(host, "://", 0));
    }
  }

  datatype EngineConfig = EngineConfig(poolURL: string, wallet: string, worker: string, threads: int, gpuIntensity: int)

  /** The replacement table renderArgs builds. */
  function ReplTable(cfg: EngineConfig, apiPort: int): Table {
    var (host, port) := PoolHostPort(cfg.poolURL);
    var m: Table := map[];
    m["{pool}" := cfg.poolURL]
     ["{pool_host}" := host]
     ["{pool_port}" := port]
     ["{wallet}" := cfg.wallet]
     ["{worker}" := cfg.worker]
     ["{threads}" := Decimal(Max(1, cfg.threads))]
     ["{api_port}" := Decimal(apiPort)]
     ["{gpu_intensity}" := Decimal(cfg.gpuIntensity)]
  }

  predicate NoEmptyKey(m: Table) { "" !in m }

  lemma {:induction false} AddKey(m: Table, k: string, v: string)
    requires IsKey(k) && NoEmptyKey(m)
    ensures NoEmptyKey(m[k := v]) && (Good(m) && NoBraces(v) ==> Good(m[k := v]))
  {
  }

  lemma {:induction false} PlaceholderNames()
    ensures IsKey("{pool}") && IsKey("{pool_host}") && IsKey("{pool_port}") && IsKey("{wallet}")
    ensures IsKey("{worker}") && IsKey("{threads}") && IsKey("{api_port}") && IsKey("{gpu_intensity}")
  {
  }

  predicate PlainValues(cfg: EngineConfig) {
    NoBraces(cfg.poolURL) && NoBraces(cfg.wallet) && NoBraces(cfg.worker)
  }

  /** With brace-free configuration values the table is one the confluence theorem covers. */
  lemma {:induction false} ReplTableGood(cfg: EngineConfig, apiPort: int)
    ensures NoEmptyKey(ReplTable(cfg, apiPort))
    ensures PlainValues(cfg) ==> Good(ReplTable(cfg, apiPort))
  {
    PlaceholderNames();
    var (host, port) := PoolHostPort(cfg.poolURL);
    var m0: Table := map[];
    var m1 := m0["{pool}" := cfg.poolURL];
    AddKey(m0, "{pool}", cfg.poolURL);
    var m2 := m1["{pool_host}" := host];
    AddKey(m1, "{pool_host}", host);
    var m3 := m2["{pool_port}" := port];
    AddKey(m2, "{pool_port}", port);
    var m4 := m3["{wallet}" := cfg.wallet];
    AddKey(m3, "{wallet}", cfg.wallet);
    var m5 := m4["{worker}" := cfg.worker];
    AddKey(m4, "{worker}", cfg.worker);
    var m6 := m5["{threads}" := Decimal(Max(1, cfg.threads))];
    AddKey(m5, "{threads}", Decimal(Max(1, cfg.threads)));
    var m7 := m6["{api_port}" := Decimal(apiPort)];
    AddKey(m6, "{api_port}", Decimal(apiPort));
    AddKey(m7, "{gpu_intensity}", Decimal(cfg.gpuIntensity));
  }

  // What an argument says. A template is made of plain text and of slots, names in braces.

  datatype Piece = Text(text: string) | Slot(name: string)

  predicate Plain(ps: seq<Piece>) { forall i | 0 <= i < |ps| :: NoBraces(if ps[i].Text? then ps[i].text else ps[i].name) }

  function Slotted(name: string): string { "{" + name + "}" }

  function Source(ps: seq<Piece>): string {
    if ps == [] then "" else (if ps[0].Text? then ps[0].text else Slotted(ps[0].name)) + Source(ps[1..])
  }

  predicate IsPoolUrl(url: string, scheme: string, host: string, port: string, bracketed: bool) {
    && ':' !in scheme && IsHost(host, bracketed) && (forall c | c in port :: c !in ":[]/")
    && (url == scheme + "://" + (Written(host, bracketed) + ":" + port) || url == scheme + "://" + (Written(host, bracketed) + ":" + port + "/"))
  }

  /** What each slot stands for; any other name is left as it is written. */
  ghost predicate Shows(name: string, v: string, cfg: EngineConfig, apiPort: int) {
    && (name == "pool" ==> v == cfg.poolURL)
    && (name == "pool_host" ==> forall scheme, host, port, b | IsPoolUrl(cfg.poolURL, scheme, host, port, b) :: v == host)
    && (name == "pool_port" ==> forall scheme, host, port, b | IsPoolUrl(cfg.poolURL, scheme, host, port, b) :: v == port)
    && (name == "wallet" ==> v == cfg.wallet)
    && (name == "worker" ==> v == cfg.worker)
    && (name == "threads" ==> Denotes(v, if cfg.threads < 1 then 1 else cfg.threads))
    && (name == "api_port" ==> Denotes(v, apiPort))
    && (name == "gpu_intensity" ==> Denotes(v, cfg.gpuIntensity))
    && (name !in {"pool", "pool_host", "pool_port", "wallet", "worker", "threads", "api_port", "gpu_intensity"} ==> v == "{" + name + "}")
  }

  /** r is the template with every slot showing its value and all text as it was. */
  ghost predicate Renders(ps: seq<Piece>, r: string, cfg: EngineConfig, apiPort: int)
    decreases |ps|
  {
    if ps == [] then r == ""
    else exists v, rest :: r == v + rest && Renders(ps[1..], rest, cfg, apiPort)
           && if ps[0].Text? then v == ps[0].text else Shows(ps[0].name, v, cfg, apiPort)
  }

  lemma {:induction false} SlottedIsKey(name: string)
    requires NoBraces(name)
    ensures IsKey(Slotted(name))
  {
    assert forall i | 0 < i < |Slotted(name)| - 1 :: Slotted(name)[i] == name[i - 1];
  }

  lemma {:induction false} NoOpening(s: string)
    requires NoBraces(s)
    ensures '{' !in s
  {
  }

  lemma {:induction false} SourceUnnested(ps: seq<Piece>)
    requires Plain(ps)
    ensures Unnested(Source(ps))
  {
    if ps != [] {
      assert Plain(ps[1..]) by { assert forall i | 0 <= i < |ps[1..]| :: ps[1..][i] == ps[i + 1]; }
      SourceUnnested(ps[1..]);
      if ps[0].Text? {
        ScanSkips(ps[0].text, Source(ps[1..]), false);
      } else {
        ScanSlot(ps[0].name, Source(ps[1..]));
      }
    }
  }

  lemma {:induction false} ScanSlot(name: string, t: string)
    requires NoBraces(name)
    ensures Unnested(Slotted(name) + t) <==> Unnested(t)
  {
    SlottedIsKey(name);
    ScanKey(Slotted(name), t, false);
  }

  lemma {:induction false} NamesApart(name: string)
    ensures Slotted(name)[1..|Slotted(name)| - 1] == name
  {
  }

  /** Which value the table has for which name. */
  lemma {:induction false} TableShows(name: string, cfg: EngineConfig, apiPort: int)
    requires NoBraces(name)
    ensures var m, k := ReplTable(cfg, apiPort), Slotted(name); Shows(name, if k in m then m[k] else k, cfg, apiPort)
  {
    NamesOfKeys();
    if name in {"threads", "api_port", "gpu_intensity"} {
      NumbersShow(name, cfg, apiPort);
    } else if name in {"pool_host", "pool_port"} {
      AddressShows(cfg, apiPort);
    } else if name in {"pool", "wallet", "worker"} {
      TextsShow(cfg, apiPort);
    } else {
      OtherName(name, cfg, apiPort);
    }
  }

  lemma {:induction false} TextsShow(cfg: EngineConfig, apiPort: int)
    ensures var m := ReplTable(cfg, apiPort);
            && "{pool}" in m && m["{pool}"] == cfg.poolURL
            && "{wallet}" in m && m["{wallet}"] == cfg.wallet
            && "{worker}" in m && m["{worker}"] == cfg.worker
  {
  }

  lemma {:induction false} NumbersShow(name: string, cfg: EngineConfig, apiPort: int)
    requires name in {"threads", "api_port", "gpu_intensity"}
    ensures var m, k := ReplTable(cfg, apiPort), Slotted(name); k in m && Shows(name, m[k], cfg, apiPort)
  {
    NumbersIn(cfg, apiPort);
    NamesOfKeys();
    if name == "threads" {
      DecimalDenotes(if cfg.threads < 1 then 1 else cfg.threads);
    } else if name == "api_port" {
      DecimalDenotes(apiPort);
    } else {
      DecimalDenotes(cfg.gpuIntensity);
    }
  }

  lemma {:induction false} NumbersIn(cfg: EngineConfig, apiPort: int)
    ensures var m := ReplTable(cfg, apiPort);
            && "{threads}" in m && m["{threads}"] == Decimal(if cfg.threads < 1 then 1 else cfg.threads)
            && "{api_port}" in m && m["{api_port}"] == Decimal(apiPort)
            && "{gpu_intensity}" in m && m["{gpu_intensity}"] == Decimal(cfg.gpuIntensity)
  {
  }

  lemma {:induction false} UrlParts(url: string, scheme: string, host: string, port: string, bracketed: bool)
    requires IsPoolUrl(url, scheme, host, port, bracketed)
    ensures PoolHostPort(url) == (host, port)
  {
    PoolUrlRoundTrip(scheme, host, port, bracketed);
  }

  lemma {:induction false} AddressIn(cfg: EngineConfig, apiPort: int)
    ensures var m := ReplTable(cfg, apiPort);
            && "{pool_host}" in m && m["{pool_host}"] == PoolHostPort(cfg.poolURL).0
            && "{pool_port}" in m && m["{pool_port}"] == PoolHostPort(cfg.poolURL).1
  {
  }

  lemma {:induction false} AddressShows(cfg: EngineConfig, apiPort: int)
    ensures var m := ReplTable(cfg, apiPort);
            && "{pool_host}" in m && "{pool_port}" in m
            && forall scheme, host, port, b | IsPoolUrl(cfg.poolURL, scheme, host, port, b) :: m["{pool_host}"] == host && m["{pool_port}"] == port
  {
    AddressIn(cfg, apiPort);
    forall scheme, host, port, b | IsPoolUrl(cfg.poolURL, scheme, host, port, b) ensures PoolHostPort(cfg.poolURL) == (host, port) {
      UrlParts(cfg.poolURL, scheme, host, port, b);
    }
  }

  lemma {:induction false} OtherName(name: string, cfg: EngineConfig, apiPort: int)
    requires name !in {"pool", "pool_host", "pool_port", "wallet", "worker", "threads", "api_port", "gpu_intensity"}
    ensures Slotted(name) !in ReplTable(cfg, apiPort)
  {
    var k := Slotted(name);
    NamesApart(name);
    if k in ReplTable(cfg, apiPort) {
      TableKeys(k, cfg, apiPort);
      NamesOfKeys();
    }
  }

  lemma {:induction false} TableKeys(k: string, cfg: EngineConfig, apiPort: int)
    requires k in ReplTable(cfg, apiPort)
    ensures k in {"{pool}", "{pool_host}", "{pool_port}", "{wallet}", "{worker}", "{threads}", "{api_port}", "{gpu_intensity}"}
  {
  }

  lemma {:induction false} NamesOfKeys()
    ensures "{pool}" == Slotted("pool") && "{pool_host}" == Slotted("pool_host") && "{pool_port}" == Slotted("pool_port")
    ensures "{wallet}" == Slotted("wallet") && "{worker}" == Slotted("worker") && "{threads}" == Slotted("threads")
    ensures "{api_port}" == Slotted("api_port") && "{gpu_intensity}" == Slotted("gpu_intensity")
    ensures forall name :: Slotted(name)[1..|Slotted(name)| - 1] == name
  {
  }

  lemma {:induction false} SubstPiece(p: Piece, rest: string, m: Table)
    requires NoBraces(if p.Text? then p.text else p.name)
    ensures Subst((if p.Text? then p.text else Slotted(p.name)) + rest, m)
         == (if p.Text? then p.text else if Slotted(p.name) in m then m[Slotted(p.name)] else Slotted(p.name)) + Subst(rest, m)
  {
    match p
    case Text(text) =>
      NoOpening(text);
      SubstSkips(text, rest, m);
    case Slot(name) =>
      SlottedIsKey(name);
      if Slotted(name) in m {
        SubstKey(Slotted(name), rest, m);
      } else {
        UnknownFirst(Slotted(name), rest, m);
      }
  }

  /** The simultaneous substitution of renderArgs's table shows every slot's value. */
  lemma {:induction false} SubstRenders(ps: seq<Piece>, cfg: EngineConfig, apiPort: int)
    requires Plain(ps)
    ensures Renders(ps, Subst(Source(ps), ReplTable(cfg, apiPort)), cfg, apiPort)
    decreases |ps|
  {
    if ps != [] {
      var m, rest := ReplTable(cfg, apiPort), Source(ps[1..]);
      assert Plain(ps[1..]) by { assert forall i | 0 <= i < |ps[1..]| :: ps[1..][i] == ps[i + 1]; }
      SubstRenders(ps[1..], cfg, apiPort);
      SubstPiece(ps[0], rest, m);
      if ps[0].Slot? {
        TableShows(ps[0].name, cfg, apiPort);
      }
    }
  }

  /** A slot alone. */
  lemma {:induction false} SlotAlone(name: string, r: string, cfg: EngineConfig, apiPort: int)
    requires NoBraces(name)
    ensures Plain([Slot(name)]) && Source([Slot(name)]) == "{" + name + "}"
    ensures Renders([Slot(name)], r, cfg, apiPort) ==> Shows(name, r, cfg, apiPort)
  {
    var ps := [Slot(name)];
    assert ps[1..] == [];
    if Renders(ps, r, cfg, apiPort) {
      var v, rest :| r == v + rest && Renders(ps[1..], rest, cfg, apiPort) && Shows(name, v, cfg, apiPort);
      assert r == v;
    }
  }

  /** The inner loop of renderArgs: Go's map iteration is an arbitrary choice of the next key. */
  method RenderArg(a: string, repl: Table) returns (r: string, ghost order: seq<string>)
    requires NoEmptyKey(repl)
    ensures IsOrder(order, repl) && r == Sequential(a, order, repl)
    ensures Good(repl) && Unnested(a) ==> r == Subst(a, repl)
  {
    r := a;
    order := [];
    var todo := repl.Keys;
    while todo != {}
      invariant todo <= repl.Keys
      invariant forall k | k in repl :: k in todo <==> k !in order
      invariant forall i | 0 <= i < |order| :: order[i] in repl
      invariant forall i, j | 0 <= i < j < |order| :: order[i] != order[j]
      invariant r == Sequential(a, order, repl)
      decreases |todo|
    {
      var k :| k in todo;
      SequentialSnoc(a, order, k, repl);
      r := ReplaceAll(r, k, repl[k]);
      order := order + [k];
      todo := todo - {k};
    }
    if Good(repl) && Unnested(a) {
      Confluent(a, order, repl);
    }
  }

  lemma {:induction false} SequentialSnoc(s: string, order: seq<string>, k: string, m: Table)
    requires forall i | 0 <= i < |order| :: order[i] != "" && order[i] in m
    requires k != "" && k in m
    ensures Sequential(s, order + [k], m) == ReplaceAll(Sequential(s, order, m), k, m[k])
    decreases |order|
  {
    var all := order + [k];
    if order == [] {
      assert all == [k] && all[1..] == [];
    } else {
      assert all[0] == order[0] && all[1..] == order[1..] + [k];
      SequentialSnoc(ReplaceAll(s, order[0], m[order[0]]), order[1..], k, m);
    }
  }

  /** renderArgs: argument by argument, every slot shows its value and the rest stays as it is written. */
  method RenderArgs(tmpl: seq<string>, cfg: EngineConfig, apiPort: int) returns (out: seq<string>)
    ensures |out| == |tmpl|
    ensures PlainValues(cfg) ==>
              forall i | 0 <= i < |tmpl| && Unnested(tmpl[i]) :: out[i] == Subst(tmpl[i], ReplTable(cfg, apiPort))
    ensures PlainValues(cfg) ==>
              forall i, ps | 0 <= i < |tmpl| && Plain(ps) && tmpl[i] == Source(ps) :: Renders(ps, out[i], cfg, apiPort)
    ensures PlainValues(cfg) ==>
              forall i, name | 0 <= i < |tmpl| && NoBraces(name) && tmpl[i] == "{" + name + "}" :: Shows(name, out[i], cfg, apiPort)
  {
    var repl := ReplTable(cfg, apiPort);
    ReplTableGood(cfg, apiPort);
    out := [];
    for i := 0 to |tmpl|
      invariant |out| == i
      invariant PlainValues(cfg) ==>
                  forall j | 0 <= j < i && Unnested(tmpl[j]) :: out[j] == Subst(tmpl[j], repl)
    {
      var a, _ := RenderArg(tmpl[i], repl);
      out := out + [a];
    }
    if PlainValues(cfg) {
      forall i, ps | 0 <= i < |tmpl| && Plain(ps) && tmpl[i] == Source(ps) ensures Renders(ps, out[i], cfg, apiPort) {
        SourceUnnested(ps);
        SubstRenders(ps, cfg, apiPort);
      }
      forall i, name | 0 <= i < |tmpl| && NoBraces(name) && tmpl[i] == "{" + name + "}" ensures Shows(name, out[i], cfg, apiPort) {
        SlotAlone(name, out[i], cfg, apiPort);
        assert Renders([Slot(name)], out[i], cfg, apiPort);
      }
    }
  }
}
