/** Small shared vocabulary: identifiers, optional values and sequence helpers. */
module Base {

  datatype Option<+T> = None | Some(value: T)

  /** Row and object identifiers. A uuid is a number no earlier row has had. */
  type Id = nat

  function Flatten<T>(chunks: seq<seq<T>>): seq<T> {
    if chunks == [] then [] else chunks[0] + Flatten(chunks[1..])
  }

  /** The last n elements of s, or all of them when there are fewer. */
  function LastN<T>(n: nat, s: seq<T>): seq<T> {
    if |s| <= n then s else s[|s| - n..]
  }

  /** It is a suffix, of n elements when there are that many. */
  lemma {:induction false} LastNSuffix<T>(n: nat, s: seq<T>) returns (dropped: seq<T>)
    ensures s == dropped + LastN(n, s)
    ensures |LastN(n, s)| == if |s| < n then |s| else n
  {
    dropped := s[..|s| - |LastN(n, s)|];
  }

  /** Trimming after every append keeps exactly the tail of the whole history. */
  lemma {:induction false} LastNSnoc<T>(n: nat, s: seq<T>, x: T)
    requires n > 0
    ensures LastN(n, LastN(n, s) + [x]) == LastN(n, s + [x])
  {
  }

  lemma {:induction false} LastNConcat<T>(n: nat, s: seq<T>, t: seq<T>)
    ensures LastN(n, LastN(n, s) + t) == LastN(n, s + t)
  {
  }

  function Filter<T>(p: T -> bool, s: seq<T>): seq<T> {
    if s == [] then [] else (if p(s[0]) then [s[0]] else []) + Filter(p, s[1..])
  }

  lemma {:induction false} FilterConcat<T>(p: T -> bool, s: seq<T>, t: seq<T>)
    ensures Filter(p, s + t) == Filter(p, s) + Filter(p, t)
  {
    if s == [] {
      assert s + t == t;
    } else {
      var h := if p(s[0]) then [s[0]] else [];
      assert (s + t)[0] == s[0] && (s + t)[1..] == s[1..] + t;
      FilterConcat(p, s[1..], t);
      assert h + (Filter(p, s[1..]) + Filter(p, t)) == (h + Filter(p, s[1..])) + Filter(p, t);
    }
  }

  lemma {:induction false} FilterMember<T>(p: T -> bool, s: seq<T>, x: T)
    ensures x in Filter(p, s) <==> x in s && p(x)
  {
    if s != [] {
      FilterMember(p, s[1..], x);
      assert x in s <==> x == s[0] || x in s[1..];
    }
  }

  /** Filtering twice is filtering by both conditions. */
  lemma {:induction false} FilterFilter<T>(p: T -> bool, q: T -> bool, r: T -> bool, s: seq<T>)
    requires forall x | x in s :: r(x) <==> p(x) && q(x)
    ensures Filter(p, Filter(q, s)) == Filter(r, s)
  {
    if s != [] {
      FilterFilter(p, q, r, s[1..]);
      FilterConcat(p, if q(s[0]) then [s[0]] else [], Filter(q, s[1..]));
      assert Filter(p, [s[0]]) == if p(s[0]) then [s[0]] else [];
    }
  }

  lemma {:induction false} FilterCongruent<T>(p: T -> bool, q: T -> bool, s: seq<T>)
    requires forall x | x in s :: p(x) <==> q(x)
    ensures Filter(p, s) == Filter(q, s)
  {
    if s != [] {
      FilterCongruent(p, q, s[1..]);
    }
  }

  lemma {:induction false} FilterAll<T>(p: T -> bool, s: seq<T>)
    requires forall x | x in s :: p(x)
    ensures Filter(p, s) == s
  {
    if s != [] {
      FilterAll(p, s[1..]);
      assert s == [s[0]] + s[1..];
    }
  }
}
