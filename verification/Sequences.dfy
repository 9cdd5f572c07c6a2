/** Facts about sequences that the tables and histories of the server rely on. */
module Sequences {

  function Init<T>(s: seq<T>): seq<T>
    requires s != []
  {
    s[..|s| - 1]
  }

  function Last<T>(s: seq<T>): T
    requires s != []
  {
    s[|s| - 1]
  }

  /** The first n elements, or all when there are fewer. */
  function FirstN<T>(s: seq<T>, n: nat): (r: seq<T>)
    ensures r <= s && |r| == if |s| <= n then |s| else n
  {
    if |s| <= n then s else s[..n]
  }

  /** The last n elements, or all when there are fewer. */
  function LastN<T>(s: seq<T>, n: nat): (r: seq<T>)
    ensures |r| == if |s| <= n then |s| else n
  {
    if |s| <= n then s else s[|s| - n..]
  }

  function Reverse<T>(s: seq<T>): (r: seq<T>)
    ensures |r| == |s|
  {
    if s == [] then [] else [Last(s)] + Reverse(Init(s))
  }

  function Sum(s: seq<int>): int {
    if s == [] then 0 else Sum(Init(s)) + Last(s)
  }

  function Filter<T>(keep: T -> bool, s: seq<T>): (r: seq<T>)
    ensures |r| <= |s|
    ensures forall x :: x in r ==> x in s && keep(x)
    ensures forall x :: x in s && keep(x) ==> x in r
  {
    if s == [] then []
    else if keep(Last(s)) then Filter(keep, Init(s)) + [Last(s)]
    else Filter(keep, Init(s))
  }

  /** The first index whose element satisfies p, or the length. */
  function IndexOf<T>(p: T -> bool, s: seq<T>): (i: nat)
    ensures i <= |s|
    ensures i < |s| ==> p(s[i])
    ensures forall j :: 0 <= j < i ==> !p(s[j])
  {
    if s == [] || p(s[0]) then 0 else 1 + IndexOf(p, s[1..])
  }

  lemma IsIndexOf<T>(p: T -> bool, s: seq<T>, i: nat)
    requires i < |s| && p(s[i]) && forall j :: 0 <= j < i ==> !p(s[j])
    ensures IndexOf(p, s) == i
  {
  }

  lemma NoneIs<T>(p: T -> bool, s: seq<T>)
    requires forall j :: 0 <= j < |s| ==> !p(s[j])
    ensures IndexOf(p, s) == |s|
  {
  }

  /** How many elements satisfy p. */
  function Count<T>(p: T -> bool, s: seq<T>): nat {
    if s == [] then 0 else Count(p, Init(s)) + if p(Last(s)) then 1 else 0
  }

  /** Position-wise: no element occurs twice. */
  ghost predicate Distinct<T>(s: seq<T>) {
    forall i, j :: 0 <= i < j < |s| ==> s[i] != s[j]
  }

  /** a is obtained from b by dropping elements and keeping the order of the rest. */
  ghost predicate Subseq<T>(a: seq<T>, b: seq<T>) {
    if a == [] then true
    else if b == [] then false
    else (Last(a) == Last(b) && Subseq(Init(a), Init(b))) || Subseq(a, Init(b))
  }

  lemma {:induction false} SubseqRefl<T>(a: seq<T>)
    ensures Subseq(a, a)
  {
    if a != [] { SubseqRefl(Init(a)); }
  }

  lemma SubseqGrow<T>(a: seq<T>, b: seq<T>, x: T)
    requires Subseq(a, b)
    ensures Subseq(a, b + [x])
    ensures Subseq(a + [x], b + [x])
  {
    assert Init(b + [x]) == b && Init(a + [x]) == a;
  }

  lemma {:induction false} SubseqInit<T>(a: seq<T>, b: seq<T>)
    requires a != [] && Subseq(a, b)
    ensures Subseq(Init(a), b)
  {
    if Subseq(a, Init(b)) {
      SubseqInit(a, Init(b));
    }
    if Subseq(Init(a), Init(b)) {
      SubseqGrow(Init(a), Init(b), Last(b));
      assert Init(b) + [Last(b)] == b;
    }
  }

  lemma {:induction false} SubseqTrans<T>(a: seq<T>, b: seq<T>, c: seq<T>)
    requires Subseq(a, b) && Subseq(b, c)
    ensures Subseq(a, c)
    decreases |b| + |c|
  {
    if a == [] || b == [] {
    } else if Subseq(b, Init(c)) {
      SubseqTrans(a, b, Init(c));
    } else if Subseq(a, Init(b)) {
      SubseqTrans(a, Init(b), Init(c));
    } else {
      SubseqTrans(Init(a), Init(b), Init(c));
    }
  }

  /** A subsequence is no longer, and one of full length is the whole. */
  lemma {:induction false} SubseqLength<T>(a: seq<T>, b: seq<T>)
    requires Subseq(a, b)
    ensures |a| <= |b|
    ensures |a| == |b| ==> a == b
  {
    if a != [] {
      if Subseq(a, Init(b)) {
        SubseqLength(a, Init(b));
      } else {
        SubseqLength(Init(a), Init(b));
        assert a == Init(a) + [Last(a)] && b == Init(b) + [Last(b)];
      }
    }
  }

  lemma {:induction false} DropOne<T>(a: seq<T>, i: nat)
    requires i < |a|
    ensures Subseq(a[..i] + a[i + 1..], a)
  {
    var d := a[..i] + a[i + 1..];
    if i == |a| - 1 {
      assert d == Init(a);
      SubseqRefl(Init(a));
      SubseqGrow(Init(a), Init(a), Last(a));
      assert Init(a) + [Last(a)] == a;
    } else {
      assert Init(d) == Init(a)[..i] + Init(a)[i + 1..];
      DropOne(Init(a), i);
    }
  }

  /** Dropping one element of a subsequence leaves a subsequence. */
  lemma SubseqDrop<T>(a: seq<T>, i: nat, b: seq<T>)
    requires i < |a| && Subseq(a, b)
    ensures Subseq(a[..i] + a[i + 1..], b)
  {
    DropOne(a, i);
    SubseqTrans(a[..i] + a[i + 1..], a, b);
  }

  lemma SumSnoc(s: seq<int>, x: int)
    ensures Sum(s + [x]) == Sum(s) + x
  {
    assert Init(s + [x]) == s;
  }

  lemma ReverseSnoc<T>(s: seq<T>, x: T)
    ensures Reverse(s + [x]) == [x] + Reverse(s)
  {
    assert Init(s + [x]) == s;
  }

  lemma FilterSnoc<T>(keep: T -> bool, s: seq<T>, x: T)
    ensures Filter(keep, s + [x]) == Filter(keep, s) + if keep(x) then [x] else []
  {
    assert Init(s + [x]) == s;
  }

  lemma {:induction false} FilterConcat<T>(keep: T -> bool, a: seq<T>, b: seq<T>)
    ensures Filter(keep, a + b) == Filter(keep, a) + Filter(keep, b)
  {
    if b == [] {
      assert a + b == a;
    } else {
      FilterConcat(keep, a, Init(b));
      assert Init(a + b) == a + Init(b) && Last(a + b) == Last(b);
    }
  }

  lemma {:induction false} CountConcat<T>(p: T -> bool, a: seq<T>, b: seq<T>)
    ensures Count(p, a + b) == Count(p, a) + Count(p, b)
  {
    if b == [] {
      assert a + b == a;
    } else {
      assert Init(a + b) == a + Init(b);
      CountConcat(p, a, Init(b));
    }
  }

  lemma CountSnoc<T>(p: T -> bool, s: seq<T>, x: T)
    ensures Count(p, s + [x]) == Count(p, s) + if p(x) then 1 else 0
  {
    assert Init(s + [x]) == s;
  }

  /** Counting around one position. */
  lemma CountAt<T>(p: T -> bool, s: seq<T>, i: nat)
    requires i < |s|
    ensures Count(p, s) == Count(p, s[..i]) + (if p(s[i]) then 1 else 0) + Count(p, s[i + 1..])
  {
    assert s == s[..i] + [s[i]] + s[i + 1..];
    CountConcat(p, s[..i] + [s[i]], s[i + 1..]);
    CountSnoc(p, s[..i], s[i]);
  }

  lemma CountRemove<T>(p: T -> bool, s: seq<T>, i: nat)
    requires i < |s|
    ensures Count(p, s) == Count(p, s[..i] + s[i + 1..]) + if p(s[i]) then 1 else 0
  {
    CountAt(p, s, i);
    CountConcat(p, s[..i], s[i + 1..]);
  }

  lemma CountUpdate<T>(p: T -> bool, s: seq<T>, i: nat, x: T)
    requires i < |s|
    ensures Count(p, s) - (if p(s[i]) then 1 else 0) == Count(p, s[i := x]) - if p(x) then 1 else 0
  {
    CountAt(p, s, i);
    CountAt(p, s[i := x], i);
    assert s[i := x][..i] == s[..i] && s[i := x][i + 1..] == s[i + 1..];
  }

  lemma CountHead<T>(p: T -> bool, s: seq<T>)
    requires s != []
    ensures Count(p, s) == Count(p, s[1..]) + if p(s[0]) then 1 else 0
  {
    CountRemove(p, s, 0);
    assert s[..0] + s[1..] == s[1..];
  }

  lemma {:induction false} CountZero<T>(p: T -> bool, s: seq<T>)
    ensures Count(p, s) == 0 <==> forall i :: 0 <= i < |s| ==> !p(s[i])
  {
    if s != [] {
      CountZero(p, Init(s));
    }
  }

  function Elements<T>(s: seq<T>): (e: set<T>)
    ensures forall x :: x in e ==> x in s
    ensures forall x :: x in s ==> x in e
  {
    set x | x in s
  }

  lemma {:induction false} ElementsBound<T>(s: seq<T>)
    ensures |Elements(s)| <= |s|
  {
    if s == [] {
      assert Elements(s) == {};
    } else {
      ElementsBound(Init(s));
      assert s == Init(s) + [Last(s)];
      assert Elements(s) == Elements(Init(s)) + {Last(s)};
    }
  }

  lemma {:induction false} DistinctCount<T>(s: seq<T>)
    requires Distinct(s)
    ensures |Elements(s)| == |s|
  {
    if s == [] {
      assert Elements(s) == {};
    } else {
      DistinctCount(Init(s));
      assert s == Init(s) + [Last(s)];
      assert Elements(s) == Elements(Init(s)) + {Last(s)};
    }
  }

  lemma {:induction false} SetBound<T>(a: set<T>, b: set<T>)
    requires a <= b
    ensures |a| <= |b|
  {
    if a != {} {
      var x :| x in a;
      SetBound(a - {x}, b - {x});
    }
  }

  /** Pigeonhole: distinct values drawn from a list are at most as many as the list is long. */
  lemma Pigeonhole<T>(s: seq<T>, pool: seq<T>)
    requires Distinct(s)
    requires forall x :: x in s ==> x in pool
    ensures |s| <= |pool|
  {
    DistinctCount(s);
    ElementsBound(pool);
    SetBound(Elements(s), Elements(pool));
  }
}
