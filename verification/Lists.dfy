/** Sequences as ordered collections: subsequences, removal by position, sums. */
module Lists {

  function RemoveAt<T>(s: seq<T>, i: nat): (r: seq<T>)
    requires i < |s|
    ensures |r| == |s| - 1
  {
    s[..i] + s[i + 1..]
  }

  lemma RemoveAtLeft<T>(s: seq<T>, t: seq<T>, i: nat)
    requires i < |s|
    ensures RemoveAt(s + t, i) == RemoveAt(s, i) + t
  {
  }

  lemma RemoveAtRight<T>(s: seq<T>, t: seq<T>, i: nat)
    requires i < |t|
    ensures RemoveAt(s + t, |s| + i) == s + RemoveAt(t, i)
  {
  }

  lemma RemoveAtLater<T>(s: seq<T>, i: nat, j: nat)
    requires i < j < |s|
    ensures |RemoveAt(s, i)| == |s| - 1 && RemoveAt(s, i)[j - 1] == s[j]
  {
  }

  lemma ConcatAssoc<T>(s: seq<T>, t: seq<T>, u: seq<T>)
    ensures s + t + u == s + (t + u)
  {
  }

  lemma SubsetSize<T>(a: set<T>, b: set<T>)
    requires a <= b
    ensures |a| <= |b|
  {
    assert b == a + (b - a);
  }

  /** How often an element occurs. */
  function Count<T(==)>(s: seq<T>, x: T): (n: nat) {
    if s == [] then 0 else (if s[0] == x then 1 else 0) + Count(s[1..], x)
  }

  lemma {:induction false} CountConcat<T>(s: seq<T>, t: seq<T>, x: T)
    ensures Count(s + t, x) == Count(s, x) + Count(t, x)
    decreases |s|
  {
    if s == [] {
      assert s + t == t;
    } else {
      CountConcat(s[1..], t, x);
      assert (s + t)[1..] == s[1..] + t;
    }
  }

  lemma {:induction false} CountMember<T>(s: seq<T>, x: T)
    ensures Count(s, x) > 0 <==> x in s
    decreases |s|
  {
    if s != [] {
      CountMember(s[1..], x);
      assert s == [s[0]] + s[1..];
    }
  }

  lemma {:induction false} CountRemoveAt<T>(s: seq<T>, i: nat, x: T)
    requires i < |s|
    ensures Count(s, x) == Count(RemoveAt(s, i), x) + if s[i] == x then 1 else 0
    decreases i
  {
    if i == 0 {
      assert RemoveAt(s, 0) == s[1..];
    } else {
      CountRemoveAt(s[1..], i - 1, x);
      assert RemoveAt(s, i)[1..] == RemoveAt(s[1..], i - 1);
    }
  }

  /** Counting is what multisets do. */
  lemma {:induction false} CountIsMultiplicity<T>(s: seq<T>, x: T)
    ensures multiset(s)[x] == Count(s, x)
    decreases |s|
  {
    if s != [] {
      CountIsMultiplicity(s[1..], x);
      assert s == [s[0]] + s[1..];
    }
  }

  /** Without its first occurrence of `x`, if there is one. */
  function RemoveFirst<T(==)>(s: seq<T>, x: T): (r: seq<T>) {
    if s == [] then [] else if s[0] == x then s[1..] else [s[0]] + RemoveFirst(s[1..], x)
  }

  lemma {:induction false} CountRemoveFirst<T>(s: seq<T>, x: T, y: T)
    ensures Count(RemoveFirst(s, x), y) == Count(s, y) - if x == y && x in s then 1 else 0
    decreases |s|
  {
    if s != [] && s[0] != x {
      CountRemoveFirst(s[1..], x, y);
      assert RemoveFirst(s, x)[1..] == RemoveFirst(s[1..], x);
      assert s == [s[0]] + s[1..];
    }
  }

  /** `xs` is what remains of `ys`, in order, after some elements are taken out. */
  predicate Subseq<T(==)>(xs: seq<T>, ys: seq<T>)
    decreases |ys|
  {
    if xs == [] then true
    else if ys == [] then false
    else (xs[0] == ys[0] && Subseq(xs[1..], ys[1..])) || Subseq(xs, ys[1..])
  }

  lemma {:induction false} SubseqRefl<T>(xs: seq<T>)
    ensures Subseq(xs, xs)
    decreases |xs|
  {
    if xs != [] { SubseqRefl(xs[1..]); }
  }

  lemma {:induction false} SubseqTrans<T>(xs: seq<T>, ys: seq<T>, zs: seq<T>)
    requires Subseq(xs, ys) && Subseq(ys, zs)
    ensures Subseq(xs, zs)
    decreases |zs|, |ys|
  {
    if xs != [] && zs != [] {
      if ys[0] == zs[0] && Subseq(ys[1..], zs[1..]) {
        if xs[0] == ys[0] && Subseq(xs[1..], ys[1..]) {
          SubseqTrans(xs[1..], ys[1..], zs[1..]);
        } else {
          SubseqTrans(xs, ys[1..], zs[1..]);
        }
      } else {
        SubseqTrans(xs, ys, zs[1..]);
      }
    }
  }

  /** Dropping a prefix of the longer list only weakens the relation. */
  lemma {:induction false} SubseqPrepend<T>(xs: seq<T>, pre: seq<T>, ys: seq<T>)
    requires Subseq(xs, ys)
    ensures Subseq(xs, pre + ys)
    decreases |pre|
  {
    if pre == [] {
      assert pre + ys == ys;
    } else {
      SubseqPrepend(xs, pre[1..], ys);
      assert (pre + ys)[1..] == pre[1..] + ys;
    }
  }

  lemma {:induction false} SubseqConcat<T>(xs: seq<T>, ys: seq<T>, us: seq<T>, vs: seq<T>)
    requires Subseq(xs, ys) && Subseq(us, vs)
    ensures Subseq(xs + us, ys + vs)
    decreases |ys|
  {
    if xs == [] {
      assert xs + us == us;
      SubseqPrepend(us, ys, vs);
    } else {
      assert (ys + vs)[1..] == ys[1..] + vs && (ys + vs)[0] == ys[0];
      if xs[0] == ys[0] && Subseq(xs[1..], ys[1..]) {
        SubseqConcat(xs[1..], ys[1..], us, vs);
        assert (xs + us)[1..] == xs[1..] + us;
      } else {
        SubseqConcat(xs, ys[1..], us, vs);
      }
    }
  }

  lemma {:induction false} SubseqRemoveAt<T>(s: seq<T>, i: nat)
    requires i < |s|
    ensures Subseq(RemoveAt(s, i), s)
  {
    SubseqRefl(s[..i]);
    SubseqRefl(s[i + 1..]);
    SubseqPrepend(s[i + 1..], [s[i]], s[i + 1..]);
    SubseqConcat(s[..i], s[..i], s[i + 1..], [s[i]] + s[i + 1..]);
    assert s == s[..i] + ([s[i]] + s[i + 1..]);
  }

  lemma {:induction false} SubseqCount<T>(xs: seq<T>, ys: seq<T>, x: T)
    requires Subseq(xs, ys)
    ensures Count(xs, x) <= Count(ys, x)
    decreases |ys|
  {
    if xs != [] {
      if xs[0] == ys[0] && Subseq(xs[1..], ys[1..]) {
        SubseqCount(xs[1..], ys[1..], x);
      } else {
        SubseqCount(xs, ys[1..], x);
      }
    }
  }

  lemma {:induction false} SubseqLength<T>(xs: seq<T>, ys: seq<T>)
    requires Subseq(xs, ys)
    ensures |xs| <= |ys|
    decreases |ys|
  {
    if xs != [] { SubseqLength(if xs[0] == ys[0] && Subseq(xs[1..], ys[1..]) then xs[1..] else xs, ys[1..]); }
  }

  lemma SubseqMember<T>(xs: seq<T>, ys: seq<T>, x: T)
    requires Subseq(xs, ys) && x in xs
    ensures x in ys
  {
    SubseqCount(xs, ys, x);
    CountMember(xs, x);
    CountMember(ys, x);
  }

  /** What is left of `s` when every position in `gone` is taken out. */
  function RemovePositions<T>(s: seq<T>, gone: set<nat>): (r: seq<T>)
    ensures |r| <= |s|
  {
    if s == [] then []
    else
      var n := |s| - 1;
      RemovePositions(s[..n], gone) + if n in gone then [] else [s[n]]
  }

  lemma {:induction false} RemoveNoPositions<T>(s: seq<T>, gone: set<nat>)
    requires forall i | i in gone :: i >= |s|
    ensures RemovePositions(s, gone) == s
    decreases |s|
  {
    if s != [] { RemoveNoPositions(s[..|s| - 1], gone); }
  }

  /** Taking out the largest position first leaves the smaller ones where they were. */
  lemma {:induction false} RemoveLargestFirst<T>(s: seq<T>, gone: set<nat>, i: nat)
    requires i < |s| && i in gone && forall j | j in gone :: j <= i
    ensures RemovePositions(RemoveAt(s, i), gone - {i}) == RemovePositions(s, gone)
    decreases |s|
  {
    var n := |s| - 1;
    if i == n {
      assert RemoveAt(s, i) == s[..n];
      RemovePositionsIgnores(s[..n], gone, n);
    } else {
      RemoveLargestFirst(s[..n], gone, i);
      assert RemoveAt(s, i)[..n - 1] == RemoveAt(s[..n], i);
      assert RemoveAt(s, i)[n - 1] == s[n];
    }
  }

  lemma {:induction false} RemovePositionsIgnores<T>(s: seq<T>, gone: set<nat>, i: nat)
    requires i >= |s|
    ensures RemovePositions(s, gone - {i}) == RemovePositions(s, gone)
    decreases |s|
  {
    if s != [] { RemovePositionsIgnores(s[..|s| - 1], gone, i); }
  }

  lemma {:induction false} RemovePositionsLength<T>(s: seq<T>, gone: set<nat>)
    requires forall i | i in gone :: i < |s|
    ensures |RemovePositions(s, gone)| == |s| - |gone|
    decreases |s|
  {
    if s != [] {
      var n := |s| - 1;
      if n in gone {
        RemovePositionsIgnores(s[..n], gone, n);
        RemovePositionsLength(s[..n], gone - {n});
      } else {
        RemovePositionsLength(s[..n], gone);
      }
    } else {
      assert gone == {};
    }
  }

  lemma {:induction false} RemovePositionsMember<T>(s: seq<T>, gone: set<nat>, x: T)
    ensures x in RemovePositions(s, gone) <==> exists i :: 0 <= i < |s| && i !in gone && s[i] == x
    decreases |s|
  {
    if s != [] {
      var n := |s| - 1;
      RemovePositionsMember(s[..n], gone, x);
    }
  }
}
