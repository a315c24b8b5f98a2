/** When the flat data and the position lists of a nested slot determine the batch they came from, whatever
    decoder is used (paddle/py_paddle/dataprovider_converter.py). */
module ConverterImage {
  import opened Common
  import opened Converter

  predicate AllLists(ds: seq<Data>) { forall i | 0 <= i < |ds| :: ds[i].List? }

  predicate EndsEmpty(d: Data) { d.List? && !Solid(d.items) }

  predicate BeginsEmpty(d: Data) { d.List? && d.items != [] && Size(d.items[0]) == 0 }

  /** No sample but the last ends in an empty sub-sequence, and no sample but the first begins with one. */
  predicate Crisp(ds: seq<Data>) {
    && (forall j | 0 <= j < |ds| - 1 :: !EndsEmpty(ds[j]))
    && (forall j | 1 <= j < |ds| :: !BeginsEmpty(ds[j]))
  }

  // --------------------------------------------------------- crisp batches are determined

  lemma {:induction false} SizesHasLast(x: seq<Data>)
    requires x != []
    ensures Sizes(x) >= Size(x[|x| - 1])
  {
    if |x| > 1 { SizesHasLast(x[1..]); }
  }

  /** `a` does not end in an empty item and `b` does not begin with one, so no other cut of `a + b` has
      the same size on its left. */
  lemma SameCut(a: seq<Data>, b: seq<Data>, a': seq<Data>, b': seq<Data>)
    requires a + b == a' + b' && Sizes(a) == Sizes(a')
    requires Solid(a) && (b == [] || Size(b[0]) > 0)
    ensures a == a' && b == b'
  {
    if |a| < |a'| {
      LongerCut(a, b, a', b');
    } else if |a'| < |a| {
      LongerCut(a', b', a, b);
      SizesHasLast(a[|a'|..]);
    } else {
      assert a == (a + b)[..|a|] && a' == (a' + b')[..|a|];
      assert b == (a + b)[|a|..] && b' == (a' + b')[|a|..];
    }
  }

  /** What the longer of two cuts of equal size has in addition is empty, and starts the other's rest. */
  lemma LongerCut(a: seq<Data>, b: seq<Data>, a': seq<Data>, b': seq<Data>)
    requires a + b == a' + b' && Sizes(a) == Sizes(a') && |a| < |a'|
    ensures Sizes(a'[|a|..]) == 0 && Size(a'[|a|]) == 0 && b != [] && b[0] == a'[|a|]
  {
    assert a == (a + b)[..|a|] && a == a'[..|a|];
    assert a' == a + a'[|a|..];
    SizesConcat(a, a'[|a|..]);
    assert (a + b)[|a|] == a'[|a|];
    assert Sizes(a'[|a|..]) == Size(a'[|a|]) + Sizes(a'[|a|..][1..]);
  }

  lemma {:induction false} FirstChild(ds: seq<Data>)
    requires AllLists(ds) && forall j | 0 <= j < |ds| :: !BeginsEmpty(ds[j])
    ensures Children(ds) == [] || Size(Children(ds)[0]) > 0
  {
    if ds != [] {
      FirstChild(ds[1..]);
      if ds[0].items == [] {
        assert [] + Children(ds[1..]) == Children(ds[1..]);
      } else {
        assert Children(ds)[0] == ds[0].items[0] && !BeginsEmpty(ds[0]);
      }
    }
  }

  lemma ChildrenOne(d: Data)
    requires d.List?
    ensures Children([d]) == d.items
  {
    assert [d][1..] == [] && Children([]) == [];
  }

  lemma {:induction false} CrispDetermined(ds: seq<Data>, es: seq<Data>, at: int)
    requires AllLists(ds) && AllLists(es) && Crisp(ds)
    requires Children(ds) == Children(es) && Starts(ds, at) == Starts(es, at)
    ensures ds == es
    decreases |ds|
  {
    assert |ds| == |es| by { StartsAscend(ds, at); StartsAscend(es, at); }
    if |ds| == 1 {
      ChildrenOne(ds[0]);
      ChildrenOne(es[0]);
      assert ds == [ds[0]] && es == [es[0]];
    } else if |ds| > 1 {
      HeadDetermined(ds, es, at);
      CrispDetermined(ds[1..], es[1..], at + Size(ds[0]));
      assert ds == [ds[0]] + ds[1..] && es == [es[0]] + es[1..];
    }
  }

  lemma HeadDetermined(ds: seq<Data>, es: seq<Data>, at: int)
    requires AllLists(ds) && AllLists(es) && Crisp(ds) && |ds| == |es| > 1
    requires Children(ds) == Children(es) && Starts(ds, at) == Starts(es, at)
    ensures ds[0] == es[0] && Children(ds[1..]) == Children(es[1..])
    ensures Starts(ds[1..], at + Size(ds[0])) == Starts(es[1..], at + Size(es[0]))
  {
    var t, t' := Starts(ds[1..], at + Size(ds[0])), Starts(es[1..], at + Size(es[0]));
    assert t == t' && Size(ds[0]) == Size(es[0]) by {
      StartsCons(ds, at);
      StartsCons(es, at);
      assert t == ([at] + t)[1..] && t' == ([at] + t')[1..];
    }
    FirstChild(ds[1..]);
    SameCut(ds[0].items, Children(ds[1..]), es[0].items, Children(es[1..]));
  }

  // ------------------------------------------------------------ the others are not

  /** Moving items without elements across a sample boundary changes neither the items in their order nor
      the start positions. */
  lemma {:induction false} MoveAcross(pre: seq<Data>, a: seq<Data>, b: seq<Data>, a': seq<Data>, b': seq<Data>,
                                     post: seq<Data>, at: int)
    requires AllLists(pre) && a + b == a' + b' && Sizes(a) == Sizes(a')
    ensures var ds, es := pre + [List(a), List(b)] + post, pre + [List(a'), List(b')] + post;
      Children(ds) == Children(es) && Starts(ds, at) == Starts(es, at)
    decreases |pre|
  {
    var ds, es := pre + [List(a), List(b)] + post, pre + [List(a'), List(b')] + post;
    if pre == [] {
      TwoHeads(a, b, post, at);
      TwoHeads(a', b', post, at);
      Assoc(a, b, Children(post));
      Assoc(a', b', Children(post));
      SizesConcat(a, b);
      SizesConcat(a', b');
      assert ds == [List(a), List(b)] + post && es == [List(a'), List(b')] + post;
    } else {
      assert ds[1..] == pre[1..] + [List(a), List(b)] + post && es[1..] == pre[1..] + [List(a'), List(b')] + post;
      MoveAcross(pre[1..], a, b, a', b', post, at + Size(pre[0]));
    }
  }

  lemma TwoHeads(a: seq<Data>, b: seq<Data>, post: seq<Data>, at: int)
    ensures var ds := [List(a), List(b)] + post;
      && Children(ds) == a + (b + Children(post))
      && Starts(ds, at) == [at] + ([at + Sizes(a)] + Starts(post, at + Sizes(a) + Sizes(b)))
  {
    var ds := [List(a), List(b)] + post;
    assert ds[1..] == [List(b)] + post && ds[1..][1..] == post;
    assert Size(List(a)) == Sizes(a) && Size(List(b)) == Sizes(b);
    assert Children(ds[1..]) == b + Children(post);
    assert Starts(ds[1..], at + Sizes(a)) == [at + Sizes(a)] + Starts(post, at + Sizes(a) + Sizes(b));
  }

  lemma SizesOne(d: Data)
    ensures Sizes([d]) == Size(d)
  {
    assert [d][1..] == [] && Sizes([]) == 0;
  }

  /** An empty item at the end of `a` or the beginning of `b` can go to the other side. */
  lemma MoveOne(a: seq<Data>, b: seq<Data>) returns (a': seq<Data>, b': seq<Data>)
    requires EndsEmpty(List(a)) || BeginsEmpty(List(b))
    ensures a' + b' == a + b && Sizes(a') == Sizes(a) && |a'| != |a|
  {
    if EndsEmpty(List(a)) {
      var n := |a| - 1;
      a', b' := a[..n], [a[n]] + b;
      assert a == a[..n] + [a[n]];
      SizesConcat(a[..n], [a[n]]);
      SizesOne(a[n]);
      Assoc(a[..n], [a[n]], b);
    } else {
      a', b' := a + [b[0]], b[1..];
      assert b == [b[0]] + b[1..];
      SizesConcat(a, [b[0]]);
      SizesOne(b[0]);
      Assoc(a, [b[0]], b[1..]);
    }
  }

  lemma SplitAt(ds: seq<Data>, j: nat)
    requires j + 1 < |ds| && ds[j].List? && ds[j + 1].List?
    ensures ds == ds[..j] + [List(ds[j].items), List(ds[j + 1].items)] + ds[j + 2..]
  {}

  lemma FitConcat(s: Scanner, a: seq<Data>, b: seq<Data>)
    ensures AllFit(s, a + b) <==> AllFit(s, a) && AllFit(s, b)
  {
    forall i | 0 <= i < |b| ensures b[i] == (a + b)[|a| + i] {}
    forall i | 0 <= i < |a| ensures a[i] == (a + b)[i] {}
  }

  /** The same items and start positions in another batch, if an empty item touches a sample boundary. */
  lemma Regrouped(s: Scanner, ds: seq<Data>) returns (es: seq<Data>)
    requires s.Sequence? && AllFit(s, ds) && !Crisp(ds)
    ensures es != ds && AllFit(s, es) && Children(es) == Children(ds) && Starts(es, 0) == Starts(ds, 0)
  {
    var j := Boundary(ds);
    assert Fits(s, ds[j]) && Fits(s, ds[j + 1]);
    var a, b := ds[j].items, ds[j + 1].items;
    var a', b' := MoveOne(a, b);
    es := ds[..j] + [List(a'), List(b')] + ds[j + 2..];
    assert es[j] == List(a') && es != ds;
    assert Children(es) == Children(ds) && Starts(es, 0) == Starts(ds, 0) by {
      SplitAt(ds, j);
      MoveAcross(ds[..j], a, b, a', b', ds[j + 2..], 0);
    }
    assert AllFit(s, es) by {
      FitConcat(s.inner, a, b);
      FitConcat(s.inner, a', b');
      RegroupedFits(s, ds, j, a', b');
    }
  }

  lemma Boundary(ds: seq<Data>) returns (j: nat)
    requires !Crisp(ds)
    ensures j + 1 < |ds| && (EndsEmpty(ds[j]) || BeginsEmpty(ds[j + 1]))
  {
    if i :| 0 <= i < |ds| - 1 && EndsEmpty(ds[i]) {
      j := i;
    } else {
      var i :| 1 <= i < |ds| && BeginsEmpty(ds[i]);
      j := i - 1;
    }
  }

  lemma RegroupedFits(s: Scanner, ds: seq<Data>, j: nat, a: seq<Data>, b: seq<Data>)
    requires s.Sequence? && AllFit(s, ds) && j + 1 < |ds| && AllFit(s.inner, a) && AllFit(s.inner, b)
    ensures AllFit(s, ds[..j] + [List(a), List(b)] + ds[j + 2..])
  {}

  // ------------------------------------------------------------------- main results

  /** A slot of ids, sparse rows or flat sequences is always determined by its image. */
  lemma FlatImageDetermines(s: Scanner, ds: seq<Data>, es: seq<Data>)
    requires Fresh(s) && (s.Sequence? ==> !s.inner.Sequence?) && AllFit(s, ds) && AllFit(s, es)
    ensures Convert(s, ds) == Convert(s, es) <==> ds == es
  {
    FlatIsSolid(s, ds);
    FlatIsSolid(s, es);
    ConvertRoundTrip(s, ds);
    ConvertRoundTrip(s, es);
  }

  lemma FlatIsSolid(s: Scanner, ds: seq<Data>)
    requires (s.Sequence? ==> !s.inner.Sequence?) && AllFit(s, ds)
    ensures forall i | 0 <= i < |ds| :: SolidInside(ds[i])
  {
    forall i | 0 <= i < |ds| ensures SolidInside(ds[i]) { assert Fits(s, ds[i]); }
  }

  /** Two batches of a nested slot have the same image if and only if they have the same sub-sequences in
      the same order and the same sample sizes. */
  lemma SameImage(leaf: Scanner, ds: seq<Data>, es: seq<Data>)
    requires !leaf.Sequence? && Fresh(leaf)
    requires AllFit(Sequence([0], Sequence([0], leaf)), ds) && AllFit(Sequence([0], Sequence([0], leaf)), es)
    ensures var s := Sequence([0], Sequence([0], leaf));
      Convert(s, ds) == Convert(s, es) <==> Children(ds) == Children(es) && Starts(ds, 0) == Starts(es, 0)
  {
    var inner := Sequence([0], leaf);
    ConvertSequence(inner, ds);
    ConvertSequence(inner, es);
    SizesChildren(Sequence([0], inner), ds);
    SizesChildren(Sequence([0], inner), es);
    FlatImageDetermines(inner, Children(ds), Children(es));
  }

  /** The exact condition, whatever the decoder: the image of a nested slot determines the batch if and only
      if no empty sub-sequence touches a boundary between two samples. */
  lemma ImageDetermines(leaf: Scanner, ds: seq<Data>)
    requires !leaf.Sequence? && Fresh(leaf) && AllFit(Sequence([0], Sequence([0], leaf)), ds)
    ensures var s := Sequence([0], Sequence([0], leaf));
      (forall es | AllFit(s, es) && Convert(s, es) == Convert(s, ds) :: es == ds) <==> Crisp(ds)
  {
    var s := Sequence([0], Sequence([0], leaf));
    if Crisp(ds) {
      forall es | AllFit(s, es) && Convert(s, es) == Convert(s, ds) ensures es == ds {
        SameImage(leaf, ds, es);
        CrispDetermined(ds, es, 0);
      }
    } else {
      var es := Regrouped(s, ds);
      SameImage(leaf, ds, es);
      assert AllFit(s, es) && Convert(s, es) == Convert(s, ds) && es != ds;
    }
  }

  /** The smallest failing pair: an empty sub-sequence at the end of one sample or the beginning of the next. */
  lemma EmptyInnerIsAmbiguous(x: Data, y: Data)
    requires x.Id? && y.Id?
    ensures var s := Sequence([0], Sequence([0], Index([], 0)));
      var ds, es := [List([List([x]), List([])]), List([List([y])])], [List([List([x])]), List([List([]), List([y])])];
      ds != es && AllFit(s, ds) && AllFit(s, es) && Convert(s, ds) == Convert(s, es) && !Crisp(ds) && !Crisp(es)
  {
    var one, two, none := List([x]), List([y]), List([]);
    var ds, es := [List([one, none]), List([two])], [List([one]), List([none, two])];
    assert [one, none] == [one] + [none] && Sizes([one, none]) == Sizes([one]) by {
      SizesConcat([one], [none]);
      SizesOne(none);
    }
    MoveAcross([], [one, none], [two], [one], [none, two], [], 0);
    assert ds == [] + ds + [] && es == [] + es + [];
    var inner := Sequence([0], Index([], 0));
    assert Fits(inner, one) && Fits(inner, two) && Fits(inner, none);
    var s := Sequence([0], inner);
    assert Fits(s, ds[0]) && Fits(s, ds[1]) && Fits(s, es[0]) && Fits(s, es[1]);
    SameImage(Index([], 0), ds, es);
    assert EndsEmpty(ds[0]) && BeginsEmpty(es[1]) && ds[0].items != es[0].items;
  }

  // ----------------------------------------------------------- the same, seen in the positions

  /** Sub-sequence `c` is empty and starts where sample `k`, not the first, starts. */
  predicate EmptyAtBoundary(ds: seq<Data>, k: nat, c: nat) {
    && 0 < k < |ds| == |Starts(ds, 0)| - 1 && c < |Children(ds)| == |Starts(Children(ds), 0)| - 1
    && Size(Children(ds)[c]) == 0 && Starts(Children(ds), 0)[c] == Starts(ds, 0)[k]
  }

  lemma {:induction false} StartsAt(ds: seq<Data>, at: int, k: nat)
    requires k <= |ds|
    ensures |Starts(ds, at)| == |ds| + 1 && Starts(ds, at)[k] == at + Sizes(ds[..k])
  {
    StartsAscend(ds, at);
    if k > 0 {
      StartsAt(ds[1..], at + Size(ds[0]), k - 1);
      assert ds[..k][1..] == ds[1..][..k - 1];
    }
  }

  lemma {:induction false} ChildrenConcat(a: seq<Data>, b: seq<Data>)
    ensures Children(a + b) == Children(a) + Children(b)
    decreases |a|
  {
    if a == [] {
      assert a + b == b;
    } else {
      assert (a + b)[1..] == a[1..] + b;
      ChildrenConcat(a[1..], b);
    }
  }

  lemma {:induction false} LastChild(ds: seq<Data>)
    requires AllLists(ds) && forall j | 0 <= j < |ds| :: !EndsEmpty(ds[j])
    ensures Solid(Children(ds))
  {
    if ds != [] { LastChild(ds[1..]); }
  }

  /** Sub-sequences before sample `k`, and from it on. */
  lemma SplitChildren(s: Scanner, ds: seq<Data>, k: nat)
    requires s.Sequence? && AllFit(s, ds) && k <= |ds|
    ensures Children(ds) == Children(ds[..k]) + Children(ds[k..]) && Sizes(Children(ds[..k])) == Sizes(ds[..k])
  {
    assert ds == ds[..k] + ds[k..];
    ChildrenConcat(ds[..k], ds[k..]);
    SizesChildren(s, ds[..k]);
  }

  /** An empty item at size offset `Sizes(p)` of `p + q` is a reason for `p` to end or `q` to begin with one. */
  lemma EmptyBeside(p: seq<Data>, q: seq<Data>, c: nat)
    requires c < |p + q| && Size((p + q)[c]) == 0 && Sizes((p + q)[..c]) == Sizes(p)
    ensures !Solid(p) || (q != [] && Size(q[0]) == 0)
  {
    if c < |p| {
      assert (p + q)[..c] == p[..c] && p == p[..c] + p[c..];
      SizesConcat(p[..c], p[c..]);
      SizesHasLast(p[c..]);
    } else {
      var r := q[..c - |p|];
      assert (p + q)[..c] == p + r;
      SizesConcat(p, r);
      if r != [] { assert Sizes(r) == Size(r[0]) + Sizes(r[1..]); }
    }
  }

  lemma CrispHasNone(s: Scanner, ds: seq<Data>, k: nat, c: nat)
    requires s.Sequence? && AllFit(s, ds) && Crisp(ds)
    ensures !EmptyAtBoundary(ds, k, c)
  {
    if EmptyAtBoundary(ds, k, c) {
      var p, q := Children(ds[..k]), Children(ds[k..]);
      assert Solid(p) by { LastChild(ds[..k]); }
      assert q == [] || Size(q[0]) > 0 by { FirstChild(ds[k..]); }
      assert Children(ds) == p + q && Sizes(Children(ds)[..c]) == Sizes(p) by {
        SplitChildren(s, ds, k);
        PositionsOf(ds, k, c);
      }
      EmptyBeside(p, q, c);
    }
  }

  /** The condition in terms of the start positions alone. */
  lemma CrispIsPositional(s: Scanner, ds: seq<Data>)
    requires s.Sequence? && AllFit(s, ds)
    ensures Crisp(ds) <==> forall k: nat, c: nat :: !EmptyAtBoundary(ds, k, c)
  {
    if Crisp(ds) {
      forall k: nat, c: nat ensures !EmptyAtBoundary(ds, k, c) { CrispHasNone(s, ds, k, c); }
    } else {
      var j := Boundary(ds);
      var c := BoundaryChild(s, ds, j);
      assert EmptyAtBoundary(ds, j + 1, c);
    }
  }

  lemma BoundaryChild(s: Scanner, ds: seq<Data>, j: nat) returns (c: nat)
    requires s.Sequence? && AllFit(s, ds) && j + 1 < |ds| && (EndsEmpty(ds[j]) || BeginsEmpty(ds[j + 1]))
    ensures EmptyAtBoundary(ds, j + 1, c)
  {
    var p, q := Children(ds[..j + 1]), Children(ds[j + 1..]);
    assert Children(ds) == p + q && Sizes(p) == Sizes(ds[..j + 1]) by { SplitChildren(s, ds, j + 1); }
    if EndsEmpty(ds[j]) {
      assert !Solid(p) by { LastOfPrefix(ds, j); }
      c := |p| - 1;
      LastEmpty(p, q);
    } else {
      c := |p|;
      assert (p + q)[..c] == p && (p + q)[c] == q[0];
    }
    PositionsOf(ds, j + 1, c);
  }

  lemma LastOfPrefix(ds: seq<Data>, j: nat)
    requires j < |ds| && EndsEmpty(ds[j])
    ensures !Solid(Children(ds[..j + 1]))
  {
    assert ds[..j + 1] == ds[..j] + [ds[j]];
    ChildrenConcat(ds[..j], [ds[j]]);
    ChildrenOne(ds[j]);
  }

  lemma LastEmpty(p: seq<Data>, q: seq<Data>)
    requires !Solid(p)
    ensures var c := |p| - 1; Size((p + q)[c]) == 0 && Sizes((p + q)[..c]) == Sizes(p)
  {
    var c := |p| - 1;
    assert p == p[..c] + [p[c]] && (p + q)[..c] == p[..c] && (p + q)[c] == p[c];
    SizesConcat(p[..c], [p[c]]);
    SizesOne(p[c]);
  }

  /** Where the two position lists hold these sizes. */
  lemma PositionsOf(ds: seq<Data>, k: nat, c: nat)
    requires k <= |ds| && c <= |Children(ds)|
    ensures |Starts(ds, 0)| == |ds| + 1 && |Starts(Children(ds), 0)| == |Children(ds)| + 1
    ensures Starts(ds, 0)[k] == Sizes(ds[..k]) && Starts(Children(ds), 0)[c] == Sizes(Children(ds)[..c])
  {
    StartsAt(ds, 0, k);
    StartsAt(Children(ds), 0, c);
  }
}
