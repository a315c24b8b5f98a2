/** The two-pass conversion of a batch column into flat data with start positions
    (paddle/py_paddle/dataprovider_converter.py): scanner values, what each pass does to them, and why
    the input can be read back from the result. */
module Converter {
  import opened Common


  /** A sample of one slot: an id, a sparse row without or with values, or a sequence of samples. */
  datatype Data = Id(v: int) | Columns(cs: seq<int>) | Pairs(ps: seq<(int, int)>) | List(items: seq<Data>)

  datatype Scanner =
    | Index(ids: seq<int>, idx: nat)
    | Sparse(withValues: bool, rows: seq<int>, cols: seq<int>, values: seq<int>, height: nat)
    | Sequence(starts: seq<int>, inner: Scanner)

  /** The data has the shape the scanner was created for; the source raises an error otherwise. */
  predicate Fits(s: Scanner, d: Data) {
    match s
    case Index(_, _) => d.Id?
    case Sparse(v, _, _, _, _) => if v then d.Pairs? else d.Columns?
    case Sequence(_, inner) => d.List? && forall i | 0 <= i < |d.items| :: Fits(inner, d.items[i])
  }

  predicate AllFit(s: Scanner, ds: seq<Data>) { forall i | 0 <= i < |ds| :: Fits(s, ds[i]) }

  /** create_scanner: fresh scanners for the three sequence types. */
  predicate Fresh(s: Scanner) {
    match s
    case Index(ids, idx) => ids == [] && idx == 0
    case Sparse(_, rows, cols, values, height) => rows == [0] && cols == [] && values == [] && height == 0
    case Sequence(starts, inner) => starts == [0] && Fresh(inner)
  }

  /** Number of innermost elements. */
  function Size(d: Data): nat
    decreases d, 0
  {
    if d.List? then Sizes(d.items) else 1
  }

  function Sizes(ds: seq<Data>): nat
    decreases ds, 1
  {
    if ds == [] then 0 else Size(ds[0]) + Sizes(ds[1..])
  }

  /** get_size: the sequence's length, or the sum of what the nested scanner says of its items. */
  function GetSize(s: Scanner, d: Data): nat
    decreases d, 0
  {
    if !s.Sequence? || !d.List? then 1
    else if s.inner.Sequence? then SumSizes(s.inner, d.items) else |d.items|
  }

  function SumSizes(s: Scanner, ds: seq<Data>): nat
    decreases ds, 1
  {
    if ds == [] then 0 else GetSize(s, ds[0]) + SumSizes(s, ds[1..])
  }

  // ------------------------------------------------------------------- the two passes

  function Pre(s: Scanner, d: Data): Scanner
    decreases d, 0
  {
    match s
    case Index(_, idx) => s.(idx := idx + 1)
    case Sparse(_, _, _, _, _) => s
    case Sequence(_, inner) => if d.List? then s.(inner := PreAll(inner, d.items)) else s
  }

  function PreAll(s: Scanner, ds: seq<Data>): Scanner
    decreases ds, 1
  {
    if ds == [] then s else PreAll(Pre(s, ds[0]), ds[1..])
  }

  function Finish(s: Scanner): Scanner {
    match s
    case Index(_, idx) => Index(seq(idx, _ => 0), 0)
    case Sparse(_, _, _, _, _) => s
    case Sequence(_, inner) => s.(inner := Finish(inner))
  }

  function Firsts(ps: seq<(int, int)>): (r: seq<int>)
    ensures |r| == |ps| && forall i | 0 <= i < |ps| :: r[i] == ps[i].0
  {
    seq(|ps|, i requires 0 <= i < |ps| => ps[i].0)
  }

  function Seconds(ps: seq<(int, int)>): (r: seq<int>)
    ensures |r| == |ps| && forall i | 0 <= i < |ps| :: r[i] == ps[i].1
  {
    seq(|ps|, i requires 0 <= i < |ps| => ps[i].1)
  }

  /** One sample in the second pass. An id without a slot reserved for it, or data of another shape, is
      an error in the source; the methods below never get there. */
  function Scan(s: Scanner, d: Data): Scanner
    decreases d, 0
  {
    match s
    case Index(ids, idx) => if d.Id? && idx < |ids| then Index(ids[idx := d.v], idx + 1) else s
    case Sparse(v, rows, cols, values, height) =>
      if v && d.Pairs? then
        Sparse(v, rows + [|cols| + |d.ps|], cols + Firsts(d.ps), values + Seconds(d.ps), height + 1)
      else if !v && d.Columns? then Sparse(v, rows + [|cols| + |d.cs|], cols + d.cs, values, height + 1)
      else s
    case Sequence(starts, inner) =>
      if d.List? && starts != [] then
        Sequence(starts + [starts[|starts| - 1] + GetSize(s, d)], ScanAll(inner, d.items))
      else s
  }

  function ScanAll(s: Scanner, ds: seq<Data>): Scanner
    decreases ds, 1
  {
    if ds == [] then s else ScanAll(Scan(s, ds[0]), ds[1..])
  }

  function Convert(s: Scanner, ds: seq<Data>): Scanner { ScanAll(Finish(PreAll(s, ds)), ds) }

  /** The second pass has a reserved slot for every id still to come. */
  predicate Reserved(s: Scanner, n: nat) {
    match s
    case Index(ids, idx) => idx + n <= |ids|
    case Sparse(_, _, _, _, _) => true
    case Sequence(starts, inner) => starts != [] && Reserved(inner, n)
  }

  // ------------------------------------------------------------------ what comes out

  function Children(ds: seq<Data>): seq<Data> {
    if ds == [] then [] else (if ds[0].List? then ds[0].items else []) + Children(ds[1..])
  }

  /** Running totals of the sizes, starting at `at`. */
  function Starts(ds: seq<Data>, at: int): seq<int> {
    if ds == [] then [at] else [at] + Starts(ds[1..], at + Size(ds[0]))
  }

  lemma {:induction false} SizesConcat(a: seq<Data>, b: seq<Data>)
    ensures Sizes(a + b) == Sizes(a) + Sizes(b)
  {
    if a == [] {
      assert a + b == b;
    } else {
      assert (a + b)[1..] == a[1..] + b;
      SizesConcat(a[1..], b);
    }
  }

  lemma {:induction false} SizesChildren(s: Scanner, ds: seq<Data>)
    requires s.Sequence? && AllFit(s, ds)
    ensures Sizes(Children(ds)) == Sizes(ds) && AllFit(s.inner, Children(ds))
  {
    if ds != [] {
      SizesChildren(s, ds[1..]);
      SizesConcat(ds[0].items, Children(ds[1..]));
    }
  }

  lemma {:induction false} LeafSizes(s: Scanner, ds: seq<Data>)
    requires !s.Sequence? && AllFit(s, ds)
    ensures Sizes(ds) == |ds|
  {
    if ds != [] { LeafSizes(s, ds[1..]); }
  }

  lemma {:induction false} GetSizeIsSize(s: Scanner, d: Data)
    requires s.Sequence? && Fits(s, d)
    ensures GetSize(s, d) == Size(d)
    decreases d, 0
  {
    if s.inner.Sequence? { SumSizesIsSizes(s.inner, d.items); } else { LeafSizes(s.inner, d.items); }
  }

  lemma {:induction false} SumSizesIsSizes(s: Scanner, ds: seq<Data>)
    requires s.Sequence? && AllFit(s, ds)
    ensures SumSizes(s, ds) == Sizes(ds)
    decreases ds, 1
  {
    if ds != [] {
      GetSizeIsSize(s, ds[0]);
      SumSizesIsSizes(s, ds[1..]);
    }
  }

  lemma {:induction false} PreAllConcat(s: Scanner, a: seq<Data>, b: seq<Data>)
    ensures PreAll(s, a + b) == PreAll(PreAll(s, a), b)
    decreases |a|
  {
    if a == [] {
      assert a + b == b;
    } else {
      assert (a + b)[1..] == a[1..] + b;
      PreAllConcat(Pre(s, a[0]), a[1..], b);
    }
  }

  lemma {:induction false} ScanAllConcat(s: Scanner, a: seq<Data>, b: seq<Data>)
    ensures ScanAll(s, a + b) == ScanAll(ScanAll(s, a), b)
    decreases |a|
  {
    if a == [] {
      assert a + b == b;
    } else {
      assert (a + b)[1..] == a[1..] + b;
      ScanAllConcat(Scan(s, a[0]), a[1..], b);
    }
  }

  /** A sequence scanner's first pass is its inner scanner's first pass over all items. */
  lemma {:induction false} PreAllSequence(starts: seq<int>, inner: Scanner, ds: seq<Data>)
    requires forall i | 0 <= i < |ds| :: ds[i].List?
    ensures PreAll(Sequence(starts, inner), ds) == Sequence(starts, PreAll(inner, Children(ds)))
    decreases |ds|
  {
    if ds != [] {
      PreAllSequence(starts, PreAll(inner, ds[0].items), ds[1..]);
      PreAllConcat(inner, ds[0].items, Children(ds[1..]));
    }
  }

  /** Its second pass appends the running totals and is otherwise the inner scanner's second pass. */
  lemma {:induction false} ScanAllSequence(starts: seq<int>, inner: Scanner, ds: seq<Data>)
    requires starts != [] && AllFit(Sequence(starts, inner), ds)
    ensures ScanAll(Sequence(starts, inner), ds)
         == Sequence(starts[..|starts| - 1] + Starts(ds, starts[|starts| - 1]), ScanAll(inner, Children(ds)))
    decreases |ds|
  {
    var n := |starts| - 1;
    if ds == [] {
      assert starts[..n] + [starts[n]] == starts;
    } else {
      var s := Sequence(starts, inner);
      var starts', inner' := starts + [starts[n] + Size(ds[0])], ScanAll(inner, ds[0].items);
      assert Scan(s, ds[0]) == Sequence(starts', inner') by { GetSizeIsSize(s, ds[0]); }
      assert AllFit(Sequence(starts', inner'), ds[1..]) by {
        ScanKeepsShape(inner, ds[0].items);
        forall i | 0 <= i < |ds[1..]| ensures Fits(Sequence(starts', inner'), ds[1..][i]) {
          SameShapeFits(s, Sequence(starts', inner'), ds[i + 1]);
        }
      }
      ScanAllSequence(starts', inner', ds[1..]);
      assert ScanAll(inner', Children(ds[1..])) == ScanAll(inner, Children(ds)) by {
        ScanAllConcat(inner, ds[0].items, Children(ds[1..]));
      }
      StartsSlide(starts, starts[n] + Size(ds[0]), Starts(ds[1..], starts[n] + Size(ds[0])));
      assert Starts(ds, starts[n]) == [starts[n]] + Starts(ds[1..], starts[n] + Size(ds[0]));
    }
  }

  lemma StartsSlide(starts: seq<int>, x: int, tail: seq<int>)
    requires starts != []
    ensures var n := |starts| - 1;
      (starts + [x])[..n + 1] + tail == starts[..n] + ([starts[n]] + tail) && (starts + [x])[n + 1] == x
  {}

  predicate SameShape(s: Scanner, r: Scanner) {
    match s
    case Index(_, _) => r.Index?
    case Sparse(v, _, _, _, _) => r.Sparse? && r.withValues == v
    case Sequence(_, inner) => r.Sequence? && SameShape(inner, r.inner)
  }

  lemma {:induction false} SameShapeFits(s: Scanner, r: Scanner, d: Data)
    requires SameShape(s, r)
    ensures Fits(s, d) <==> Fits(r, d)
    decreases s
  {
    if s.Sequence? && d.List? {
      forall i | 0 <= i < |d.items| ensures Fits(s.inner, d.items[i]) <==> Fits(r.inner, d.items[i]) {
        SameShapeFits(s.inner, r.inner, d.items[i]);
      }
    }
  }

  lemma {:induction false} SameShapeTrans(a: Scanner, b: Scanner, c: Scanner)
    requires SameShape(a, b) && SameShape(b, c)
    ensures SameShape(a, c)
    decreases a
  {
    if a.Sequence? { SameShapeTrans(a.inner, b.inner, c.inner); }
  }

  lemma {:induction false} SameShapeSelf(s: Scanner)
    ensures SameShape(s, s)
  {
    if s.Sequence? { SameShapeSelf(s.inner); }
  }

  lemma {:induction false} ScanKeepsShape(s: Scanner, ds: seq<Data>)
    ensures SameShape(s, ScanAll(s, ds))
    decreases ds, 1
  {
    SameShapeSelf(s);
    if ds != [] {
      if s.Sequence? {
        SameShapeSelf(s.inner);
        if ds[0].List? { ScanKeepsShape(s.inner, ds[0].items); }
      }
      ScanKeepsShape(Scan(s, ds[0]), ds[1..]);
      SameShapeTrans(s, Scan(s, ds[0]), ScanAll(s, ds));
    }
  }

  /** Conversion peels off one level: the start positions are the running totals of the sizes, and the
      inner scanner converts the concatenation of the items. */
  lemma ConvertSequence(inner: Scanner, ds: seq<Data>)
    requires AllFit(Sequence([0], inner), ds)
    ensures Convert(Sequence([0], inner), ds) == Sequence(Starts(ds, 0), Convert(inner, Children(ds)))
  {
    PreAllSequence([0], inner, ds);
    var f := Finish(PreAll(inner, Children(ds)));
    FinishKeepsShape(inner, Children(ds));
    forall i | 0 <= i < |ds| ensures Fits(Sequence([0], f), ds[i]) {
      SameShapeFits(Sequence([0], inner), Sequence([0], f), ds[i]);
    }
    ScanAllSequence([0], f, ds);
  }

  lemma FinishKeepsShape(s: Scanner, ds: seq<Data>)
    ensures SameShape(s, Finish(PreAll(s, ds)))
  {
    PreKeepsShape(s, ds);
    FinishShape(PreAll(s, ds));
    SameShapeTrans(s, PreAll(s, ds), Finish(PreAll(s, ds)));
  }

  lemma {:induction false} FinishShape(s: Scanner)
    ensures SameShape(s, Finish(s))
  {
    if s.Sequence? { FinishShape(s.inner); }
  }

  lemma {:induction false} PreKeepsShape(s: Scanner, ds: seq<Data>)
    ensures SameShape(s, PreAll(s, ds))
    decreases ds, 1
  {
    SameShapeSelf(s);
    if ds != [] {
      if s.Sequence? {
        SameShapeSelf(s.inner);
        if ds[0].List? { PreKeepsShape(s.inner, ds[0].items); }
      }
      PreKeepsShape(Pre(s, ds[0]), ds[1..]);
      SameShapeTrans(s, Pre(s, ds[0]), PreAll(s, ds));
    }
  }

  function Values(ds: seq<Data>): (r: seq<int>)
    requires forall i | 0 <= i < |ds| :: ds[i].Id?
    ensures |r| == |ds| && forall i | 0 <= i < |ds| :: r[i] == ds[i].v
  {
    seq(|ds|, i requires 0 <= i < |ds| => ds[i].v)
  }

  lemma {:induction false} PreAllIndex(ids: seq<int>, idx: nat, ds: seq<Data>)
    ensures PreAll(Index(ids, idx), ds) == Index(ids, idx + |ds|)
    decreases |ds|
  {
    if ds != [] { PreAllIndex(ids, idx + 1, ds[1..]); }
  }

  lemma {:induction false} ScanAllIndex(ids: seq<int>, idx: nat, ds: seq<Data>)
    requires idx + |ds| == |ids| && forall i | 0 <= i < |ds| :: ds[i].Id?
    ensures ScanAll(Index(ids, idx), ds) == Index(ids[..idx] + Values(ds), |ids|)
    decreases |ds|
  {
    if ds == [] {
      assert ids[..idx] + Values(ds) == ids;
    } else {
      ScanAllIndex(ids[idx := ds[0].v], idx + 1, ds[1..]);
      assert ids[idx := ds[0].v][..idx + 1] + Values(ds[1..]) == ids[..idx] + Values(ds);
    }
  }

  lemma ConvertIndex(ds: seq<Data>)
    requires forall i | 0 <= i < |ds| :: ds[i].Id?
    ensures Convert(Index([], 0), ds) == Index(Values(ds), |ds|)
  {
    PreAllIndex([], 0, ds);
    var zeros: seq<int> := seq(|ds|, _ => 0);
    ScanAllIndex(zeros, 0, ds);
    assert zeros[..0] + Values(ds) == Values(ds);
  }

  // ---------------------------------------------------------------- start positions

  /** Start positions begin at `at`, never decrease, and end at the total. */
  lemma {:induction false} StartsAscend(ds: seq<Data>, at: int)
    ensures var st := Starts(ds, at);
      && |st| == |ds| + 1 && st[0] == at && st[|ds|] == at + Sizes(ds)
      && forall i | 0 <= i < |ds| :: st[i + 1] == st[i] + Size(ds[i])
  {
    if ds != [] {
      StartsAscend(ds[1..], at + Size(ds[0]));
      var st, tail := Starts(ds, at), Starts(ds[1..], at + Size(ds[0]));
      forall i | 1 <= i < |ds| ensures st[i + 1] == st[i] + Size(ds[i]) {
        assert st[i] == tail[i - 1] && st[i + 1] == tail[i] && ds[i] == ds[1..][i - 1];
      }
    }
  }

  ghost predicate Occurs(st: seq<int>, x: int) { exists i | 0 <= i < |st| :: st[i] == x }

  lemma {:induction false} StartsConcat(a: seq<Data>, b: seq<Data>, at: int)
    ensures |Starts(a, at)| == |a| + 1 && Starts(a + b, at) == Starts(a, at)[..|a|] + Starts(b, at + Sizes(a))
    decreases |a|
  {
    if a == [] {
      assert a + b == b && Starts(a, at)[..0] == [];
    } else {
      assert (a + b)[1..] == a[1..] + b;
      StartsConcat(a[1..], b, at + Size(a[0]));
    }
  }

  /** Every outer start position is also an inner start position. */
  lemma {:induction false} OuterStartsAreInner(s: Scanner, ds: seq<Data>, at: int, i: nat)
    requires s.Sequence? && AllFit(s, ds) && i < |Starts(ds, at)|
    ensures Occurs(Starts(Children(ds), at), Starts(ds, at)[i])
    decreases |ds|
  {
    StartsAscend(Children(ds), at);
    if i == 0 {
      assert Starts(Children(ds), at)[0] == Starts(ds, at)[0];
    } else {
      var a, rest := ds[0].items, Children(ds[1..]);
      StartsConcat(a, rest, at);
      OuterStartsAreInner(s, ds[1..], at + Size(ds[0]), i - 1);
      var st := Starts(rest, at + Sizes(a));
      var j :| 0 <= j < |st| && st[j] == Starts(ds, at)[i];
      assert Starts(Children(ds), at)[|a| + j] == st[j];
    }
  }

  // ------------------------------------------------------------------- round trip

  function Slice(q: seq<int>, a: int, b: int): seq<int> { if 0 <= a <= b <= |q| then q[a..b] else [] }

  function Zip(a: seq<int>, b: seq<int>): seq<(int, int)> {
    seq(if |a| <= |b| then |a| else |b|, i requires 0 <= i < |a| && i < |b| => (a[i], b[i]))
  }

  /** How many of `ds` make up `n` innermost elements. */
  function TakeCount(ds: seq<Data>, n: int): (k: nat)
    ensures k <= |ds|
  {
    if n <= 0 || ds == [] then 0 else 1 + TakeCount(ds[1..], n - Size(ds[0]))
  }

  function Group(ds: seq<Data>, starts: seq<int>): seq<Data>
    decreases |starts|
  {
    if |starts| < 2 then []
    else
      var k := TakeCount(ds, starts[1] - starts[0]);
      [List(ds[..k])] + Group(ds[k..], starts[1..])
  }

  function SparseRow(s: Scanner, i: nat): Data
    requires s.Sparse? && i + 1 < |s.rows|
  {
    var cs := Slice(s.cols, s.rows[i], s.rows[i + 1]);
    if s.withValues then Pairs(Zip(cs, Slice(s.values, s.rows[i], s.rows[i + 1]))) else Columns(cs)
  }

  /** Reading a converted column back from flat data and start positions. */
  function Rebuild(s: Scanner): seq<Data> {
    match s
    case Index(ids, _) => seq(|ids|, i requires 0 <= i < |ids| => Id(ids[i]))
    case Sparse(_, rows, _, _, _) => seq(if rows == [] then 0 else |rows| - 1, i requires 0 <= i < |rows| - 1 => SparseRow(s, i))
    case Sequence(starts, inner) => Group(Rebuild(inner), starts)
  }

  /** An item list does not end in an empty sequence. */
  predicate Solid(items: seq<Data>) { items == [] || Size(items[|items| - 1]) > 0 }

  /** No sequence anywhere in `d` ends in an empty sequence. */
  predicate SolidInside(d: Data) {
    d.List? ==> Solid(d.items) && forall i | 0 <= i < |d.items| :: SolidInside(d.items[i])
  }

  lemma {:induction false} TakesAll(items: seq<Data>, rest: seq<Data>)
    requires Solid(items)
    ensures TakeCount(items + rest, Sizes(items)) == |items| && (items != [] ==> Sizes(items) > 0)
  {
    if items != [] {
      assert (items + rest)[1..] == items[1..] + rest;
      TakesAll(items[1..], rest);
    }
  }

  lemma {:induction false} TakesAtMost(items: seq<Data>, rest: seq<Data>)
    ensures TakeCount(items + rest, Sizes(items)) <= |items|
  {
    if items != [] {
      assert (items + rest)[1..] == items[1..] + rest;
      TakesAtMost(items[1..], rest);
    }
  }

  lemma LosesTrailingEmpty(items: seq<Data>, rest: seq<Data>)
    requires !Solid(items)
    ensures TakeCount(items + rest, Sizes(items)) < |items|
  {
    var n := |items| - 1;
    assert items == items[..n] + [items[n]] && [items[n]][1..] == [];
    assert Sizes([items[n]]) == Size(items[n]) + Sizes([]);
    SizesConcat(items[..n], [items[n]]);
    assert items + rest == items[..n] + ([items[n]] + rest);
    TakesAtMost(items[..n], [items[n]] + rest);
  }

  predicate AllSolid(ds: seq<Data>) { forall i | 0 <= i < |ds| :: ds[i].List? && Solid(ds[i].items) }

  lemma AllSolidSplit(ds: seq<Data>)
    requires ds != [] && ds[0].List?
    ensures AllSolid(ds) <==> Solid(ds[0].items) && AllSolid(ds[1..])
  {
    assert ds == [ds[0]] + ds[1..];
  }

  lemma ConsEqual(x: Data, a: seq<Data>, ds: seq<Data>)
    requires ds != []
    ensures [x] + a == ds <==> x == ds[0] && a == ds[1..]
  {
    assert ds == [ds[0]] + ds[1..];
    assert ([x] + a)[0] == x && ([x] + a)[1..] == a;
  }

  /** The first group is the first list if and only if that list does not end in an empty one. */
  lemma FirstRestored(items: seq<Data>, rest: seq<Data>)
    ensures var k := TakeCount(items + rest, Sizes(items));
      && ((items + rest)[..k] == items <==> Solid(items))
      && (Solid(items) ==> (items + rest)[k..] == rest)
  {
    if Solid(items) {
      TakesAll(items, rest);
    } else {
      LosesTrailingEmpty(items, rest);
    }
  }

  lemma GroupStep(ds: seq<Data>, at: int)
    requires ds != [] && ds[0].List?
    ensures Group(Children(ds), Starts(ds, at)) == ds <==>
      Solid(ds[0].items) && Group(Children(ds[1..]), Starts(ds[1..], at + Size(ds[0]))) == ds[1..]
  {
    var items, rest, tail := ds[0].items, Children(ds[1..]), Starts(ds[1..], at + Size(ds[0]));
    var k := TakeCount(items + rest, Sizes(items));
    var x, g := List((items + rest)[..k]), Group((items + rest)[k..], tail);
    assert Group(Children(ds), Starts(ds, at)) == [x] + g by {
      StartsCons(ds, at);
      GroupCons(items, rest, at, tail);
    }
    FirstRestored(items, rest);
    ConsEqual(x, g, ds);
  }

  /** Grouping by start positions gives the lists back if and only if none of them ends in an empty one. */
  lemma {:induction false} GroupRestores(ds: seq<Data>, at: int)
    requires forall i | 0 <= i < |ds| :: ds[i].List?
    ensures Group(Children(ds), Starts(ds, at)) == ds <==> AllSolid(ds)
    decreases |ds|
  {
    if ds != [] {
      GroupStep(ds, at);
      AllSolidSplit(ds);
      GroupRestores(ds[1..], at + Size(ds[0]));
    }
  }

  lemma GroupUnfolds(all: seq<Data>, starts: seq<int>)
    requires |starts| >= 2
    ensures var k := TakeCount(all, starts[1] - starts[0]);
      Group(all, starts) == [List(all[..k])] + Group(all[k..], starts[1..])
  {}

  lemma GroupCons(items: seq<Data>, rest: seq<Data>, at: int, tail: seq<int>)
    requires tail != [] && tail[0] == at + Sizes(items)
    ensures var all, k := items + rest, TakeCount(items + rest, Sizes(items));
      Group(all, [at] + tail) == [List(all[..k])] + Group(all[k..], tail)
  {
    GroupUnfolds(items + rest, [at] + tail);
    assert ([at] + tail)[1..] == tail;
  }

  lemma StartsCons(ds: seq<Data>, at: int)
    requires ds != []
    ensures var tail := Starts(ds[1..], at + Size(ds[0]));
      Starts(ds, at) == [at] + tail && tail != [] && tail[0] == at + Size(ds[0])
  {}

  lemma {:induction false} ChildrenInside(ds: seq<Data>)
    requires forall i | 0 <= i < |ds| :: ds[i].List? && SolidInside(ds[i])
    ensures forall i | 0 <= i < |Children(ds)| :: SolidInside(Children(ds)[i])
    decreases |ds|
  {
    if ds != [] { ChildrenInside(ds[1..]); }
  }

  /** The two-pass conversion loses nothing, at any nesting depth: from flat data and position lists the
      input is rebuilt, provided that no sequence ends in an empty one (so in particular when no inner
      sequence is empty). */
  lemma {:induction false} ConvertRoundTrip(s: Scanner, ds: seq<Data>)
    requires Fresh(s) && AllFit(s, ds) && forall i | 0 <= i < |ds| :: SolidInside(ds[i])
    ensures Rebuild(Convert(s, ds)) == ds
    decreases s
  {
    match s
    case Index(_, _) => ConvertIndex(ds);
    case Sparse(_, _, _, _, _) => SparseRoundTrip(s, ds);
    case Sequence(_, inner) =>
      ConvertSequence(inner, ds);
      SizesChildren(s, ds);
      ChildrenInside(ds);
      ConvertRoundTrip(inner, Children(ds));
      GroupRestores(ds, 0);
  }

  /** On the nested slots that the source creates, `Rebuild` gives an empty sub-sequence between two samples
      to the second of them: it restores the input if and only if no sample ends in an empty sub-sequence. */
  lemma SubSequenceRoundTrip(leaf: Scanner, ds: seq<Data>)
    requires !leaf.Sequence? && Fresh(leaf) && AllFit(Sequence([0], Sequence([0], leaf)), ds)
    ensures Rebuild(Convert(Sequence([0], Sequence([0], leaf)), ds)) == ds
      <==> AllSolid(ds)
  {
    var inner := Sequence([0], leaf);
    ConvertSequence(inner, ds);
    SizesChildren(Sequence([0], inner), ds);
    forall i | 0 <= i < |Children(ds)| ensures SolidInside(Children(ds)[i]) {
      assert Fits(inner, Children(ds)[i]);
    }
    ConvertRoundTrip(inner, Children(ds));
    GroupRestores(ds, 0);
  }

  // ------------------------------------------------------------------------ sparse

  function ColumnsOf(d: Data): seq<int> { if d.Pairs? then Firsts(d.ps) else if d.Columns? then d.cs else [] }

  function ValuesOf(d: Data): seq<int> { if d.Pairs? then Seconds(d.ps) else [] }

  /** Row `i` of the compressed rows is sample `i`. */
  predicate RowIs(s: Scanner, i: nat, d: Data)
    requires s.Sparse? && i + 1 < |s.rows|
  {
    && 0 <= s.rows[i] <= s.rows[i + 1] <= |s.cols|
    && s.cols[s.rows[i]..s.rows[i + 1]] == ColumnsOf(d)
    && (s.withValues ==> |s.values| == |s.cols| && s.values[s.rows[i]..s.rows[i + 1]] == ValuesOf(d))
  }

  predicate Encodes(s: Scanner, ds: seq<Data>) {
    && s.Sparse? && |s.rows| == |ds| + 1 && s.height == |ds| && s.rows[|ds|] == |s.cols|
    && (if s.withValues then |s.values| == |s.cols| else s.values == [])
    && forall i | 0 <= i < |ds| :: RowIs(s, i, ds[i])
  }

  lemma ScanEncodes(s: Scanner, ds: seq<Data>, d: Data)
    requires Encodes(s, ds) && Fits(s, d)
    ensures Encodes(Scan(s, d), ds + [d])
  {
    var s' := Scan(s, d);
    forall i | 0 <= i < |ds| ensures RowIs(s', i, (ds + [d])[i]) {
      assert RowIs(s, i, ds[i]);
      assert s'.cols[s.rows[i]..s.rows[i + 1]] == s.cols[s.rows[i]..s.rows[i + 1]];
      if s.withValues { assert s'.values[s.rows[i]..s.rows[i + 1]] == s.values[s.rows[i]..s.rows[i + 1]]; }
    }
    assert RowIs(s', |ds|, d);
  }

  lemma {:induction false} ScanAllEncodes(s: Scanner, done: seq<Data>, ds: seq<Data>)
    requires Encodes(s, done) && AllFit(s, ds)
    ensures Encodes(ScanAll(s, ds), done + ds)
    decreases |ds|
  {
    if ds == [] {
      assert done + ds == done;
    } else {
      ScanEncodes(s, done, ds[0]);
      ScanAllEncodes(Scan(s, ds[0]), done + [ds[0]], ds[1..]);
      assert done + [ds[0]] + ds[1..] == done + ds;
    }
  }

  lemma {:induction false} PreAllSparse(s: Scanner, ds: seq<Data>)
    requires s.Sparse?
    ensures PreAll(s, ds) == s
    decreases |ds|
  {
    if ds != [] { PreAllSparse(s, ds[1..]); }
  }

  function AllColumns(ds: seq<Data>): seq<int> { if ds == [] then [] else ColumnsOf(ds[0]) + AllColumns(ds[1..]) }

  function AllValues(ds: seq<Data>): seq<int> { if ds == [] then [] else ValuesOf(ds[0]) + AllValues(ds[1..]) }

  lemma {:induction false} ScanAllContents(s: Scanner, ds: seq<Data>)
    requires s.Sparse? && AllFit(s, ds)
    ensures var r := ScanAll(s, ds);
      && r.Sparse? && r.cols == s.cols + AllColumns(ds) && r.height == s.height + |ds|
      && r.values == s.values + (if s.withValues then AllValues(ds) else [])
    decreases |ds|
  {
    if ds == [] {
      assert s.cols + [] == s.cols && s.values + [] == s.values;
    } else {
      var s' := Scan(s, ds[0]);
      assert Fits(s, ds[0]);
      assert forall i | 0 <= i < |ds[1..]| :: Fits(s', ds[1..][i]) <==> Fits(s, ds[i + 1]);
      ScanAllContents(s', ds[1..]);
      Assoc(s.cols, ColumnsOf(ds[0]), AllColumns(ds[1..]));
      if s.withValues { Assoc(s.values, ValuesOf(ds[0]), AllValues(ds[1..])); }
    }
  }

  /** A sparse slot holds the columns of all samples in order, and their values if it has values, and none if not. */
  lemma SparseContents(s: Scanner, ds: seq<Data>)
    requires s.Sparse? && Fresh(s) && AllFit(s, ds)
    ensures var r := Convert(s, ds);
      && r.Sparse? && r.cols == AllColumns(ds) && r.height == |ds|
      && r.values == (if s.withValues then AllValues(ds) else [])
  {
    PreAllSparse(s, ds);
    ScanAllContents(s, ds);
    assert [] + AllColumns(ds) == AllColumns(ds) && [] + AllValues(ds) == AllValues(ds);
  }

  /** Rows, columns and values rebuild each sparse sample exactly, empty rows included. */
  lemma SparseRoundTrip(s: Scanner, ds: seq<Data>)
    requires s.Sparse? && Fresh(s) && AllFit(s, ds)
    ensures Encodes(Convert(s, ds), ds) && Rebuild(Convert(s, ds)) == ds
  {
    var r := Convert(s, ds);
    assert Encodes(r, ds) by {
      PreAllSparse(s, ds);
      ScanAllEncodes(s, [], ds);
      assert [] + ds == ds;
    }
    assert r.withValues == s.withValues by { PreAllSparse(s, ds); ScanKeepsShape(s, ds); }
    forall i | 0 <= i < |ds| ensures SparseRow(r, i) == ds[i] { RowRebuilds(s, r, i, ds[i]); }
  }

  lemma RowRebuilds(s: Scanner, r: Scanner, i: nat, d: Data)
    requires s.Sparse? && Fits(s, d) && r.Sparse? && r.withValues == s.withValues && i + 1 < |r.rows| && RowIs(r, i, d)
    ensures SparseRow(r, i) == d
  {
    if r.withValues { assert Zip(ColumnsOf(d), ValuesOf(d)) == d.ps; }
  }
}
