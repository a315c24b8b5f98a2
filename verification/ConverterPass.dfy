/** The scanners as objects (paddle/py_paddle/dataprovider_converter.py): nested scanners that are updated in
    place while a column is walked twice. */
module ConverterPass {
  import opened Common
  import opened Converter

  lemma {:induction false} ScanReserves(s: Scanner, d: Data, n: nat)
    requires Fits(s, d) && Reserved(s, Size(d) + n)
    ensures Reserved(Scan(s, d), n)
    decreases d, 0
  {
    if s.Sequence? { ScanAllReserves(s.inner, d.items, n); }
  }

  lemma {:induction false} ScanAllReserves(s: Scanner, ds: seq<Data>, n: nat)
    requires AllFit(s, ds) && Reserved(s, Sizes(ds) + n)
    ensures Reserved(ScanAll(s, ds), n)
    decreases ds, 1
  {
    if ds != [] {
      ScanReserves(s, ds[0], Sizes(ds[1..]) + n);
      ScanFits(s, ds[0], ds[1..]);
      ScanAllReserves(Scan(s, ds[0]), ds[1..], n);
    }
  }

  lemma ScanFits(s: Scanner, d: Data, ds: seq<Data>)
    requires AllFit(s, ds)
    ensures AllFit(Scan(s, d), ds)
  {
    ScanKeepsShape(s, [d]);
    assert [d][1..] == [];
    assert ScanAll(s, [d]) == Scan(s, d);
    forall i | 0 <= i < |ds| ensures Fits(Scan(s, d), ds[i]) { SameShapeFits(s, Scan(s, d), ds[i]); }
  }

  lemma PreFits(s: Scanner, d: Data, ds: seq<Data>)
    requires AllFit(s, ds)
    ensures AllFit(Pre(s, d), ds)
  {
    PreKeepsShape(s, [d]);
    assert [d][1..] == [];
    assert PreAll(s, [d]) == Pre(s, d);
    forall i | 0 <= i < |ds| ensures Fits(Pre(s, d), ds[i]) { SameShapeFits(s, Pre(s, d), ds[i]); }
  }

  lemma {:induction false} ReservedMono(s: Scanner, n: nat, m: nat)
    requires Reserved(s, n) && m <= n
    ensures Reserved(s, m)
  {
    if s.Sequence? { ReservedMono(s.inner, n, m); }
  }

  /** The first pass reserves exactly what the second pass will write. */
  lemma {:induction false} FinishReserves(s: Scanner, ds: seq<Data>)
    requires Fresh(s) && AllFit(s, ds)
    ensures Reserved(Finish(PreAll(s, ds)), Sizes(ds)) && AllFit(Finish(PreAll(s, ds)), ds)
    decreases s
  {
    FinishKeepsShape(s, ds);
    forall i | 0 <= i < |ds| ensures Fits(Finish(PreAll(s, ds)), ds[i]) {
      SameShapeFits(s, Finish(PreAll(s, ds)), ds[i]);
    }
    match s
    case Index(_, _) =>
      PreAllIndex([], 0, ds);
      LeafSizes(s, ds);
    case Sparse(_, _, _, _, _) => PreAllSparse(s, ds);
    case Sequence(starts, inner) =>
      PreAllSequence(starts, inner, ds);
      SizesChildren(s, ds);
      FinishReserves(inner, Children(ds));
  }

  datatype Kind = IndexKind | SparseKind(withValues: bool) | SequenceKind

  class ScannerObject {
    const kind: Kind
    const inner: ScannerObject?
    ghost const depth: nat
    ghost const repr: set<ScannerObject>
    var ids: seq<int>
    var idx: nat
    var rows: seq<int>
    var cols: seq<int>
    var values: seq<int>
    var height: nat
    var starts: seq<int>

    ghost predicate Valid()
      decreases depth
    {
      if kind.SequenceKind?
      then inner != null && inner.depth < depth && this !in inner.repr && repr == {this} + inner.repr && inner.Valid()
      else repr == {this}
    }

    ghost function View(): Scanner
      requires Valid()
      reads repr
      decreases depth
    {
      match kind
      case IndexKind => Index(ids, idx)
      case SparseKind(v) => Sparse(v, rows, cols, values, height)
      case SequenceKind => Sequence(starts, inner.View())
    }

    constructor Leaf(withValues: Option<bool>)
      ensures Valid() && Fresh(View()) && fresh(repr) && !View().Sequence?
    {
      kind := match withValues case None => IndexKind case Some(v) => SparseKind(v);
      inner := null;
      depth := 0;
      repr := {this};
      ids, idx, rows, cols, values, height, starts := [], 0, [0], [], [], 0, [0];
    }

    constructor Nest(inner: ScannerObject)
      requires inner.Valid()
      ensures Valid() && View() == Sequence([0], inner.View()) && fresh(repr - inner.repr)
    {
      kind := SequenceKind;
      this.inner := inner;
      depth := inner.depth + 1;
      repr := {this} + inner.repr;
      ids, idx, rows, cols, values, height, starts := [], 0, [0], [], [], 0, [0];
    }

    method PreScan(d: Data)
      requires Valid() && Fits(View(), d)
      modifies repr
      ensures View() == Pre(old(View()), d)
      decreases depth
    {
      match kind
      case IndexKind => idx := idx + 1;
      case SparseKind(_) =>
      case SequenceKind =>
        for i := 0 to |d.items|
          invariant starts == old(starts)
          invariant AllFit(inner.View(), d.items[i..])
          invariant PreAll(old(inner.View()), d.items) == PreAll(inner.View(), d.items[i..])
        {
          assert d.items[i..][0] == d.items[i] && d.items[i..][1..] == d.items[i + 1..];
          PreFits(inner.View(), d.items[i], d.items[i + 1..]);
          inner.PreScan(d.items[i]);
        }
    }

    method FinishPreScan()
      requires Valid()
      modifies repr
      ensures View() == Finish(old(View()))
      decreases depth
    {
      match kind
      case IndexKind =>
        ids := seq(idx, _ => 0);
        idx := 0;
      case SparseKind(_) =>
      case SequenceKind => inner.FinishPreScan();
    }

    method Measure(d: Data) returns (n: nat)
      requires Valid() && Fits(View(), d) && kind.SequenceKind?
      ensures n == GetSize(View(), d)
      decreases depth
    {
      if !inner.kind.SequenceKind? { return |d.items|; }
      n := 0;
      for i := 0 to |d.items|
        invariant AllFit(inner.View(), d.items[i..])
        invariant n + SumSizes(inner.View(), d.items[i..]) == SumSizes(inner.View(), d.items)
      {
        assert d.items[i..][0] == d.items[i] && d.items[i..][1..] == d.items[i + 1..];
        var k := inner.Measure(d.items[i]);
        n := n + k;
      }
    }

    /** Writes only into slots that the first pass reserved. */
    method ScanSample(d: Data)
      requires Valid() && Fits(View(), d) && Reserved(View(), Size(d))
      modifies repr
      ensures View() == Scan(old(View()), d)
      decreases depth, 0
    {
      match kind
      case IndexKind =>
        ids := ids[idx := d.v];
        idx := idx + 1;
      case SparseKind(v) =>
        if v {
          cols := cols + Firsts(d.ps);
          values := values + Seconds(d.ps);
        } else {
          cols := cols + d.cs;
        }
        rows := rows + [|cols|];
        height := height + 1;
      case SequenceKind =>
        var n := Measure(d);
        starts := starts + [starts[|starts| - 1] + n];
        inner.ScanColumn(d.items);
    }

    /** The second pass over a list of samples. */
    method ScanColumn(ds: seq<Data>)
      requires Valid() && AllFit(View(), ds) && Reserved(View(), Sizes(ds))
      modifies repr
      ensures View() == ScanAll(old(View()), ds)
      decreases depth, 1
    {
      for i := 0 to |ds|
        invariant AllFit(View(), ds[i..]) && Reserved(View(), Sizes(ds[i..]))
        invariant ScanAll(old(View()), ds) == ScanAll(View(), ds[i..])
      {
        assert ds[i..][0] == ds[i] && ds[i..][1..] == ds[i + 1..];
        ScanFits(View(), ds[i], ds[i + 1..]);
        ScanReserves(View(), ds[i], Sizes(ds[i + 1..]));
        ReservedMono(View(), Sizes(ds[i..]), Size(ds[i]));
        ScanSample(ds[i]);
      }
    }

    /** The two passes over one slot's column of a batch. */
    method ConvertColumn(ds: seq<Data>)
      requires Valid() && Fresh(View()) && AllFit(View(), ds)
      modifies repr
      ensures View() == Convert(old(View()), ds)
      ensures kind.SparseKind? ==> cols == AllColumns(ds) && height == |ds|
      ensures kind.SparseKind? ==> values == if kind.withValues then AllValues(ds) else []
      ensures kind.IndexKind? ==> ids == Values(ds)
      ensures kind.SequenceKind? ==> starts == Starts(ds, 0) && inner.View() == Convert(old(inner.View()), Children(ds))
    {
      if kind.SparseKind? { SparseContents(View(), ds); }
      if kind.IndexKind? { ConvertIndex(ds); }
      if kind.SequenceKind? { ConvertSequence(inner.View(), ds); }
      ghost var s := View();
      for i := 0 to |ds|
        invariant AllFit(View(), ds[i..]) && PreAll(s, ds) == PreAll(View(), ds[i..])
      {
        assert ds[i..][0] == ds[i] && ds[i..][1..] == ds[i + 1..];
        PreFits(View(), ds[i], ds[i + 1..]);
        PreScan(ds[i]);
      }
      FinishPreScan();
      FinishReserves(s, ds);
      ScanColumn(ds);
    }
  }
}
