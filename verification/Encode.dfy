/**
  Batch building, pooling and normalisation of the onnx encoder.  Token vectors
  are over the reals, the model output is an arbitrary array of the right length,
  and the square root is any function that is one.
 */
module Encode {

  // one tokenizer encoding; the tokenizer gives the three lists the same length
  datatype Encoding = Encoding(ids: seq<int>, attention: seq<int>, types: seq<int>)

  predicate WellFormed(e: Encoding) {
    |e.attention| == |e.ids| && |e.types| == |e.ids|
  }

  predicate AllWellFormed(encs: seq<Encoding>) {
    forall i :: 0 <= i < |encs| ==> WellFormed(encs[i])
  }

  function MaxLength(encs: seq<Encoding>): (r: nat)
    ensures forall i :: 0 <= i < |encs| ==> |encs[i].ids| <= r
    ensures r == 0 || exists i :: 0 <= i < |encs| && |encs[i].ids| == r
  {
    if encs == [] then 0 else
    var last, init := |encs[|encs| - 1].ids|, MaxLength(encs[..|encs| - 1]);
    assert init == 0 || exists i :: 0 <= i < |encs| && |encs[i].ids| == init by {
      if init != 0 {
        var i :| 0 <= i < |encs| - 1 && |encs[..|encs| - 1][i].ids| == init;
        assert |encs[i].ids| == init;
      }
    }
    assert |encs[|encs| - 1].ids| == last;
    if init < last then last else init
  }

  /** `n` copies of `x`. */
  function Fill(x: int, n: nat): (r: seq<int>)
    ensures |r| == n && forall i :: 0 <= i < n ==> r[i] == x
  {
    seq(n, _ => x)
  }

  /** A row of the batch: the encoding's own values, then padding up to `width`. */
  function Padded(values: seq<int>, width: nat, pad: int): (r: seq<int>)
    requires |values| <= width
    ensures |r| == width
  {
    values + Fill(pad, width - |values|)
  }

  /** The values come first, and only `pad` after them. */
  lemma PaddedAt(values: seq<int>, width: nat, pad: int, k: nat)
    requires |values| <= width && k < width
    ensures Padded(values, width, pad)[k] == if k < |values| then values[k] else pad
  {
  }

  // ---- rows of a flat array ----

  lemma RowInside(r: nat, rows: nat, width: nat)
    requires r < rows
    ensures 0 <= r * width <= r * width + width <= rows * width
    ensures (r + 1) * width == r * width + width
  {
    assert rows * width == r * width + width + (rows - r - 1) * width;
  }

  /** Row `r` of a flat row-major array. */
  function Row<T>(flat: seq<T>, r: nat, rows: nat, width: nat): (x: seq<T>)
    requires r < rows && |flat| == rows * width
    ensures |x| == width && 0 <= r * width <= r * width + width <= |flat|
    ensures forall k :: 0 <= k < width ==> x[k] == flat[r * width + k]
  {
    RowInside(r, rows, width);
    flat[r * width..r * width + width]
  }

  function Sum(xs: seq<int>): int {
    if xs == [] then 0 else Sum(xs[..|xs| - 1]) + xs[|xs| - 1]
  }

  /** The tokens a request is billed for: the attention of every encoding. */
  function Tokens(encs: seq<Encoding>): int {
    if encs == [] then 0 else Tokens(encs[..|encs| - 1]) + Sum(encs[|encs| - 1].attention)
  }

  /** `flat` differs from `before` at most from `lo` up to `hi`. */
  ghost predicate SameOutside(flat: seq<int>, before: seq<int>, lo: nat, hi: nat) {
    |flat| == |before| && lo <= hi <= |flat| && flat[..lo] == before[..lo] && flat[hi..] == before[hi..]
  }

  lemma SliceOutside(flat: seq<int>, before: seq<int>, lo: nat, hi: nat, from: nat, until: nat)
    requires SameOutside(flat, before, lo, hi) && from <= until <= |flat| && (until <= lo || hi <= from)
    ensures flat[from..until] == before[from..until]
  {
    forall k | from <= k < until
      ensures flat[k] == before[k]
    {
      if k < lo {
        assert flat[..lo][k] == before[..lo][k];
      } else {
        assert flat[hi..][k - hi] == before[hi..][k - hi];
      }
    }
  }

  lemma OtherRows(flat: seq<int>, before: seq<int>, r: nat, rows: nat, width: nat)
    requires r < rows && |before| == rows * width && r * width + width <= rows * width
    requires SameOutside(flat, before, r * width, r * width + width)
    ensures forall q: nat :: q < rows && q != r ==> Row(flat, q, rows, width) == Row(before, q, rows, width)
  {
    assert |flat| == |before|;
    hide SameOutside;
    forall q: nat | q < rows && q != r
      ensures Row(flat, q, rows, width) == Row(before, q, rows, width)
    {
      RowsDisjoint(q, r, rows, width);
      SliceOutside(flat, before, r * width, r * width + width, q * width, q * width + width);
    }
  }

  lemma RowsDisjoint(q: nat, r: nat, rows: nat, width: nat)
    requires q < rows && r < rows && q != r
    ensures q * width + width <= r * width || r * width + width <= q * width
    ensures 0 <= q * width <= q * width + width <= rows * width
  {
    RowInside(q, rows, width);
    if q < r {
      RowInside(q, r, width);
    } else {
      RowInside(r, q, width);
    }
  }

  /** The first `i` of `values` stand in `flat` from `off` on, and nothing else changed since `before`. */
  ghost predicate Copied(flat: seq<int>, before: seq<int>, off: nat, i: nat, values: seq<int>) {
    i <= |values| && SameOutside(flat, before, off, off + i) && flat[off..off + i] == values[..i]
  }

  /** flat[off+i] = values[i] */
  method CopyOne(flat: array<int>, ghost before: seq<int>, off: nat, i: nat, values: seq<int>)
    requires i < |values| && off + i < flat.Length && Copied(flat[..], before, off, i, values)
    modifies flat
    ensures Copied(flat[..], before, off, i + 1, values)
  {
    ghost var was := flat[..];
    flat[off + i] := values[i];
    assert flat[..][off + i + 1..] == was[off + i..][1..];
    assert flat[..][off..off + i + 1] == was[off..off + i] + [values[i]];
  }

  lemma RestIsZero(flat: seq<int>, before: seq<int>, off: nat, width: nat, values: seq<int>)
    requires |values| <= width && off + width <= |before|
    requires Copied(flat, before, off, |values|, values)
    requires before[off..off + width] == Fill(0, width)
    ensures flat[off..off + width] == Padded(values, width, 0)
    ensures SameOutside(flat, before, off, off + width)
  {
    var n := |values|;
    assert flat[off + width..] == flat[off + n..][width - n..];
    forall k | 0 <= k < width
      ensures flat[off + k] == Padded(values, width, 0)[k]
    {
      if k < n {
        assert flat[off + k] == flat[off..off + n][k];
      } else {
        assert flat[off + n..][k - n] == before[off + n..][k - n];
        assert before[off + k] == before[off..off + width][k];
      }
    }
  }

  /** The padding loop: pad ids from the end of the encoding to the end of the row. */
  method PadRest(ids: array<int>, ghost before: seq<int>, off: nat, width: nat, values: seq<int>, pad: int)
    requires |values| <= width && off + width <= ids.Length
    requires Copied(ids[..], before, off, |values|, values)
    modifies ids
    ensures ids[off..off + width] == Padded(values, width, pad) && SameOutside(ids[..], before, off, off + width)
  {
    ghost var row := Padded(values, width, pad);
    assert row[..|values|] == values == values[..|values|];
    for i := |values| to width
      invariant Copied(ids[..], before, off, i, row)
    {
      ghost var was := ids[..];
      ids[off + i] := pad;
      PaddedOne(was, ids[..], before, off, i, row);
    }
    assert row[..width] == row;
  }

  /** One round of the outer loop of buildBatch: encoding `e` into the row at `off`. */
  method BuildRow(ids: array<int>, mask: array<int>, types: array<int>, off: nat, width: nat, e: Encoding, pad: int)
      returns (tokens: int)
    requires ids != mask && mask != types && types != ids
    requires ids.Length == mask.Length == types.Length && off + width <= ids.Length
    requires WellFormed(e) && |e.ids| <= width
    requires mask[off..off + width] == Fill(0, width) && types[off..off + width] == Fill(0, width)
    modifies ids, mask, types
    ensures ids[off..off + width] == Padded(e.ids, width, pad)
    ensures mask[off..off + width] == Padded(e.attention, width, 0)
    ensures types[off..off + width] == Padded(e.types, width, 0)
    ensures SameOutside(ids[..], old(ids[..]), off, off + width)
    ensures SameOutside(mask[..], old(mask[..]), off, off + width)
    ensures SameOutside(types[..], old(types[..]), off, off + width)
    ensures tokens == Sum(e.attention)
  {
    ghost var ids0, mask0, types0 := ids[..], mask[..], types[..];
    tokens := 0;
    for i := 0 to |e.ids|
      invariant Copied(ids[..], ids0, off, i, e.ids)
      invariant Copied(mask[..], mask0, off, i, e.attention)
      invariant Copied(types[..], types0, off, i, e.types)
      invariant tokens == Sum(e.attention[..i])
    {
      CopyOne(ids, ids0, off, i, e.ids);
      CopyOne(mask, mask0, off, i, e.attention);
      CopyOne(types, types0, off, i, e.types);
      assert e.attention[..i + 1][..i] == e.attention[..i];
      tokens := tokens + e.attention[i];
    }
    assert e.attention[..|e.ids|] == e.attention;
    RestIsZero(mask[..], mask0, off, width, e.attention);
    RestIsZero(types[..], types0, off, width, e.types);
    assert e.ids[..|e.ids|] == e.ids;
    PadRest(ids, ids0, off, width, e.ids, pad);
  }

  lemma PaddedOne(was: seq<int>, flat: seq<int>, before: seq<int>, off: nat, i: nat, values: seq<int>)
    requires i < |values| && off + i < |was| && Copied(was, before, off, i, values) && flat == was[off + i := values[i]]
    ensures Copied(flat, before, off, i + 1, values)
  {
    assert flat[off + i + 1..] == was[off + i..][1..];
    assert flat[off..off + i + 1] == was[off..off + i] + [values[i]];
  }

  // ---- the batch ----

  /** Row r of the three flat arrays holds encoding r followed by padding. */
  ghost predicate RowLaidOut(
      ids: seq<int>, mask: seq<int>, types: seq<int>, e: Encoding, r: nat, rows: nat, width: nat, pad: int)
    requires WellFormed(e) && |e.ids| <= width && r < rows && |ids| == |mask| == |types| == rows * width
  {
    && Row(ids, r, rows, width) == Padded(e.ids, width, pad)
    && Row(mask, r, rows, width) == Padded(e.attention, width, 0)
    && Row(types, r, rows, width) == Padded(e.types, width, 0)
  }

  /** The first `r` rows are laid out and the others are as `make` left them. */
  ghost predicate Building(
      ids: seq<int>, mask: seq<int>, types: seq<int>, encs: seq<Encoding>, r: nat, width: nat, pad: int)
  {
    && AllWellFormed(encs) && (forall i :: 0 <= i < |encs| ==> |encs[i].ids| <= width)
    && |ids| == |mask| == |types| == |encs| * width
    && (forall q: nat :: q < r && q < |encs| ==> RowLaidOut(ids, mask, types, encs[q], q, |encs|, width, pad))
    && (forall q: nat :: r <= q < |encs| ==>
          Row(mask, q, |encs|, width) == Fill(0, width) && Row(types, q, |encs|, width) == Fill(0, width))
  }

  method AddRow(ids: array<int>, mask: array<int>, types: array<int>, encs: seq<Encoding>, r: nat, width: nat, pad: int)
      returns (tokens: int)
    requires ids != mask && mask != types && types != ids && r < |encs|
    requires Building(ids[..], mask[..], types[..], encs, r, width, pad)
    modifies ids, mask, types
    ensures Building(ids[..], mask[..], types[..], encs, r + 1, width, pad)
    ensures tokens == Sum(encs[r].attention)
  {
    RowInside(r, |encs|, width);
    ghost var ids0, mask0, types0 := ids[..], mask[..], types[..];
    assert Row(mask0, r, |encs|, width) == mask[r * width..r * width + width];
    assert Row(types0, r, |encs|, width) == types[r * width..r * width + width];
    tokens := BuildRow(ids, mask, types, r * width, width, encs[r], pad);
    RowAdded(ids0, mask0, types0, ids[..], mask[..], types[..], encs, r, r * width, width, pad);
  }

  /** Laying out row `r` leaves the others as they are. */
  lemma RowAdded(ids0: seq<int>, mask0: seq<int>, types0: seq<int>, ids: seq<int>, mask: seq<int>, types: seq<int>,
                 encs: seq<Encoding>, r: nat, off: nat, width: nat, pad: int)
    requires r < |encs| && off == r * width && off + width <= |encs| * width
    requires Building(ids0, mask0, types0, encs, r, width, pad)
    requires SameOutside(ids, ids0, off, off + width) && SameOutside(mask, mask0, off, off + width)
    requires SameOutside(types, types0, off, off + width)
    requires ids[off..off + width] == Padded(encs[r].ids, width, pad)
    requires mask[off..off + width] == Padded(encs[r].attention, width, 0)
    requires types[off..off + width] == Padded(encs[r].types, width, 0)
    ensures Building(ids, mask, types, encs, r + 1, width, pad)
  {
    OtherRows(ids, ids0, r, |encs|, width);
    OtherRows(mask, mask0, r, |encs|, width);
    OtherRows(types, types0, r, |encs|, width);
    hide SameOutside, Padded, Fill;
    assert RowLaidOut(ids, mask, types, encs[r], r, |encs|, width, pad);
  }

  /** Where nothing is laid out yet, all masks and types are 0. */
  lemma NoneBuilt(ids: seq<int>, mask: seq<int>, types: seq<int>, encs: seq<Encoding>, width: nat, pad: int)
    requires AllWellFormed(encs) && forall i :: 0 <= i < |encs| ==> |encs[i].ids| <= width
    requires |ids| == |mask| == |types| == |encs| * width
    requires forall i :: 0 <= i < |mask| ==> mask[i] == 0 && types[i] == 0
    ensures Building(ids, mask, types, encs, 0, width, pad)
  {
    ZeroRows(mask, |encs|, width);
    ZeroRows(types, |encs|, width);
  }

  method BatchWidth(encs: seq<Encoding>) returns (width: nat)
    ensures width == MaxLength(encs)
  {
    width := 0;
    for i := 0 to |encs|
      invariant width == MaxLength(encs[..i])
    {
      assert encs[..i + 1][..i] == encs[..i];
      width := if width < |encs[i].ids| then |encs[i].ids| else width;
    }
    assert encs[..|encs|] == encs;
  }

  lemma ZeroRows(flat: seq<int>, rows: nat, width: nat)
    requires |flat| == rows * width && forall i :: 0 <= i < |flat| ==> flat[i] == 0
    ensures forall q: nat :: q < rows ==> Row(flat, q, rows, width) == Fill(0, width)
  {
    forall q: nat | q < rows
      ensures Row(flat, q, rows, width) == Fill(0, width)
    {
      RowInside(q, rows, width);
    }
  }

  /** The three zeroed arrays of a batch. */
  method EmptyBatch(encs: seq<Encoding>, width: nat, pad: int)
      returns (ids: array<int>, mask: array<int>, types: array<int>)
    requires AllWellFormed(encs) && forall i :: 0 <= i < |encs| ==> |encs[i].ids| <= width
    ensures fresh(ids) && fresh(mask) && fresh(types) && ids != mask && mask != types && types != ids
    ensures Building(ids[..], mask[..], types[..], encs, 0, width, pad)
  {
    var n := |encs| * width;
    ids, mask, types := new int[n](_ => 0), new int[n](_ => 0), new int[n](_ => 0);
    NoneBuilt(ids[..], mask[..], types[..], encs, width, pad);
  }

  /**
    Lay the encodings out as rows of equal width.  Each row is its encoding
    followed by pad ids with mask 0 and type 0, and the token count is the sum
    of the attention of the encodings.
   */
  method BuildBatch(encs: seq<Encoding>, pad: int)
      returns (ids: array<int>, mask: array<int>, types: array<int>, rows: nat, width: nat, tokens: int)
    requires AllWellFormed(encs)
    ensures rows == |encs| && width == MaxLength(encs)
    ensures Building(ids[..], mask[..], types[..], encs, rows, width, pad)
    ensures tokens == Tokens(encs)
  {
    hide Building;
    width := BatchWidth(encs);
    rows := |encs|;
    ids, mask, types := EmptyBatch(encs, width, pad);
    tokens := 0;
    for r := 0 to rows
      invariant tokens == Tokens(encs[..r])
      invariant Building(ids[..], mask[..], types[..], encs, r, width, pad)
    {
      var t := AddRow(ids, mask, types, encs, r, width, pad);
      assert encs[..r + 1][..r] == encs[..r];
      tokens := tokens + t;
    }
    assert encs[..rows] == encs;
  }

  lemma {:induction false} SumConcat(a: seq<int>, b: seq<int>)
    ensures Sum(a + b) == Sum(a) + Sum(b)
  {
    if b == [] {
      assert a + b == a;
    } else {
      assert (a + b)[..|a + b| - 1] == a + b[..|b| - 1];
      SumConcat(a, b[..|b| - 1]);
    }
  }

  lemma {:induction false} SumFill(x: int, n: nat)
    ensures Sum(Fill(x, n)) == x * n
  {
    if 0 < n {
      assert Fill(x, n)[..n - 1] == Fill(x, n - 1);
      SumFill(x, n - 1);
      assert x * (n - 1) + x == x * n;
    }
  }

  lemma PaddedSum(attention: seq<int>, width: nat)
    requires |attention| <= width
    ensures Sum(Padded(attention, width, 0)) == Sum(attention)
  {
    hide Sum;
    SumConcat(attention, Fill(0, width - |attention|));
    SumFill(0, width - |attention|);
  }

  lemma SumOfParts(xs: seq<int>, lo: nat, hi: nat)
    requires lo <= hi <= |xs|
    ensures Sum(xs[..hi]) == Sum(xs[..lo]) + Sum(xs[lo..hi])
  {
    assert xs[..hi] == xs[..lo] + xs[lo..hi];
    SumConcat(xs[..lo], xs[lo..hi]);
    hide Sum;
  }

  lemma {:induction false} MaskSumUpTo(mask: seq<int>, encs: seq<Encoding>, r: nat, width: nat)
    requires AllWellFormed(encs) && (forall i :: 0 <= i < |encs| ==> |encs[i].ids| <= width) && r <= |encs|
    requires |mask| == |encs| * width
    requires forall q: nat :: q < |encs| ==> Row(mask, q, |encs|, width) == Padded(encs[q].attention, width, 0)
    ensures 0 <= r * width <= |mask| && Sum(mask[..r * width]) == Tokens(encs[..r])
  {
    if r != 0 {
      MaskSumUpTo(mask, encs, r - 1, width);
      RowInside(r - 1, |encs|, width);
      assert Row(mask, r - 1, |encs|, width) == mask[(r - 1) * width..r * width];
      SumOfParts(mask, (r - 1) * width, r * width);
      PaddedSum(encs[r - 1].attention, width);
      assert encs[..r][..r - 1] == encs[..r - 1];
    }
  }

  /** The billed tokens are the sum of the whole attention mask: padding is free. */
  lemma TokensAreMaskSum(ids: seq<int>, mask: seq<int>, types: seq<int>, encs: seq<Encoding>, width: nat, pad: int)
    requires Building(ids, mask, types, encs, |encs|, width, pad)
    ensures Sum(mask) == Tokens(encs)
  {
    forall q: nat | q < |encs|
      ensures Row(mask, q, |encs|, width) == Padded(encs[q].attention, width, 0)
    {
      assert RowLaidOut(ids, mask, types, encs[q], q, |encs|, width, pad);
    }
    MaskSumUpTo(mask, encs, |encs|, width);
    assert mask[..|encs| * width] == mask && encs[..|encs|] == encs;
  }

  // ---- pooling ----

  type Vector = seq<real>

  /** The vectors of a flat row-major array. */
  function Vectors(flat: seq<real>, n: nat, dim: nat): (vs: seq<Vector>)
    requires |flat| == n * dim
    ensures |vs| == n && forall t :: 0 <= t < n ==> vs[t] == Row(flat, t, n, dim) && |vs[t]| == dim
  {
    seq(n, t requires 0 <= t < n => Row(flat, t, n, dim))
  }

  /** The vectors whose mask is set. */
  function Selected(vs: seq<Vector>, mask: seq<int>): (r: seq<Vector>)
    requires |vs| == |mask|
    ensures |r| <= |vs| && forall i :: 0 <= i < |r| ==> r[i] in vs
  {
    if mask == [] then [] else
    var k := |mask| - 1;
    Selected(vs[..k], mask[..k]) + if mask[k] == 0 then [] else [vs[k]]
  }

  function Coordinate(v: Vector, i: nat): real {
    if i < |v| then v[i] else 0.0
  }

  /** Sum of the i-th coordinates. */
  function Total(vs: seq<Vector>, i: nat): real {
    if vs == [] then 0.0 else Total(vs[..|vs| - 1], i) + Coordinate(vs[|vs| - 1], i)
  }

  /** The coordinate-wise mean; the zero vector when there is nothing to average. */
  function Mean(vs: seq<Vector>, dim: nat): (r: Vector)
    ensures |r| == dim
  {
    seq(dim, i requires 0 <= i < dim => if vs == [] then 0.0 else Total(vs, i) / (|vs| as real))
  }

  lemma {:induction false} TotalConcat(us: seq<Vector>, vs: seq<Vector>, i: nat)
    ensures Total(us + vs, i) == Total(us, i) + Total(vs, i)
  {
    if vs == [] {
      assert us + vs == us;
    } else {
      assert (us + vs)[..|us + vs| - 1] == us + vs[..|vs| - 1];
      TotalConcat(us, vs[..|vs| - 1], i);
    }
  }

  lemma DivideBack(x: real, n: real)
    requires 0.0 < n
    ensures x / n * n == x
  {
  }

  lemma MeanTotal(vs: seq<Vector>, dim: nat, i: nat)
    requires vs != [] && i < dim
    ensures Mean(vs, dim)[i] * |vs| as real == Total(vs, i)
  {
    DivideBack(Total(vs, i), |vs| as real);
  }

  lemma MeanOfOne(v: Vector)
    ensures Mean([v], |v|) == v
  {
    forall k | 0 <= k < |v|
      ensures Mean([v], |v|)[k] == v[k]
    {
      assert [v][..0] == [] && Total([v], k) == Coordinate(v, k);
    }
  }

  /** The mean of several vectors is the weighted mean of the means of any two parts of them. */
  lemma MeanOfParts(us: seq<Vector>, vs: seq<Vector>, dim: nat, i: nat)
    requires us != [] && vs != [] && i < dim
    ensures Mean(us + vs, dim)[i] * |us + vs| as real
         == Mean(us, dim)[i] * |us| as real + Mean(vs, dim)[i] * |vs| as real
  {
    hide Mean, Total;
    TotalConcat(us, vs, i);
    MeanTotal(us + vs, dim, i);
    MeanTotal(us, dim, i);
    MeanTotal(vs, dim, i);
  }

  /** The selection looks at each position on its own, and takes it exactly when its mask is not 0. */
  lemma {:induction false} SelectedConcat(us: seq<Vector>, vs: seq<Vector>, m: seq<int>, n: seq<int>, v: Vector, x: int)
    requires |us| == |m| && |vs| == |n|
    ensures Selected([v], [x]) == if x == 0 then [] else [v]
    ensures Selected(us + vs, m + n) == Selected(us, m) + Selected(vs, n)
    decreases |n|
  {
    assert [v][..0] == [] && [x][..0] == [];
    if n == [] {
      assert us + vs == us && m + n == m;
    } else {
      var k := |n| - 1;
      assert (us + vs)[..|m| + k] == us + vs[..k] && (m + n)[..|m| + k] == m + n[..k];
      SelectedConcat(us, vs[..k], m, n[..k], v, x);
    }
  }

  method AddVector(acc: array<real>, tok: Vector)
    requires acc.Length == |tok|
    modifies acc
    ensures forall i :: 0 <= i < |tok| ==> acc[i] == old(acc[i]) + tok[i]
  {
    for i := 0 to |tok|
      invariant forall j :: 0 <= j < i ==> acc[j] == old(acc[j]) + tok[j]
      invariant forall j :: i <= j < |tok| ==> acc[j] == old(acc[j])
    {
      acc[i] := acc[i] + tok[i];
    }
  }

  /** acc holds the sums of the coordinates of `chosen`. */
  ghost predicate SumsOf(acc: seq<real>, chosen: seq<Vector>, dim: nat) {
    |acc| == dim && forall i :: 0 <= i < dim ==> acc[i] == Total(chosen, i)
  }

  lemma TotalStep(chosen: seq<Vector>, tok: Vector, i: nat)
    ensures Total(chosen + [tok], i) == Total(chosen, i) + Coordinate(tok, i)
  {
    assert (chosen + [tok])[..|chosen|] == chosen;
  }

  lemma SelectStep(vs: seq<Vector>, mask: seq<int>, t: nat)
    requires |vs| == |mask| && t < |mask|
    ensures Selected(vs[..t + 1], mask[..t + 1]) == Selected(vs[..t], mask[..t]) + if mask[t] == 0 then [] else [vs[t]]
  {
    assert vs[..t + 1][..t] == vs[..t] && mask[..t + 1][..t] == mask[..t];
  }

  /** acc[i] += float64(x) for one token. */
  method AddToken(acc: array<real>, ghost chosen: seq<Vector>, tok: Vector)
    requires SumsOf(acc[..], chosen, |tok|)
    modifies acc
    ensures SumsOf(acc[..], chosen + [tok], |tok|)
  {
    AddVector(acc, tok);
    forall i | 0 <= i < |tok|
      ensures acc[i] == Total(chosen + [tok], i)
    {
      TotalStep(chosen, tok, i);
    }
  }

  /** The accumulation loop: sum the chosen tokens into acc and count them. */
  method Accumulate(acc: array<real>, row: seq<real>, mask: seq<int>, dim: nat) returns (n: nat)
    requires acc.Length == dim && SumsOf(acc[..], [], dim) && |row| == |mask| * dim
    modifies acc
    ensures var chosen := Selected(Vectors(row, |mask|, dim), mask); n == |chosen| && SumsOf(acc[..], chosen, dim)
  {
    ghost var vs := Vectors(row, |mask|, dim);
    ghost var chosen: seq<Vector> := [];
    n := 0;
    for t := 0 to |mask|
      invariant chosen == Selected(vs[..t], mask[..t])
      invariant n == |chosen| && SumsOf(acc[..], chosen, dim)
    {
      SelectStep(vs, mask, t);
      if mask[t] != 0 {
        n := n + 1;
        AddToken(acc, chosen, Row(row, t, |mask|, dim));
        chosen := chosen + [vs[t]];
      }
    }
    assert vs[..|mask|] == vs && mask[..|mask|] == mask;
  }

  /** Average the token vectors whose mask is set; with none set, `dst` is left alone. */
  method MeanPool(dst: array<real>, row: seq<real>, mask: seq<int>, dim: nat)
    requires dst.Length == dim && |row| == |mask| * dim
    modifies dst
    ensures var chosen := Selected(Vectors(row, |mask|, dim), mask);
            dst[..] == if chosen == [] then old(dst[..]) else Mean(chosen, dim)
  {
    var acc := new real[dim](_ => 0.0);
    var n := Accumulate(acc, row, mask, dim);
    if n == 0 {
      return;
    }
    Divide(dst, acc, n, Selected(Vectors(row, |mask|, dim), mask), dim);
  }

  method Divide(dst: array<real>, acc: array<real>, n: nat, ghost chosen: seq<Vector>, dim: nat)
    requires dst != acc && dst.Length == acc.Length == dim && n == |chosen| && 0 < n && SumsOf(acc[..], chosen, dim)
    modifies dst
    ensures dst[..] == Mean(chosen, dim)
  {
    for i := 0 to dim
      invariant forall j :: 0 <= j < i ==> dst[j] == acc[j] / (n as real)
    {
      dst[i] := acc[i] / (n as real);
    }
  }

  // ---- normalisation ----

  // products are functions, so that most proofs need no arithmetic of their own
  function Product(x: real, y: real): real {
    x * y
  }

  function Square(x: real): real {
    Product(x, x)
  }

  lemma ProductPositive(x: real, y: real)
    requires 0.0 < x && 0.0 < y
    ensures 0.0 < Product(x, y) == Product(-x, -y)
  {
  }

  lemma SquarePositive(x: real)
    ensures if x == 0.0 then Square(x) == 0.0 else 0.0 < Square(x)
  {
    if x != 0.0 {
      var y := if x < 0.0 then -x else x;
      ProductPositive(y, y);
    }
  }

  lemma SquareOfProduct(x: real, y: real)
    ensures Square(Product(x, y)) == Square(x) * Square(y)
  {
  }

  lemma SquaresRise(x: real, y: real)
    requires 0.0 <= x < y
    ensures Square(x) < Square(y)
  {
    var d := y - x;
    assert y * y == x * x + d * x + d * y;
    assert 0.0 <= d * x && 0.0 < d * y;
  }

  lemma Distribute(a: real, b: real, c: real)
    ensures (a + b) * c == a * c + b * c
  {
    assert (a + b) * c == c * (a + b) == c * a + c * b;
  }

  lemma InverseSquare(r: real, f: real)
    requires 0.0 < r && 0.0 < f
    ensures Square(r) * Square(f) == 1.0 <==> f == 1.0 / r
  {
    var p := r * f;
    assert 0.0 < p && (p == 1.0 <==> f == 1.0 / r);
    assert Square(1.0) == 1.0;
    SquareOfProduct(r, f);
    hide Square;
    if p < 1.0 {
      SquaresRise(p, 1.0);
    } else if 1.0 < p {
      SquaresRise(1.0, p);
    }
  }

  ghost predicate IsRoot(root: real -> real) {
    forall x: real :: 0.0 <= x ==> 0.0 <= root(x) && Square(root(x)) == x
  }

  lemma RootPositive(root: real -> real, s: real)
    requires IsRoot(root) && 0.0 < s
    ensures 0.0 < root(s) && Square(root(s)) == s
  {
    SquarePositive(root(s));
  }

  /** The squared length of a vector. */
  function Squares(v: Vector): (r: real)
    ensures 0.0 <= r
  {
    if v == [] then 0.0 else
    var x := v[|v| - 1];
    SquarePositive(x);
    Squares(v[..|v| - 1]) + Square(x)
  }

  function Scaled(v: Vector, f: real): (r: Vector)
    ensures |r| == |v|
  {
    seq(|v|, i requires 0 <= i < |v| => Product(v[i], f))
  }

  lemma ScaledStep(v: Vector, f: real)
    requires v != []
    ensures Scaled(v, f) == Scaled(v[..|v| - 1], f) + [Product(v[|v| - 1], f)]
  {
    hide Product;
    var init := v[..|v| - 1];
    assert forall i :: 0 <= i < |init| ==> init[i] == v[i];
  }

  lemma SquaresStep(v: Vector, x: real)
    ensures Squares(v + [x]) == Squares(v) + Square(x)
  {
    assert (v + [x])[..|v|] == v;
  }

  lemma SquaresOfOne(x: real)
    ensures Squares([x]) == x * x
  {
    SquaresStep([], x);
    assert [] + [x] == [x];
  }

  lemma {:induction false} SquaresScaled(v: Vector, f: real)
    ensures Squares(Scaled(v, f)) == Squares(v) * Square(f)
  {
    if v == [] {
      assert Scaled(v, f) == [];
    } else {
      hide Scaled, Squares, Square, Product;
      var init, x := v[..|v| - 1], v[|v| - 1];
      SquaresScaled(init, f);
      ScaledStep(v, f);
      SquaresStep(Scaled(init, f), Product(x, f));
      assert init + [x] == v;
      SquaresStep(init, x);
      SquareOfProduct(x, f);
      Distribute(Squares(init), Square(x), Square(f));
    }
  }

  /** The vector of length one in the direction of `v`; the zero vector has none and stays. */
  function Unit(v: Vector, root: real -> real): (r: Vector)
    requires IsRoot(root)
    ensures |r| == |v|
  {
    var s := Squares(v);
    if s == 0.0 then v else
    RootPositive(root, s);
    Scaled(v, 1.0 / root(s))
  }

  predicate Zero(v: Vector) {
    forall i :: 0 <= i < |v| ==> v[i] == 0.0
  }

  lemma ZeroStep(v: Vector, x: real)
    ensures Zero(v + [x]) <==> Zero(v) && x == 0.0
  {
    assert Zero(v + [x]) ==> (v + [x])[|v|] == x;
    assert forall i :: 0 <= i < |v| ==> (v + [x])[i] == v[i];
  }

  /** Only the zero vector has no length. */
  lemma {:induction false} SquaresZero(v: Vector)
    ensures Squares(v) == 0.0 <==> Zero(v)
  {
    if v != [] {
      hide Squares, Square, Zero;
      var init, x := v[..|v| - 1], v[|v| - 1];
      SquaresZero(init);
      assert init + [x] == v;
      SquaresStep(init, x);
      ZeroStep(init, x);
      SquarePositive(x);
    }
  }

  /** Normalising gives the one vector of length one in the same direction, unless every coordinate is zero. */
  lemma UnitIff(v: Vector, root: real -> real, f: real)
    requires IsRoot(root) && 0.0 < f && !Zero(v)
    ensures Squares(Unit(v, root)) == 1.0
    ensures Scaled(v, f) == Unit(v, root) <==> Squares(Scaled(v, f)) == 1.0
  {
    hide IsRoot, Scaled, Squares, Square, Zero;
    SquaresZero(v);
    var s := Squares(v);
    RootPositive(root, s);
    SquaresScaled(v, 1.0 / root(s));
    InverseSquare(root(s), 1.0 / root(s));
    SquaresScaled(v, f);
    InverseSquare(root(s), f);
  }

  /** The first loop of l2normalize. */
  method SumSquares(v: array<real>) returns (s: real)
    ensures s == Squares(v[..])
  {
    s := 0.0;
    for i := 0 to v.Length
      invariant s == Squares(v[..i])
    {
      SquaresStep(v[..i], v[i]);
      assert v[..i] + [v[i]] == v[..i + 1];
      s := s + v[i] * v[i];
    }
    assert v[..v.Length] == v[..];
  }

  /** The second one. */
  method Scale(v: array<real>, f: real)
    modifies v
    ensures v[..] == Scaled(old(v[..]), f)
  {
    hide Product;
    for i := 0 to v.Length
      invariant forall j :: 0 <= j < i ==> v[j] == Product(old(v[j]), f)
      invariant forall j :: i <= j < v.Length ==> v[j] == old(v[j])
    {
      v[i] := Product(v[i], f);
    }
  }

  /** l2normalize: multiply by one over the root of the sum of squares. */
  method Normalise(v: array<real>, root: real -> real)
    requires IsRoot(root)
    modifies v
    ensures v[..] == Unit(old(v[..]), root)
  {
    hide IsRoot, Squares, Scaled, Square;
    var s := SumSquares(v);
    if s == 0.0 {
      return;
    }
    RootPositive(root, s);
    Scale(v, 1.0 / root(s));
  }

  // ---- the batch pooled ----

  /** Vectors under a padded mask: what stands at padded positions is never selected. */
  lemma {:induction false} PaddingNotSelected(vs: seq<Vector>, attention: seq<int>, width: nat)
    requires |attention| <= width && |vs| == width
    ensures Selected(vs, Padded(attention, width, 0)) == Selected(vs[..|attention|], attention)
    decreases width - |attention|
  {
    var mask, n := Padded(attention, width, 0), |attention|;
    if n < width {
      var longer := attention + [0];
      assert Padded(longer, width, 0) == mask;
      PaddingNotSelected(vs, longer, width);
      assert longer[..n] == attention && vs[..n + 1][..n] == vs[..n];
    } else {
      assert mask == attention && vs[..n] == vs;
    }
  }

  /** Only the selected vectors matter. */
  lemma {:induction false} SelectedAgree(vs: seq<Vector>, us: seq<Vector>, mask: seq<int>)
    requires |vs| == |us| == |mask| && forall t :: 0 <= t < |mask| && mask[t] != 0 ==> vs[t] == us[t]
    ensures Selected(vs, mask) == Selected(us, mask)
  {
    if mask != [] {
      SelectedAgree(vs[..|mask| - 1], us[..|mask| - 1], mask[..|mask| - 1]);
    }
  }

  /** The model output for the whole padded row of encoding `r`. */
  function RowVectors(data: seq<real>, encs: seq<Encoding>, r: nat, width: nat, dim: nat): (vs: seq<Vector>)
    requires r < |encs| && |data| == |encs| * (width * dim)
    ensures |vs| == width
  {
    Vectors(Row(data, r, |encs|, width * dim), width, dim)
  }

  /** Token `t` of text `r` has its `dim` numbers in a row in the output, after those of the tokens before it. */
  lemma VectorAt(data: seq<real>, encs: seq<Encoding>, r: nat, width: nat, dim: nat, t: nat, k: nat)
    requires r < |encs| && |data| == |encs| * (width * dim) && t < width && k < dim
    ensures |RowVectors(data, encs, r, width, dim)[t]| == dim && 0 <= (r * width + t) * dim + k < |data|
    ensures RowVectors(data, encs, r, width, dim)[t][k] == data[(r * width + t) * dim + k]
  {
    RowInside(t, width, dim);
    RowInside(r, |encs|, width * dim);
    assert (r * width + t) * dim == r * (width * dim) + t * dim;
  }

  /** The embedding of one text: the mean over its own unmasked tokens. */
  function Embedding(vs: seq<Vector>, attention: seq<int>, dim: nat): Vector
    requires |vs| == |attention|
  {
    Mean(Selected(vs, attention), dim)
  }

  /** Whether pooling is by mean or takes token 0. */
  datatype Pooling = MeanTokens | FirstToken

  /** What one text of a batch gets: the mean over its own unmasked tokens, or token 0 of its row. */
  function Pooled(vs: seq<Vector>, e: Encoding, dim: nat, pooling: Pooling): Vector
    requires |e.ids| <= |vs| && WellFormed(e) && (pooling == FirstToken ==> vs != [])
  {
    if pooling == MeanTokens then Embedding(vs[..|e.ids|], e.attention, dim) else vs[0]
  }

  /** Where no mean is taken, a text gets the numbers its row in the output starts with. */
  lemma FirstTokenAt(data: seq<real>, encs: seq<Encoding>, r: nat, width: nat, dim: nat, k: nat)
    requires r < |encs| && WellFormed(encs[r]) && |encs[r].ids| <= width && 0 < width && k < dim
    requires |data| == |encs| * (width * dim)
    ensures var v := Pooled(RowVectors(data, encs, r, width, dim), encs[r], dim, FirstToken);
            |v| == dim && 0 <= r * (width * dim) + k < |data| && v[k] == data[r * (width * dim) + k]
  {
    VectorAt(data, encs, r, width, dim, 0, k);
    assert (r * width + 0) * dim == r * (width * dim);
  }

  method PoolRow(row: seq<real>, mask: seq<int>, e: Encoding, dim: nat, pooling: Pooling) returns (v: array<real>)
    requires WellFormed(e) && |e.ids| <= |mask| && |row| == |mask| * dim && mask == Padded(e.attention, |mask|, 0)
    requires pooling == FirstToken ==> mask != []
    ensures fresh(v) && v[..] == Pooled(Vectors(row, |mask|, dim), e, dim, pooling)
  {
    v := new real[dim](_ => 0.0);
    if pooling == FirstToken {
      RowInside(0, |mask|, dim);
      forall i | 0 <= i < dim {
        v[i] := row[i];
      }
      assert v[..] == row[..dim];
    } else {
      MeanPool(v, row, mask, dim);
      PaddingNotSelected(Vectors(row, |mask|, dim), e.attention, |mask|);
    }
  }

  /** One round of the pooling loop: slice row `r` out of the output and the mask, pool and normalise it. */
  method EmbedRow(flatMask: seq<int>, encs: seq<Encoding>, r: nat, width: nat, data: seq<real>, dim: nat,
                  pooling: Pooling, root: real -> real)
      returns (vector: Vector)
    requires r < |encs| && WellFormed(encs[r]) && |encs[r].ids| <= width
    requires |data| == |encs| * (width * dim) && |flatMask| == |encs| * width
    requires Row(flatMask, r, |encs|, width) == Padded(encs[r].attention, width, 0)
    requires (pooling == FirstToken ==> 0 < width) && IsRoot(root)
    ensures vector == Unit(Pooled(RowVectors(data, encs, r, width, dim), encs[r], dim, pooling), root)
  {
    var row, mask := Row(data, r, |encs|, width * dim), Row(flatMask, r, |encs|, width);
    var v := PoolRow(row, mask, encs[r], dim, pooling);
    Normalise(v, root);
    vector := v[..];
  }

  /**
    What Embed is given: well-formed encodings, the model output of their batch,
    and a token 0 where one is taken.
   */
  predicate Embeddable(data: seq<real>, encs: seq<Encoding>, width: nat, dim: nat, pooling: Pooling) {
    && AllWellFormed(encs) && (forall i :: 0 <= i < |encs| ==> |encs[i].ids| <= width)
    && |data| == |encs| * (width * dim)
    && (pooling == FirstToken ==> encs == [] || 0 < width)
  }

  /** The first texts of the batch have the vectors they should get. */
  ghost predicate PooledRows(vectors: seq<Vector>, data: seq<real>, encs: seq<Encoding>, width: nat, dim: nat,
                             pooling: Pooling, root: real -> real)
    requires Embeddable(data, encs, width, dim, pooling) && IsRoot(root)
  {
    |vectors| <= |encs|
    && forall r: nat :: r < |vectors| ==>
         vectors[r] == Unit(Pooled(RowVectors(data, encs, r, width, dim), encs[r], dim, pooling), root)
  }

  lemma PooledOneMore(vectors: seq<Vector>, v: Vector, data: seq<real>, encs: seq<Encoding>, width: nat, dim: nat,
                      pooling: Pooling, root: real -> real)
    requires Embeddable(data, encs, width, dim, pooling) && IsRoot(root)
    requires PooledRows(vectors, data, encs, width, dim, pooling, root) && |vectors| < |encs|
    requires v == Unit(Pooled(RowVectors(data, encs, |vectors|, width, dim), encs[|vectors|], dim, pooling), root)
    ensures PooledRows(vectors + [v], data, encs, width, dim, pooling, root)
  {
    hide Unit, Pooled, RowVectors, IsRoot;
  }

  /**
    The pooling loop of Embed over the model output `data` of the whole batch:
    every text gets the mean over its own unmasked tokens, or token 0 of its row,
    brought to length one, whatever the padding and the other texts of the batch
    are; and it is billed for the attention of the texts alone.
   */
  method Embed(encs: seq<Encoding>, pad: int, data: seq<real>, dim: nat, pooling: Pooling, root: real -> real)
      returns (vectors: seq<Vector>, tokens: int)
    requires Embeddable(data, encs, MaxLength(encs), dim, pooling) && IsRoot(root)
    ensures |vectors| == |encs| && tokens == Tokens(encs)
    ensures PooledRows(vectors, data, encs, MaxLength(encs), dim, pooling, root)
  {
    var ids, mask, types, rows, width, t := BuildBatch(encs, pad);
    tokens := t;
    vectors := [];
    ghost var allIds, allTypes := ids[..], types[..];
    var flatMask := mask[..];
    for r := 0 to rows
      invariant |vectors| == r && PooledRows(vectors, data, encs, width, dim, pooling, root)
    {
      assert RowLaidOut(allIds, flatMask, allTypes, encs[r], r, rows, width, pad);
      var v := EmbedRow(flatMask, encs, r, width, data, dim, pooling, root);
      PooledOneMore(vectors, v, data, encs, width, dim, pooling, root);
      vectors := vectors + [v];
    }
  }

  /** The model gives a text the same vectors in two batches, at every token that pooling looks at. */
  ghost predicate SameTokens(vs: seq<Vector>, us: seq<Vector>, e: Encoding, pooling: Pooling)
    requires WellFormed(e) && |e.ids| <= |vs| && |e.ids| <= |us|
    requires pooling == FirstToken ==> vs != [] && us != []
  {
    if pooling == FirstToken then vs[0] == us[0]
    else forall t :: 0 <= t < |e.ids| && e.attention[t] != 0 ==> vs[t] == us[t]
  }

  lemma SamePooled(vs: seq<Vector>, us: seq<Vector>, e: Encoding, dim: nat, pooling: Pooling)
    requires WellFormed(e) && |e.ids| <= |vs| && |e.ids| <= |us|
    requires pooling == FirstToken ==> vs != [] && us != []
    requires SameTokens(vs, us, e, pooling)
    ensures Pooled(vs, e, dim, pooling) == Pooled(us, e, dim, pooling)
  {
    if pooling == MeanTokens {
      SelectedAgree(vs[..|e.ids|], us[..|e.ids|], e.attention);
    }
  }

  // A batch as Embed sees it: its encodings, the width of its rows, and the model output.
  datatype Batch = Batch(encs: seq<Encoding>, width: nat, data: seq<real>)

  /**
    Batching does not matter: Embed gives the same text the same vector in two
    batches of any widths and any other texts, as soon as the model gives the
    tokens that pooling looks at the same vectors.
   */
  lemma BatchIndependence(b: Batch, r: nat, vectors: seq<Vector>, b': Batch, r': nat, vectors': seq<Vector>,
                          dim: nat, pooling: Pooling, root: real -> real)
    requires IsRoot(root)
    requires Embeddable(b.data, b.encs, b.width, dim, pooling) && Embeddable(b'.data, b'.encs, b'.width, dim, pooling)
    requires PooledRows(vectors, b.data, b.encs, b.width, dim, pooling, root) && r < |vectors|
    requires PooledRows(vectors', b'.data, b'.encs, b'.width, dim, pooling, root) && r' < |vectors'|
    requires b.encs[r] == b'.encs[r']
    requires SameTokens(RowVectors(b.data, b.encs, r, b.width, dim), RowVectors(b'.data, b'.encs, r', b'.width, dim),
                        b.encs[r], pooling)
    ensures vectors[r] == vectors'[r']
  {
    SamePooled(RowVectors(b.data, b.encs, r, b.width, dim), RowVectors(b'.data, b'.encs, r', b'.width, dim),
               b.encs[r], dim, pooling);
  }
}
