/** The post-processing of the feature script (sleep_features_v2.py, lines
    99-142), in place on the tensor `feature[channel, epoch, feature]`: a
    (channel, epoch) vector holding a NaN or an infinity becomes all NaN,
    then the `nch`/`nf` loop runs the column steps of `Columns` on every
    (channel, feature) column in turn, writes each column back, and fills
    the discriminability matrix `featfeat`. */
module PostProcess {
  import opened Numerics
  import opened Outcomes
  import opened Columns

  /** `Nfeat`: the features per (channel, epoch). */
  const NFeat: nat := 24

  /** A tensor with the same number of epochs in every channel and `NFeat`
      features in every (channel, epoch) vector. */
  ghost predicate Shaped(t: seq<seq<seq<Fp>>>) {
    forall c :: 0 <= c < |t| ==>
      |t[c]| == |t[0]| && forall e :: 0 <= e < |t[c]| ==> |t[c][e]| == NFeat
  }

  /** The epochs of a shaped tensor. */
  function Epochs(t: seq<seq<seq<Fp>>>): nat {
    if |t| == 0 then 0 else |t[0]|
  }

  /** The contents of the tensor array. */
  function Contents(a: array3<Fp>): (t: seq<seq<seq<Fp>>>)
    reads a
    ensures |t| == a.Length0
    ensures forall c :: 0 <= c < a.Length0 ==> |t[c]| == a.Length1
    ensures forall c, e :: 0 <= c < a.Length0 && 0 <= e < a.Length1 ==> |t[c][e]| == a.Length2
    ensures forall c, e, k :: 0 <= c < a.Length0 && 0 <= e < a.Length1 && 0 <= k < a.Length2 ==>
      t[c][e][k] == a[c, e, k]
  {
    seq(a.Length0, c requires 0 <= c < a.Length0 reads a =>
      seq(a.Length1, e requires 0 <= e < a.Length1 reads a =>
        seq(a.Length2, k requires 0 <= k < a.Length2 reads a => a[c, e, k])))
  }

  /** Two tensors of the same shape and entries are equal. */
  lemma SameTensor(t: seq<seq<seq<Fp>>>, u: seq<seq<seq<Fp>>>)
    requires |t| == |u|
    requires forall c :: 0 <= c < |t| ==> |t[c]| == |u[c]|
    requires forall c, e :: 0 <= c < |t| && 0 <= e < |t[c]| ==> |t[c][e]| == |u[c][e]|
    requires forall c, e, k :: 0 <= c < |t| && 0 <= e < |t[c]| && 0 <= k < |t[c][e]| ==> t[c][e][k] == u[c][e][k]
    ensures t == u
  {
    forall c | 0 <= c < |t|
      ensures t[c] == u[c]
    {
      forall e | 0 <= e < |t[c]|
        ensures t[c][e] == u[c][e]
      {
      }
    }
  }

  // ----- lines 99-102 -----

  /** A vector with a NaN or an infinity anywhere is all NaN afterwards; a
      vector of finite values is left as it is. */
  function Invalidate(x: seq<Fp>): (r: seq<Fp>)
    ensures |r| == |x|
    ensures forall k :: 0 <= k < |x| ==> (r[k].NonFinite? <==> exists j :: 0 <= j < |x| && x[j].NonFinite?)
    ensures forall k :: 0 <= k < |x| && r[k].Finite? ==> r[k] == x[k]
  {
    if exists j :: 0 <= j < |x| && x[j].NonFinite? then seq(|x|, k => NonFinite) else x
  }

  /** Lines 99-102 on every (channel, epoch) vector. */
  function Sanitized(t: seq<seq<seq<Fp>>>): (s: seq<seq<seq<Fp>>>)
    ensures |s| == |t| && forall c :: 0 <= c < |t| ==> |s[c]| == |t[c]|
    ensures Shaped(t) ==> Shaped(s)
  {
    seq(|t|, c requires 0 <= c < |t| =>
      seq(|t[c]|, e requires 0 <= e < |t[c]| => Invalidate(t[c][e])))
  }

  /** After the first pass every vector is all missing or all present, and
      a second pass would change nothing. */
  lemma SanitizedVectors(t: seq<seq<seq<Fp>>>)
    ensures forall c, e :: 0 <= c < |t| && 0 <= e < |t[c]| ==>
      var x := Sanitized(t)[c][e];
      (forall k :: 0 <= k < |x| ==> x[k].NonFinite?) || (forall k :: 0 <= k < |x| ==> x[k].Finite?)
    ensures Sanitized(Sanitized(t)) == Sanitized(t)
  {
    var s := Sanitized(t);
    forall c, e | 0 <= c < |t| && 0 <= e < |t[c]|
      ensures Invalidate(s[c][e]) == s[c][e]
    {
    }
    SameTensor(Sanitized(s), s);
  }

  /** The vector of channel c at epoch e made all NaN when it holds a NaN or
      an infinity: `feature[x[ii], y[ii], :] = np.nan`. */
  method InvalidateVector(a: array3<Fp>, c: nat, e: nat, ghost t: seq<seq<seq<Fp>>>)
    requires c < a.Length0 && e < a.Length1 && t == Contents(a)
    modifies a
    ensures forall c', e', k :: 0 <= c' < a.Length0 && 0 <= e' < a.Length1 && 0 <= k < a.Length2 ==>
      a[c', e', k] == if c' == c && e' == e then Invalidate(t[c][e])[k] else t[c'][e'][k]
  {
    if exists k :: 0 <= k < a.Length2 && a[c, e, k].NonFinite? {
      forall k | 0 <= k < a.Length2 {
        a[c, e, k] := NonFinite;
      }
    }
  }

  /** Lines 99-102 in place. */
  method Sanitize(a: array3<Fp>)
    modifies a
    ensures Contents(a) == Sanitized(old(Contents(a)))
  {
    ghost var t := Contents(a);
    ghost var s := Sanitized(t);
    for c := 0 to a.Length0
      invariant forall c', e', k :: 0 <= c' < a.Length0 && 0 <= e' < a.Length1 && 0 <= k < a.Length2 ==>
        a[c', e', k] == if c' < c then s[c'][e'][k] else t[c'][e'][k]
    {
      for e := 0 to a.Length1
        invariant forall c', e', k :: 0 <= c' < a.Length0 && 0 <= e' < a.Length1 && 0 <= k < a.Length2 ==>
          a[c', e', k] == if c' < c || (c' == c && e' < e) then s[c'][e'][k] else t[c'][e'][k]
      {
        InvalidateVector(a, c, e, Contents(a));
      }
    }
    SameTensor(Contents(a), s);
  }

  // ----- lines 104-142 -----

  /** `feature[c, :, k]`. */
  function Column(t: seq<seq<seq<Fp>>>, c: nat, k: nat): (col: seq<Fp>)
    requires Shaped(t) && c < |t| && k < NFeat
    ensures |col| == Epochs(t)
  {
    seq(|t[c]|, e requires 0 <= e < |t[c]| => t[c][e][k])
  }

  /** `feature[c, :, k] = col`. */
  function WithColumn(t: seq<seq<seq<Fp>>>, c: nat, k: nat, col: seq<Fp>): (u: seq<seq<seq<Fp>>>)
    requires Shaped(t) && c < |t| && k < NFeat && |col| == Epochs(t)
    ensures Shaped(u) && |u| == |t| && Epochs(u) == Epochs(t)
  {
    t[c := seq(|t[c]|, e requires 0 <= e < |t[c]| => t[c][e][k := col[e]])]
  }

  /** Writing one column leaves every other column as it was. */
  lemma ColumnOfWith(t: seq<seq<seq<Fp>>>, c: nat, k: nat, col: seq<Fp>, c0: nat, k0: nat)
    requires Shaped(t) && c < |t| && k < NFeat && |col| == Epochs(t)
    requires c0 < |t| && k0 < NFeat
    ensures Column(WithColumn(t, c, k, col), c0, k0) == if c0 == c && k0 == k then col else Column(t, c0, k0)
  {
  }

  /** `featfeat[k, c] = score` when the score was written. */
  function Record(g: seq<seq<real>>, k: nat, c: nat, score: Option<real>): (h: seq<seq<real>>)
    requires k < |g| && c < |g[k]|
    ensures |h| == |g| && forall k' :: 0 <= k' < |g| ==> |h[k']| == |g[k']|
  {
    if score.Some? then g[k := g[k][c := score.value]] else g
  }

  /** `np.zeros((Nfeat, Nch))`. */
  function ZeroScores(nch: nat): (g: seq<seq<real>>)
    ensures |g| == NFeat && forall k :: 0 <= k < NFeat ==> |g[k]| == nch
  {
    seq(NFeat, k => seq(nch, c => 0.0))
  }

  /** The steps of one pass of the loop body, as one function of the column. */
  function ColumnStep(lib: MathLib, night: seq<bool>): seq<Fp> -> Result<Processed> {
    f => ProcessColumn(lib, f, night)
  }

  /** A column step that returns a column as long as the one it was given. */
  ghost predicate KeepsLength(step: seq<Fp> -> Result<Processed>) {
    forall f :: step(f).Ok? ==> |step(f).value.column| == |f|
  }

  lemma ColumnStepKeepsLength(lib: MathLib, night: seq<bool>)
    ensures KeepsLength(ColumnStep(lib, night))
  {
    forall f | ColumnStep(lib, night)(f).Ok?
      ensures |ColumnStep(lib, night)(f).value.column| == |f|
    {
      assert ColumnStep(lib, night)(f) == ProcessColumn(lib, f, night);
    }
  }

  /** The state after the `nch`/`nf` loop has run `step` on every channel
      before c and on the features before k of channel c: the tensor and
      `featfeat`. */
  function Pass(step: seq<Fp> -> Result<Processed>, t: seq<seq<seq<Fp>>>, c: nat, k: nat): (r: Result<(seq<seq<seq<Fp>>>, seq<seq<real>>)>)
    requires KeepsLength(step) && Shaped(t) && k <= NFeat && (c < |t| || (c == |t| && k == 0))
    ensures r.Ok? ==> Shaped(r.value.0) && |r.value.0| == |t| && Epochs(r.value.0) == Epochs(t)
    ensures r.Ok? ==> |r.value.1| == NFeat && forall k' :: 0 <= k' < NFeat ==> |r.value.1[k']| == |t|
    decreases c, k
  {
    if k == 0 then
      if c == 0 then Ok((t, ZeroScores(|t|))) else Pass(step, t, c - 1, NFeat)
    else
      var p :- Pass(step, t, c, k - 1);
      var q :- step(Column(p.0, c, k - 1));
      Ok((WithColumn(p.0, c, k - 1, q.column), Record(p.1, k - 1, c, q.score)))
  }

  /** Column (c0, k0) comes before (c, k) in the order of the loops. */
  predicate Before(c0: nat, k0: nat, c: nat, k: nat) {
    c0 < c || (c0 == c && k0 < k)
  }

  /** Each column is processed once, on its own: after the loop has reached
      (c, k), the columns before it hold what the step makes of their
      original contents and the others are untouched. */
  lemma {:induction false} PassColumn(step: seq<Fp> -> Result<Processed>, t: seq<seq<seq<Fp>>>, c: nat, k: nat, c0: nat, k0: nat)
    requires KeepsLength(step) && Shaped(t) && k <= NFeat && (c < |t| || (c == |t| && k == 0))
    requires c0 < |t| && k0 < NFeat && Pass(step, t, c, k).Ok?
    ensures Before(c0, k0, c, k) ==> step(Column(t, c0, k0)).Ok?
    ensures Column(Pass(step, t, c, k).value.0, c0, k0)
      == if Before(c0, k0, c, k) then step(Column(t, c0, k0)).value.column else Column(t, c0, k0)
    decreases c, k
  {
    if k == 0 {
      if c > 0 {
        PassColumn(step, t, c - 1, NFeat, c0, k0);
      }
    } else {
      var p := Pass(step, t, c, k - 1).value;
      PassColumn(step, t, c, k - 1, c0, k0);
      PassColumn(step, t, c, k - 1, c, k - 1);
      var q := step(Column(p.0, c, k - 1)).value;
      ColumnOfWith(p.0, c, k - 1, q.column, c0, k0);
    }
  }

  /** The cell `featfeat[k0, c0]` after the loop has reached (c, k): the
      score of its column when that was written, otherwise 0. */
  lemma {:induction false} PassScore(step: seq<Fp> -> Result<Processed>, t: seq<seq<seq<Fp>>>, c: nat, k: nat, c0: nat, k0: nat)
    requires KeepsLength(step) && Shaped(t) && k <= NFeat && (c < |t| || (c == |t| && k == 0))
    requires c0 < |t| && k0 < NFeat && Pass(step, t, c, k).Ok?
    ensures Before(c0, k0, c, k) ==> step(Column(t, c0, k0)).Ok?
    ensures Pass(step, t, c, k).value.1[k0][c0]
      == if Before(c0, k0, c, k) && step(Column(t, c0, k0)).value.score.Some?
         then step(Column(t, c0, k0)).value.score.value
         else 0.0
    decreases c, k
  {
    PassColumn(step, t, c, k, c0, k0);
    if k == 0 {
      if c > 0 {
        PassScore(step, t, c - 1, NFeat, c0, k0);
      }
    } else {
      PassScore(step, t, c, k - 1, c0, k0);
      PassColumn(step, t, c, k - 1, c, k - 1);
    }
  }

  /** What the script keeps: the processed tensor and `featfeat.T`, one row
      of `Nfeat` cells per channel. */
  datatype Cleaned = Cleaned(feature: seq<seq<seq<Fp>>>, scores: seq<seq<real>>)

  /** `featfeat.T`. */
  function Transpose(g: seq<seq<real>>, nch: nat): (h: seq<seq<real>>)
    requires |g| == NFeat && forall k :: 0 <= k < NFeat ==> |g[k]| == nch
    ensures |h| == nch && forall c :: 0 <= c < nch ==> |h[c]| == NFeat
    ensures forall c, k :: 0 <= c < nch && 0 <= k < NFeat ==> h[c][k] == g[k][c]
  {
    seq(nch, c requires 0 <= c < nch => seq(NFeat, k requires 0 <= k < NFeat => g[k][c]))
  }

  /** `featfeat.T` loses nothing: two score grids with the same transpose
      are the same grid. */
  lemma TransposeInjective(g: seq<seq<real>>, g': seq<seq<real>>, nch: nat)
    requires |g| == NFeat && forall k :: 0 <= k < NFeat ==> |g[k]| == nch
    requires |g'| == NFeat && forall k :: 0 <= k < NFeat ==> |g'[k]| == nch
    requires Transpose(g, nch) == Transpose(g', nch)
    ensures g == g'
  {
    var h := Transpose(g, nch);
    forall k | 0 <= k < NFeat
      ensures g[k] == g'[k]
    {
      forall c | 0 <= c < nch
        ensures g[k][c] == g'[k][c]
      {
        assert g[k][c] == h[c][k];
      }
    }
  }

  /** Lines 99-142 on the tensor t: the first pass, then the loop over every
      column, stopping at the first exception. */
  function PostProcessed(lib: MathLib, t: seq<seq<seq<Fp>>>, night: seq<bool>): (r: Result<Cleaned>)
    requires Shaped(t)
    ensures r.Ok? ==> |r.value.feature| == |t| && |r.value.scores| == |t|
  {
    var s := Sanitized(t);
    assert Shaped(s);
    ColumnStepKeepsLength(lib, night);
    var p :- Pass(ColumnStep(lib, night), s, |s|, 0);
    Ok(Cleaned(p.0, Transpose(p.1, |s|)))
  }

  /** On success every column of the result is what the column steps make
      of that column after the first pass, and every score cell is its
      column's score, or 0 where the norm was zero. */
  lemma PostProcessedColumns(lib: MathLib, t: seq<seq<seq<Fp>>>, night: seq<bool>, c: nat, k: nat)
    requires Shaped(t) && PostProcessed(lib, t, night).Ok? && c < |t| && k < NFeat
    ensures Shaped(Sanitized(t))
    ensures var r := ProcessColumn(lib, Column(Sanitized(t), c, k), night);
      r.Ok?
      && Column(PostProcessed(lib, t, night).value.feature, c, k) == r.value.column
      && PostProcessed(lib, t, night).value.scores[c][k] == (if r.value.score.Some? then r.value.score.value else 0.0)
  {
    var s := Sanitized(t);
    assert Shaped(s);
    ColumnStepKeepsLength(lib, night);
    PassColumn(ColumnStep(lib, night), s, |s|, 0, c, k);
    PassScore(ColumnStep(lib, night), s, |s|, 0, c, k);
  }

  /** `featfeat` as an array. */
  function Grid(g: array2<real>): (h: seq<seq<real>>)
    reads g
    ensures |h| == g.Length0 && forall k :: 0 <= k < g.Length0 ==> |h[k]| == g.Length1
    ensures forall k, c :: 0 <= k < g.Length0 && 0 <= c < g.Length1 ==> h[k][c] == g[k, c]
  {
    seq(g.Length0, k requires 0 <= k < g.Length0 reads g =>
      seq(g.Length1, c requires 0 <= c < g.Length1 reads g => g[k, c]))
  }

  /** `f = feature[c, :, k]`, a copy of the column. */
  method ReadColumn(a: array3<Fp>, c: nat, k: nat) returns (col: seq<Fp>)
    requires c < a.Length0 && k < a.Length2 == NFeat
    ensures Shaped(Contents(a)) && col == Column(Contents(a), c, k)
  {
    col := seq(a.Length1, e requires 0 <= e < a.Length1 reads a => a[c, e, k]);
  }

  /** `feature[c, :, k] = col`. */
  method StoreColumn(a: array3<Fp>, c: nat, k: nat, col: seq<Fp>, ghost t: seq<seq<seq<Fp>>>)
    requires c < a.Length0 && k < a.Length2 == NFeat && |col| == a.Length1 && t == Contents(a)
    modifies a
    ensures Shaped(t) && Contents(a) == WithColumn(t, c, k, col)
  {
    forall e | 0 <= e < a.Length1 {
      a[c, e, k] := col[e];
    }
    SameTensor(Contents(a), WithColumn(t, c, k, col));
  }

  /** One pass of the `nch`/`nf` loop on column (c, k): each step's result is
      written into the tensor as the script writes it (the masked NaN of
      line 119, the view write of line 127, the store of line 135), and the
      score into `featfeat[k, c]` when the norm is nonzero. */
  method ProcessOne(a: array3<Fp>, ff: array2<real>, lib: MathLib, night: seq<bool>, c: nat, k: nat,
                    ghost t: seq<seq<seq<Fp>>>, ghost g: seq<seq<real>>)
    returns (e: Option<Exception>)
    requires c < a.Length0 && k < a.Length2 == NFeat && t == Contents(a)
    requires ff.Length0 == NFeat && ff.Length1 == a.Length0 && g == Grid(ff)
    modifies a, ff
    ensures Shaped(t)
    ensures var r := ProcessColumn(lib, Column(t, c, k), night);
      (e.Some? <==> r.Raise?) && (e.Some? ==> e.value == r.exc)
    ensures var r := ProcessColumn(lib, Column(t, c, k), night);
      e.None? ==> Contents(a) == WithColumn(t, c, k, r.value.column) && Grid(ff) == Record(g, k, c, r.value.score)
  {
    var s := OutlierSmooth(a, c, k, t);
    if s.Raise? {
      return Some(s.exc);
    }
    var n := Normalize(lib, s.value, night);
    if n.Raise? {
      return Some(n.exc);
    }
    ghost var t2 := Contents(a);
    StoreColumn(a, c, k, n.value, t2);
    var sc := Score(lib, n.value);
    if sc.Raise? {
      return Some(sc.exc);
    }
    WithColumnTwice(t, c, k, s.value, n.value);
    WriteScore(ff, k, c, sc.value, g);
    return None;
  }

  /** `featfeat[k, c] = score` when the norm is nonzero. */
  method WriteScore(ff: array2<real>, k: nat, c: nat, score: Option<real>, ghost g: seq<seq<real>>)
    requires k < ff.Length0 && c < ff.Length1 && g == Grid(ff)
    modifies ff
    ensures Grid(ff) == Record(g, k, c, score)
  {
    if score.Some? {
      ff[k, c] := score.value;
      SameGrid(Grid(ff), Record(g, k, c, score));
    }
  }

  /** The first two steps on column (c, k), each written back into the
      tensor (the masked NaN of line 119 and the view write of line 127). */
  method OutlierSmooth(a: array3<Fp>, c: nat, k: nat, ghost t: seq<seq<seq<Fp>>>) returns (s: Result<seq<Fp>>)
    requires c < a.Length0 && k < a.Length2 == NFeat && t == Contents(a)
    modifies a
    ensures Shaped(t)
    ensures s == (var o :- Outliers(Column(t, c, k)); Smooth(o))
    ensures s.Ok? ==> Contents(a) == WithColumn(t, c, k, s.value)
  {
    var f := ReadColumn(a, c, k);
    var o := Outliers(f);
    if o.Raise? {
      return Raise(o.exc);
    }
    StoreColumn(a, c, k, o.value, t);
    s := Smooth(o.value);
    if s.Raise? {
      return;
    }
    ghost var t1 := Contents(a);
    StoreColumn(a, c, k, s.value, t1);
    WithColumnTwice(t, c, k, o.value, s.value);
  }

  /** A second write to the same column replaces the first. */
  lemma WithColumnTwice(t: seq<seq<seq<Fp>>>, c: nat, k: nat, x: seq<Fp>, y: seq<Fp>)
    requires Shaped(t) && c < |t| && k < NFeat && |x| == Epochs(t) && |y| == Epochs(t)
    ensures WithColumn(WithColumn(t, c, k, x), c, k, y) == WithColumn(t, c, k, y)
  {
    SameTensor(WithColumn(WithColumn(t, c, k, x), c, k, y), WithColumn(t, c, k, y));
  }

  /** Two grids of the same shape and entries are equal. */
  lemma SameGrid(g: seq<seq<real>>, h: seq<seq<real>>)
    requires |g| == |h| && forall k :: 0 <= k < |g| ==> |g[k]| == |h[k]|
    requires forall k, c :: 0 <= k < |g| && 0 <= c < |g[k]| ==> g[k][c] == h[k][c]
    ensures g == h
  {
    forall k | 0 <= k < |g|
      ensures g[k] == h[k]
    {
    }
  }

  /** The arrays hold the state the loops have reached at (c, k). */
  ghost predicate Reached(a: array3<Fp>, ff: array2<real>, step: seq<Fp> -> Result<Processed>,
                          s: seq<seq<seq<Fp>>>, c: nat, k: nat)
    reads a, ff
  {
    KeepsLength(step) && Shaped(s) && k <= NFeat && (c < |s| || (c == |s| && k == 0))
    && Pass(step, s, c, k).Ok?
    && Contents(a) == Pass(step, s, c, k).value.0 && Grid(ff) == Pass(step, s, c, k).value.1
  }

  /** Once a column step has raised, the loop stops with that exception. */
  lemma {:induction false} PassRaiseStays(step: seq<Fp> -> Result<Processed>, t: seq<seq<seq<Fp>>>, c: nat, k: nat, c2: nat, k2: nat)
    requires KeepsLength(step) && Shaped(t) && k <= NFeat && (c < |t| || (c == |t| && k == 0))
    requires k2 <= NFeat && (c2 < |t| || (c2 == |t| && k2 == 0))
    requires Before(c, k, c2, k2) || (c == c2 && k == k2)
    requires Pass(step, t, c, k).Raise?
    ensures Pass(step, t, c2, k2) == Raise(Pass(step, t, c, k).exc)
    decreases c2, k2
  {
    if c == c2 && k == k2 {
    } else if k2 == 0 {
      PassRaiseStays(step, t, c, k, c2 - 1, NFeat);
    } else {
      PassRaiseStays(step, t, c, k, c2, k2 - 1);
    }
  }

  /** The inner loop, over the features of channel c. */
  method ProcessChannel(a: array3<Fp>, ff: array2<real>, lib: MathLib, night: seq<bool>, c: nat,
                        ghost s: seq<seq<seq<Fp>>>, ghost step: seq<Fp> -> Result<Processed>)
    returns (e: Option<Exception>)
    requires c < a.Length0 && a.Length2 == NFeat && ff.Length0 == NFeat && ff.Length1 == a.Length0
    requires step == ColumnStep(lib, night) && |s| == a.Length0 && Reached(a, ff, step, s, c, 0)
    modifies a, ff
    ensures e.Some? ==> Pass(step, s, |s|, 0) == Raise(e.value)
    ensures e.None? ==> Reached(a, ff, step, s, c + 1, 0)
  {
    for k := 0 to NFeat
      invariant Reached(a, ff, step, s, c, k)
    {
      e := ProcessStep(a, ff, lib, night, c, k, s, step);
      if e.Some? {
        return;
      }
    }
    ReachedNextChannel(a, ff, step, s, c);
    e := None;
  }

  /** One turn of the `nf` loop, from the state the loops have reached at
      (c, k) to the one at (c, k + 1). */
  method ProcessStep(a: array3<Fp>, ff: array2<real>, lib: MathLib, night: seq<bool>, c: nat, k: nat,
                     ghost s: seq<seq<seq<Fp>>>, ghost step: seq<Fp> -> Result<Processed>)
    returns (e: Option<Exception>)
    requires c < a.Length0 && k < a.Length2 == NFeat && ff.Length0 == NFeat && ff.Length1 == a.Length0
    requires step == ColumnStep(lib, night) && |s| == a.Length0 && Reached(a, ff, step, s, c, k)
    modifies a, ff
    ensures e.Some? ==> Pass(step, s, |s|, 0) == Raise(e.value)
    ensures e.None? ==> Reached(a, ff, step, s, c, k + 1)
  {
    ghost var p := Pass(step, s, c, k).value;
    PassNext(step, s, c, k);
    assert step(Column(p.0, c, k)) == ProcessColumn(lib, Column(p.0, c, k), night);
    e := ProcessOne(a, ff, lib, night, c, k, p.0, p.1);
  }

  /** The step from (c, k) to (c, k + 1): column (c, k) is processed and
      written back, or its exception ends the loop. */
  lemma PassNext(step: seq<Fp> -> Result<Processed>, t: seq<seq<seq<Fp>>>, c: nat, k: nat)
    requires KeepsLength(step) && Shaped(t) && c < |t| && k < NFeat && Pass(step, t, c, k).Ok?
    ensures var p := Pass(step, t, c, k).value;
      var q := step(Column(p.0, c, k));
      (q.Raise? ==> Pass(step, t, |t|, 0) == Raise(q.exc))
      && (q.Ok? ==> Pass(step, t, c, k + 1) == Ok((WithColumn(p.0, c, k, q.value.column), Record(p.1, k, c, q.value.score))))
  {
    var p := Pass(step, t, c, k).value;
    if step(Column(p.0, c, k)).Raise? {
      PassRaiseStays(step, t, c, k + 1, |t|, 0);
    }
  }

  /** The state at the end of channel c is the one at the start of
      channel c + 1. */
  lemma ReachedNextChannel(a: array3<Fp>, ff: array2<real>, step: seq<Fp> -> Result<Processed>,
                           s: seq<seq<seq<Fp>>>, c: nat)
    requires c < |s| && Reached(a, ff, step, s, c, NFeat)
    ensures Reached(a, ff, step, s, c + 1, 0)
  {
    PassNextChannel(step, s, c);
  }

  /** Channel c + 1 starts from where channel c ends. */
  lemma PassNextChannel(step: seq<Fp> -> Result<Processed>, t: seq<seq<seq<Fp>>>, c: nat)
    requires KeepsLength(step) && Shaped(t) && c < |t|
    ensures Pass(step, t, c + 1, 0) == Pass(step, t, c, NFeat)
  {
  }

  /** `featfeat = np.zeros((Nfeat, Nch))`. */
  method ZeroGrid(nch: nat) returns (ff: array2<real>)
    ensures fresh(ff) && ff.Length0 == NFeat && ff.Length1 == nch
    ensures Grid(ff) == ZeroScores(nch)
  {
    ff := new real[NFeat, nch]((k, c) => 0.0);
    SameGrid(Grid(ff), ZeroScores(nch));
  }

  /** The `nch`/`nf` loop over the sanitized tensor `s`, stopping at the
      first exception. */
  method ProcessAll(a: array3<Fp>, ff: array2<real>, lib: MathLib, night: seq<bool>, ghost s: seq<seq<seq<Fp>>>)
    returns (e: Option<Exception>)
    requires a.Length2 == NFeat && ff.Length0 == NFeat && ff.Length1 == a.Length0
    requires s == Contents(a) && Grid(ff) == ZeroScores(a.Length0)
    modifies a, ff
    ensures Shaped(s) && KeepsLength(ColumnStep(lib, night))
    ensures e.Some? ==> Pass(ColumnStep(lib, night), s, |s|, 0) == Raise(e.value)
    ensures e.None? ==> Pass(ColumnStep(lib, night), s, |s|, 0).Ok?
    ensures e.None? ==> Contents(a) == Pass(ColumnStep(lib, night), s, |s|, 0).value.0
    ensures e.None? ==> Grid(ff) == Pass(ColumnStep(lib, night), s, |s|, 0).value.1
  {
    ghost var step := ColumnStep(lib, night);
    ColumnStepKeepsLength(lib, night);
    for c := 0 to a.Length0
      invariant Reached(a, ff, step, s, c, 0)
    {
      e := ProcessChannel(a, ff, lib, night, c, s, step);
      if e.Some? {
        return;
      }
    }
    e := None;
  }

  /** Lines 99-142 in place: the first pass, then the `nch`/`nf` loop. The
      tensor ends as the specification's, and so does `featfeat.T`; an
      exception in any column stops the script. */
  method Preprocess(a: array3<Fp>, lib: MathLib, night: seq<bool>) returns (r: Result<seq<seq<real>>>)
    requires a.Length2 == NFeat
    modifies a
    ensures Shaped(old(Contents(a)))
    ensures var p := PostProcessed(lib, old(Contents(a)), night);
      (r.Ok? <==> p.Ok?) && (r.Raise? ==> r.exc == p.exc)
      && (r.Ok? ==> Contents(a) == p.value.feature && r.value == p.value.scores)
  {
    ghost var t := Contents(a);
    Sanitize(a);
    ghost var s := Contents(a);
    var ff := ZeroGrid(a.Length0);
    var e := ProcessAll(a, ff, lib, night, s);
    PostProcessedOfPass(lib, t, night, s);
    if e.Some? {
      return Raise(e.value);
    }
    r := Ok(Transpose(Grid(ff), a.Length0));
  }

  /** The post-processing is the loop's outcome on the sanitized tensor. */
  lemma PostProcessedOfPass(lib: MathLib, t: seq<seq<seq<Fp>>>, night: seq<bool>, s: seq<seq<seq<Fp>>>)
    requires Shaped(t) && s == Sanitized(t)
    ensures Shaped(s) && KeepsLength(ColumnStep(lib, night))
    ensures var p := Pass(ColumnStep(lib, night), s, |s|, 0);
      PostProcessed(lib, t, night) == if p.Raise? then Raise(p.exc) else Ok(Cleaned(p.value.0, Transpose(p.value.1, |s|)))
  {
    ColumnStepKeepsLength(lib, night);
  }
}
