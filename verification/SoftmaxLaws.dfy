// What softmax and attention mean: the weights of a row are the one distribution in
// proportion to the exponentials of its scores, so a result lies among the values seen.
module SoftmaxLaws {
  import opened Prelude
  import opened Batch
  import opened Attention
  import opened GqaAttention

  // The greatest finite score of a row.
  ghost predicate Greatest(row: seq<Score>, top: real) {
    && (exists m :: 0 <= m < |row| && row[m] == Finite(top))
    && forall k | 0 <= k < |row| && row[k].Finite? :: row[k].value <= top
  }

  // Parts of a whole, none for a masked key, some for every other.
  ghost predicate Distribution(row: seq<Score>, ps: seq<real>) {
    && |ps| == |row| && Sum(ps) == 1.0
    && forall k | 0 <= k < |row| :: ps[k] >= 0.0 && (ps[k] == 0.0 <==> row[k].Masked?)
  }

  // The exponential of a score, less the row's greatest.
  function Raised(exp: Exponential, score: real, top: real): (w: real)
    ensures w > 0.0
  {
    exp(score - top)
  }

  // Weights stand to each other as the exponentials of their scores do.
  ghost predicate Proportional(exp: Exponential, row: seq<Score>, ps: seq<real>, top: real)
    requires |ps| == |row|
  {
    forall j, k | 0 <= j < |row| && 0 <= k < |row| && row[j].Finite? && row[k].Finite? ::
      Alike(exp, ps[j], row[j].value, ps[k], row[k].value, top)
  }

  ghost predicate Alike(exp: Exponential, p: real, x: real, q: real, y: real, top: real) {
    p * Raised(exp, y, top) == q * Raised(exp, x, top)
  }

  lemma AlikeTimes(exp: Exponential, p: real, x: real, q: real, y: real, top: real)
    ensures Alike(exp, p, x, q, y, top) <==> Times(p, Raised(exp, y, top)) == Times(q, Raised(exp, x, top))
  {
  }

  lemma {:induction false} HighestGreatest(row: seq<Score>)
    requires SomeFinite(row)
    ensures Greatest(row, Top(row))
  {
    HighestFinite(row);
    HighestAbove(row);
  }

  lemma {:induction false} HighestAbove(row: seq<Score>)
    ensures Highest(row).Finite? ==> Greatest(row, Highest(row).value)
    ensures Highest(row).Masked? ==> forall k | 0 <= k < |row| :: row[k].Masked?
  {
    if row != [] {
      var front := row[..|row| - 1];
      HighestAbove(front);
      if Highest(row).Finite? {
        var m :| 0 <= m < |row| && row[m] == Highest(row) by {
          if Highest(row) != Last(row) {
            var m :| 0 <= m < |front| && front[m] == Finite(Highest(front).value);
            assert row[m] == Highest(row);
          } else {
            assert row[|row| - 1] == Highest(row);
          }
        }
      }
    }
  }

  // ---- A product of reals, one law at a time ----

  ghost function Times(a: real, b: real): real { a * b }

  lemma TimesSpread(a: real, b: real, c: real)
    ensures Times(a + b, c) == Times(a, c) + Times(b, c) && Times(c, a + b) == Times(c, a) + Times(c, b)
    ensures Times(a, b) == Times(b, a)
  {
  }

  lemma TimesNothing(a: real)
    ensures Times(0.0, a) == 0.0 == Times(a, 0.0) && Times(a, 1.0) == a == Times(1.0, a)
  {
  }

  lemma TimesGrows(p: real, a: real, b: real)
    requires p >= 0.0 && a <= b
    ensures Times(p, a) <= Times(p, b) && Times(a, p) <= Times(b, p)
  {
    assert p * (b - a) >= 0.0;
  }

  lemma TimesEqual(a: real, b: real, c: real)
    requires c > 0.0 && Times(a, c) == Times(b, c)
    ensures a == b
  {
  }

  lemma Crosswise(a: real, b: real, total: real)
    ensures Times(a, Times(b, total)) == Times(b, Times(a, total))
  {
  }

  lemma {:induction false} SumShares(ws: seq<real>, ps: seq<real>, total: real)
    requires |ps| == |ws| && forall k | 0 <= k < |ws| :: Times(ps[k], total) == ws[k]
    ensures Times(Sum(ps), total) == Sum(ws)
  {
    hide Times;
    TimesNothing(total);
    if ws != [] {
      SumShares(ws[..|ws| - 1], ps[..|ps| - 1], total);
      TimesSpread(Sum(ps[..|ps| - 1]), Last(ps), total);
    }
  }

  // If every entry crosses with (p, w), so do the sums.
  lemma {:induction false} SumCrosses(ps: seq<real>, ws: seq<real>, p: real, w: real)
    requires |ps| == |ws| && forall j | 0 <= j < |ps| :: Times(ps[j], w) == Times(p, ws[j])
    ensures Times(Sum(ps), w) == Times(p, Sum(ws))
  {
    hide Times;
    TimesNothing(w);
    TimesNothing(p);
    if ps != [] {
      SumCrosses(ps[..|ps| - 1], ws[..|ws| - 1], p, w);
      TimesSpread(Sum(ps[..|ps| - 1]), Last(ps), w);
      TimesSpread(Sum(ws[..|ws| - 1]), Last(ws), p);
    }
  }

  // ---- Softmax ----

  lemma ShareTimes(w: real, total: real)
    requires total > 0.0
    ensures Times(Share(w, total), total) == w
    ensures w >= 0.0 ==> Share(w, total) >= 0.0
    ensures w > 0.0 ==> Share(w, total) > 0.0
  {
  }

  // What one weight is, times their sum.
  lemma SoftmaxTimes(exp: Exponential, row: seq<Score>, k: nat)
    requires SomeFinite(row) && k < |row|
    ensures Times(Softmax(exp, row)[k], Total(exp, row)) == Weight(exp, row[k], Top(row))
    ensures Softmax(exp, row)[k] >= 0.0 && (Softmax(exp, row)[k] == 0.0 <==> row[k].Masked?)
  {
    hide Share, Total, Top, SomeFinite, Times;
    ShareTimes(Weight(exp, row[k], Top(row)), Total(exp, row));
  }

  lemma WeightRaises(exp: Exponential, score: Score, top: real)
    ensures Weight(exp, score, top) == if score.Masked? then 0.0 else Raised(exp, score.value, top)
  {
  }

  lemma TopIs(row: seq<Score>, top: real)
    requires SomeFinite(row) && Greatest(row, top)
    ensures Top(row) == top
  {
    HighestGreatest(row);
  }

  // The weights before division, and their sum.
  lemma WeightsOf(exp: Exponential, row: seq<Score>, top: real) returns (ws: seq<real>)
    requires SomeFinite(row) && Greatest(row, top)
    ensures |ws| == |row| && Sum(ws) == Total(exp, row) > 0.0
    ensures forall k | 0 <= k < |row| :: ws[k] == Weight(exp, row[k], Top(row))
    ensures forall k | 0 <= k < |row| :: ws[k] == if row[k].Masked? then 0.0 else Raised(exp, row[k].value, top)
  {
    hide Weight, Raised, Top, Greatest, Sum;
    TopIs(row, top);
    ws := Weights(exp, row, Top(row));
    forall k | 0 <= k < |row| ensures ws[k] == if row[k].Masked? then 0.0 else Raised(exp, row[k].value, top) {
      WeightRaises(exp, row[k], top);
    }
  }

  // The weights of a row are a distribution, in proportion to the exponentials.
  lemma SoftmaxDistributes(exp: Exponential, row: seq<Score>, top: real)
    requires SomeFinite(row) && Greatest(row, top)
    ensures Distribution(row, Softmax(exp, row)) && Proportional(exp, row, Softmax(exp, row), top)
  {
    hide Softmax, Weight, Total, Top, SomeFinite, Greatest, Times, Sum, Share, Raised, Alike;
    var ps, total := Softmax(exp, row), Total(exp, row);
    var ws := WeightsOf(exp, row, top);
    forall k | 0 <= k < |row|
      ensures Times(ps[k], total) == ws[k] && ps[k] >= 0.0 && (ps[k] == 0.0 <==> row[k].Masked?)
    {
      SoftmaxTimes(exp, row, k);
    }
    SumShares(ws, ps, total);
    TimesNothing(total);
    TimesEqual(Sum(ps), 1.0, total);
    forall j, k | 0 <= j < |row| && 0 <= k < |row| && row[j].Finite? && row[k].Finite?
      ensures Alike(exp, ps[j], row[j].value, ps[k], row[k].value, top)
    {
      Crosswise(ps[j], ps[k], total);
      AlikeTimes(exp, ps[j], row[j].value, ps[k], row[k].value, top);
    }
  }

  // No other list has these properties.
  lemma SoftmaxOnly(exp: Exponential, row: seq<Score>, top: real, ps: seq<real>)
    requires SomeFinite(row) && Greatest(row, top) && Distribution(row, ps) && Proportional(exp, row, ps, top)
    ensures ps == Softmax(exp, row)
  {
    hide Softmax, Weight, Total, Top, SomeFinite, Greatest, Times, Share, Raised, Sum, Alike;
    var ws := WeightsOf(exp, row, top);
    var total := Total(exp, row);
    forall k | 0 <= k < |row| ensures ps[k] == Softmax(exp, row)[k] {
      SoftmaxTimes(exp, row, k);
      if row[k].Finite? {
        forall j | 0 <= j < |row| ensures Times(ps[j], ws[k]) == Times(ps[k], ws[j]) {
          if row[j].Masked? {
            TimesNothing(ws[k]);
            TimesNothing(ps[k]);
          } else {
            AlikeTimes(exp, ps[j], row[j].value, ps[k], row[k].value, top);
          }
        }
        SumCrosses(ps, ws, ps[k], ws[k]);
        TimesNothing(ws[k]);
        TimesEqual(ps[k], Softmax(exp, row)[k], total);
      }
    }
  }

  // ---- A result lies among the values seen ----

  lemma DotLast(ps: seq<real>, vs: seq<real>)
    requires |ps| == |vs|
    ensures Dot(ps, vs)
         == if ps == [] then 0.0 else Dot(ps[..|ps| - 1], vs[..|vs| - 1]) + Times(Last(ps), Last(vs))
  {
  }

  lemma {:induction false} DotBetween(ps: seq<real>, vs: seq<real>, lo: real, hi: real)
    requires |ps| == |vs|
    requires forall k | 0 <= k < |ps| :: ps[k] >= 0.0 && (ps[k] > 0.0 ==> lo <= vs[k] <= hi)
    ensures Times(lo, Sum(ps)) <= Dot(ps, vs) <= Times(hi, Sum(ps))
  {
    hide Times, Dot;
    DotLast(ps, vs);
    TimesNothing(lo);
    TimesNothing(hi);
    if ps != [] {
      var front := Sum(ps[..|ps| - 1]);
      DotBetween(ps[..|ps| - 1], vs[..|vs| - 1], lo, hi);
      Between(Last(ps), Last(vs), lo, hi);
      TimesSpread(front, Last(ps), lo);
      TimesSpread(front, Last(ps), hi);
    }
  }

  lemma Between(p: real, v: real, lo: real, hi: real)
    requires p >= 0.0 && (p > 0.0 ==> lo <= v <= hi)
    ensures Times(lo, p) <= Times(p, v) <= Times(hi, p)
  {
    hide Times;
    if p > 0.0 {
      TimesGrows(p, lo, v);
      TimesGrows(p, v, hi);
      TimesSpread(p, lo, 0.0);
      TimesSpread(p, hi, 0.0);
    } else {
      TimesNothing(lo);
      TimesNothing(v);
      TimesNothing(hi);
    }
  }

  // The keys that show hold values in [lo, hi].
  ghost predicate SeenWithin(layer: Layer, xs: seq<Placed>, row: seq<Score>, h: nat, c: nat, lo: real, hi: real)
    requires |row| == |xs|
  {
    forall k | 0 <= k < |xs| && row[k].Finite? :: lo <= layer.value(h, c, xs[k].x.v) <= hi
  }

  lemma HeadBetween(exp: Exponential, layer: Layer, xs: seq<Placed>, row: seq<Score>, h: nat, c: nat, lo: real,
                    hi: real)
    requires |row| == |xs| && SomeFinite(row) && c < layer.dim && SeenWithin(layer, xs, row, h, c, lo, hi)
    ensures lo <= AttendHead(exp, layer, xs, row, h)[c] <= hi
  {
    HighestGreatest(row);
    SoftmaxDistributes(exp, row, Top(row));
    hide Softmax, Top, SomeFinite, Highest, Greatest, Proportional, Times, Dot, Sum;
    DotBetween(Softmax(exp, row), Values(layer, xs, h, c), lo, hi);
    TimesNothing(lo);
    TimesNothing(hi);
  }

  // A token of a sentence alone: it sees every key, or every key so far.
  lemma AttendBetween(exp: Exponential, layer: Layer, xs: seq<Placed>, q: nat, h: nat, c: nat, lo: real, hi: real)
    requires q < |xs| && h < layer.heads && c < layer.dim
    requires forall k | 0 <= k < |xs| && (layer.causal ==> k <= q) :: lo <= layer.value(h, c, xs[k].x.v) <= hi
    ensures lo <= AttendToken(exp, layer, xs, q)[h][c] <= hi
  {
    hide AttendHead;
    HeadBetween(exp, layer, xs, Scores(layer, xs, h, q), h, c, lo, hi);
  }

  // A token of a masked window: it sees what the mask shows of these.
  lemma WindowBetween(exp: Exponential, layer: Layer, xs: seq<Placed>, mask: seq<MaskEntry>, q: nat, h: nat, c: nat,
                      lo: real, hi: real)
    requires q < |xs| == |mask| && mask[0] == Zero && h < layer.heads && c < layer.dim
    requires forall k | 0 <= k < |xs| && (layer.causal ==> k <= q) && mask[k] == Zero ::
      lo <= layer.value(h, c, xs[k].x.v) <= hi
    ensures lo <= WindowToken(exp, layer, xs, mask, q)[h][c] <= hi
  {
    hide AttendHead;
    FirstKeyOpen(layer, xs, mask, h, q);
    HeadBetween(exp, layer, xs, WindowScores(layer, xs, mask, h, q), h, c, lo, hi);
  }

  // ---- What a token of a sentence attends to ----

  ghost predicate Sees(layer: Layer, q: nat, k: nat) { layer.causal ==> k <= q }

  // How token q's query compares with token k's key in head h.
  ghost function ScoreOf(layer: Layer, xs: seq<Placed>, h: nat, q: nat, k: nat): real
    requires q < |xs| && k < |xs|
  {
    layer.score(h, xs[q].x.q, xs[q].at, xs[k].x.k, xs[k].at)
  }

  ghost predicate GreatestSeen(layer: Layer, xs: seq<Placed>, h: nat, q: nat, top: real)
    requires q < |xs|
  {
    && (exists k :: 0 <= k < |xs| && Sees(layer, q, k) && ScoreOf(layer, xs, h, q, k) == top)
    && forall k | 0 <= k < |xs| && Sees(layer, q, k) :: ScoreOf(layer, xs, h, q, k) <= top
  }

  // A share of the attention for every token seen, in proportion to the exponential of its score.
  ghost predicate Attends(exp: Exponential, layer: Layer, xs: seq<Placed>, h: nat, q: nat, top: real, ps: seq<real>)
    requires q < |xs|
  {
    |ps| == |xs| && Sum(ps) == 1.0 && SharesSeen(layer, q, ps) && InProportion(exp, layer, xs, h, q, top, ps)
  }

  ghost predicate SharesSeen(layer: Layer, q: nat, ps: seq<real>) {
    forall k | 0 <= k < |ps| :: ps[k] >= 0.0 && (ps[k] > 0.0 <==> Sees(layer, q, k))
  }

  ghost predicate InProportion(exp: Exponential, layer: Layer, xs: seq<Placed>, h: nat, q: nat, top: real,
                               ps: seq<real>)
    requires q < |xs| == |ps|
  {
    forall j, k | 0 <= j < |xs| && 0 <= k < |xs| && Sees(layer, q, j) && Sees(layer, q, k) ::
      Alike(exp, ps[j], ScoreOf(layer, xs, h, q, j), ps[k], ScoreOf(layer, xs, h, q, k), top)
  }

  // There is one such sharing, and each component of a head is the values shared by it.
  lemma AttendMeans(exp: Exponential, layer: Layer, xs: seq<Placed>, h: nat, q: nat, top: real, ps: seq<real>)
    requires q < |xs| && h < layer.heads && GreatestSeen(layer, xs, h, q, top)
    ensures Attends(exp, layer, xs, h, q, top, ps) <==> ps == Softmax(exp, Scores(layer, xs, h, q))
    ensures Attends(exp, layer, xs, h, q, top, ps) ==> forall c | 0 <= c < layer.dim ::
      AttendToken(exp, layer, xs, q)[h][c] == Dot(ps, Values(layer, xs, h, c))
  {
    hide Softmax, SomeFinite, Dot, Attends, Distribution, Proportional, Scores, GreatestSeen, Greatest;
    var row := Scores(layer, xs, h, q);
    RowSeen(layer, xs, h, q, top);
    SoftmaxDistributes(exp, row, top);
    AttendsIs(exp, layer, xs, h, q, top, ps);
    AttendsIs(exp, layer, xs, h, q, top, Softmax(exp, row));
    if Attends(exp, layer, xs, h, q, top, ps) { SoftmaxOnly(exp, row, top, ps); }
    assert AttendToken(exp, layer, xs, q)[h] == AttendHead(exp, layer, xs, row, h);
  }

  lemma AttendsIs(exp: Exponential, layer: Layer, xs: seq<Placed>, h: nat, q: nat, top: real, ps: seq<real>)
    requires q < |xs| && GreatestSeen(layer, xs, h, q, top)
    ensures var row := Scores(layer, xs, h, q);
      Attends(exp, layer, xs, h, q, top, ps) <==> Distribution(row, ps) && Proportional(exp, row, ps, top)
  {
    hide Alike, Scores, ScoreOf, GreatestSeen, Sees, InProportion, Proportional;
    RowSeen(layer, xs, h, q, top);
    var row := Scores(layer, xs, h, q);
    if |ps| == |xs| {
      assert SharesSeen(layer, q, ps) <==>
        forall k | 0 <= k < |row| :: ps[k] >= 0.0 && (ps[k] == 0.0 <==> row[k].Masked?);
      ProportionIs(exp, layer, xs, h, q, top, ps);
    }
  }

  lemma ProportionIs(exp: Exponential, layer: Layer, xs: seq<Placed>, h: nat, q: nat, top: real, ps: seq<real>)
    requires q < |xs| == |ps| && GreatestSeen(layer, xs, h, q, top)
    ensures InProportion(exp, layer, xs, h, q, top, ps) <==> Proportional(exp, Scores(layer, xs, h, q), ps, top)
  {
    hide Alike, Scores, ScoreOf, GreatestSeen, Sees;
    RowSeen(layer, xs, h, q, top);
    var row := Scores(layer, xs, h, q);
    if Proportional(exp, row, ps, top) {
      forall j, k | 0 <= j < |xs| && 0 <= k < |xs| && Sees(layer, q, j) && Sees(layer, q, k)
        ensures Alike(exp, ps[j], ScoreOf(layer, xs, h, q, j), ps[k], ScoreOf(layer, xs, h, q, k), top)
      {
        assert row[j].Finite? && row[k].Finite?;
      }
    }
  }

  lemma RowSeen(layer: Layer, xs: seq<Placed>, h: nat, q: nat, top: real)
    requires q < |xs| && GreatestSeen(layer, xs, h, q, top)
    ensures var row := Scores(layer, xs, h, q);
      && Greatest(row, top)
      && forall k | 0 <= k < |xs| ::
           row[k] == if Sees(layer, q, k) then Finite(ScoreOf(layer, xs, h, q, k)) else Masked
  {
    hide SomeFinite;
    var row := Scores(layer, xs, h, q);
    forall k | 0 <= k < |xs|
      ensures row[k] == if Sees(layer, q, k) then Finite(ScoreOf(layer, xs, h, q, k)) else Masked
    {
      assert row[k] == Compare(layer, h, xs[q], q, xs[k], k);
    }
    hide Sees, ScoreOf, Scores;
    var m :| 0 <= m < |xs| && Sees(layer, q, m) && ScoreOf(layer, xs, h, q, m) == top;
    assert row[m] == Finite(top);
  }

  // ---- The core over a batch ----

  // Whether the core works sentence by sentence, and where tokens then lie.
  predicate BySentence(B: nat, lengths: Option<seq<nat>>, offsets: Option<seq<nat>>) {
    lengths.Some? && (B > 1 || offsets.Some?)
  }

  function Places(S: nat, B: nat, lengths: Option<seq<nat>>, offsets: Option<seq<nat>>): Layout {
    if BySentence(B, lengths, offsets) && offsets.Some? then Stream(offsets.value) else Window(S)
  }

  // The first n keys of sentence b that query s may look at hold values in [lo, hi].
  ghost predicate KeysWithin(layer: Layer, x: seq<Qkv>, layout: Layout, shows: seq<MaskEntry>, b: nat, s: nat, h: nat,
                             c: nat, lo: real, hi: real)
    requires layout.Stream? ==> b < |layout.offsets|
  {
    forall k | 0 <= k < |shows| && (layer.causal ==> k <= s) && shows[k] == Zero ::
      At(layout, b, k) < |x| && lo <= layer.value(h, c, x[At(layout, b, k)].v) <= hi
  }

  lemma PartsBetween(exp: Exponential, layer: Layer, x: seq<Qkv>, placed: seq<Placed>, layout: Layout,
                     lengths: seq<nat>, shows: seq<MaskEntry>, b: nat, s: nat, h: nat, c: nat, lo: real, hi: real)
    requires LayoutFits(layout, |placed|, lengths) && LengthsOk(layout, lengths) && b < |lengths| && s < lengths[b]
    requires h < layer.heads && c < layer.dim && |shows| == lengths[b]
    requires forall k | 0 <= k < |shows| :: shows[k] == Zero
    requires |placed| == |x| && forall i | 0 <= i < |x| :: placed[i].x == x[i]
    requires layout.Stream? ==> b < |layout.offsets|
    requires KeysWithin(layer, x, layout, shows, b, s, h, c, lo, hi)
    ensures var out := Join(Parts(exp, layer, placed, layout, lengths));
      At(layout, b, s) < |out| && |out[At(layout, b, s)]| == layer.heads && |out[At(layout, b, s)][h]| == layer.dim
      && lo <= out[At(layout, b, s)][h][c] <= hi
  {
    hide *;
    var slice := Sentence(placed, layout, lengths, b);
    PartAt(exp, layer, placed, layout, lengths, b, s);
    forall k | 0 <= k < |slice| && (layer.causal ==> k <= s) ensures lo <= layer.value(h, c, slice[k].x.v) <= hi {
      KeyAt(layer, x, layout, shows, b, s, h, c, lo, hi, k);
      SentenceKey(placed, layout, lengths, b, k);
    }
    AttendBetween(exp, layer, slice, s, h, c, lo, hi);
  }

  lemma KeyAt(layer: Layer, x: seq<Qkv>, layout: Layout, shows: seq<MaskEntry>, b: nat, s: nat, h: nat, c: nat,
              lo: real, hi: real, k: nat)
    requires layout.Stream? ==> b < |layout.offsets|
    requires KeysWithin(layer, x, layout, shows, b, s, h, c, lo, hi)
    requires k < |shows| && (layer.causal ==> k <= s) && shows[k] == Zero
    ensures At(layout, b, k) < |x| && lo <= layer.value(h, c, x[At(layout, b, k)].v) <= hi
  {
    hide At;
  }

  lemma SentenceKey(placed: seq<Placed>, layout: Layout, lengths: seq<nat>, b: nat, k: nat)
    requires LayoutFits(layout, |placed|, lengths) && LengthsOk(layout, lengths) && b < |lengths| && k < lengths[b]
    ensures layout.Stream? ==> b < |layout.offsets|
    ensures At(layout, b, k) < |placed| && Sentence(placed, layout, lengths, b)[k] == placed[At(layout, b, k)]
  {
    SentenceBounds(layout, |placed|, lengths, b);
    hide LayoutFits;
  }

  lemma PartAt(exp: Exponential, layer: Layer, placed: seq<Placed>, layout: Layout, lengths: seq<nat>, b: nat, s: nat)
    requires LayoutFits(layout, |placed|, lengths) && LengthsOk(layout, lengths) && b < |lengths| && s < lengths[b]
    ensures layout.Stream? ==> b < |layout.offsets|
    ensures var out := Join(Parts(exp, layer, placed, layout, lengths));
      At(layout, b, s) < |out|
      && out[At(layout, b, s)] == AttendToken(exp, layer, Sentence(placed, layout, lengths, b), s)
  {
    hide Join, LayoutFits, AttendToken, Sentence;
    SentenceBounds(layout, |placed|, lengths, b);
    PartsStart(exp, layer, placed, layout, lengths, b);
    JoinAt(Parts(exp, layer, placed, layout, lengths), b, s);
  }

  lemma WindowedBetween(exp: Exponential, layer: Layer, x: seq<Qkv>, placed: seq<Placed>, mask: Option<seq<MaskEntry>>,
                        S: nat, B: nat, b: nat, s: nat, h: nat, c: nat, lo: real, hi: real)
    requires S > 0 && |placed| == S * B && MaskOpen(mask, S, S * B) && b < B && s < S
    requires h < layer.heads && c < layer.dim
    requires |placed| == |x| && forall i | 0 <= i < |x| :: placed[i].x == x[i]
    requires MaskRowFits(mask, S, Cell(S, b, s))
    requires KeysWithin(layer, x, Window(S), MaskRow(mask, S, Cell(S, b, s)), b, s, h, c, lo, hi)
    ensures var out := Windowed(exp, layer, placed, mask, S, B);
      Cell(S, b, s) < |out| && |out[Cell(S, b, s)]| == layer.heads && |out[Cell(S, b, s)][h]| == layer.dim
      && lo <= out[Cell(S, b, s)][h][c] <= hi
  {
    hide *;
    CellToken(exp, layer, placed, mask, S, B, b, s);
    var slice, shows := placed[Cell(S, b, 0)..Cell(S, b, 0) + S], MaskRow(mask, S, Cell(S, b, s));
    forall k | 0 <= k < |slice| && (layer.causal ==> k <= s) && shows[k] == Zero
      ensures lo <= layer.value(h, c, slice[k].x.v) <= hi
    {
      KeyAt(layer, x, Window(S), shows, b, s, h, c, lo, hi, k);
      WindowKey(x, placed, S, b, k);
    }
    WindowBetween(exp, layer, slice, shows, s, h, c, lo, hi);
  }

  lemma CellToken(exp: Exponential, layer: Layer, placed: seq<Placed>, mask: Option<seq<MaskEntry>>, S: nat,
                       B: nat, b: nat, s: nat)
    requires S > 0 && |placed| == S * B && MaskOpen(mask, S, S * B) && b < B && s < S
    ensures Cell(S, b, s) < |placed| && Cell(S, b, 0) + S <= |placed| && MaskRowFits(mask, S, Cell(S, b, s))
    ensures MaskRow(mask, S, Cell(S, b, s))[0] == Zero
    ensures Windowed(exp, layer, placed, mask, S, B)[Cell(S, b, s)]
         == WindowToken(exp, layer, placed[Cell(S, b, 0)..Cell(S, b, 0) + S], MaskRow(mask, S, Cell(S, b, s)), s)
  {
    hide *;
    CellBelow(S, B, b, s);
    TokensFit(mask, S, B, Cell(S, b, s));
    TokenFacts(|placed|, mask, S, b, s);
    WindowedIs(exp, layer, placed, mask, S, Cell(S, b, s));
  }

  lemma WindowKey(x: seq<Qkv>, placed: seq<Placed>, S: nat, b: nat, k: nat)
    requires |placed| == |x| && forall i | 0 <= i < |x| :: placed[i].x == x[i]
    requires Cell(S, b, 0) + S <= |x| && k < S
    ensures At(Window(S), b, k) < |x|
    ensures placed[Cell(S, b, 0)..Cell(S, b, 0) + S][k].x == x[At(Window(S), b, k)]
  {
    CellFrom(S, b, k);
    hide Cell;
  }

  lemma CellFrom(S: nat, b: nat, k: nat)
    ensures Cell(S, b, k) == Cell(S, b, 0) + k
  {
  }

  // Whatever the form, each component the core gives a token lies between the least and
  // the greatest value of the keys it is shown.
  lemma CoreBetween(exp: Exponential, layer: Layer, x: seq<Qkv>, S: nat, B: nat, pos: Option<seq<nat>>,
                    mask: Option<seq<MaskEntry>>, lengths: Option<seq<nat>>, offsets: Option<seq<nat>>,
                    shows: seq<MaskEntry>, b: nat, s: nat, h: nat, c: nat, lo: real, hi: real)
    requires CoreFits(|x|, S, B, pos, mask, lengths, offsets) && h < layer.heads && c < layer.dim
    requires CoreResult(exp, layer, x, S, B, pos, mask, lengths, offsets).Ok?
    requires if BySentence(B, lengths, offsets)
             then b < |lengths.value| && s < lengths.value[b] && shows == seq(lengths.value[b], _ => Zero)
             else b < B && s < S && MaskRowFits(mask, S, Cell(S, b, s)) && shows == MaskRow(mask, S, Cell(S, b, s))
    requires Places(S, B, lengths, offsets).Stream? ==> b < |offsets.value|
    requires KeysWithin(layer, x, Places(S, B, lengths, offsets), shows, b, s, h, c, lo, hi)
    ensures var out := CoreResult(exp, layer, x, S, B, pos, mask, lengths, offsets).value;
      var i := At(Places(S, B, lengths, offsets), b, s);
      i < |out| && |out[i]| == layer.heads && |out[i][h]| == layer.dim && lo <= out[i][h][c] <= hi
  {
    hide Parts, Join, Windowed, MaskOpen, LayoutFits, KeysWithin, MaskRow;
    var placed := Situate(layer, x, pos, S);
    if BySentence(B, lengths, offsets) {
      PartsBetween(exp, layer, x, placed, Places(S, B, lengths, offsets), lengths.value, shows, b, s, h, c, lo, hi);
    } else {
      WindowedBetween(exp, layer, x, placed, mask, S, B, b, s, h, c, lo, hi);
    }
  }
}
