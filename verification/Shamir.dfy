/** Shamir sharing over the scalar field: polynomials, Lagrange weights at zero, and the theorem
    that makes every reconstruction in the wallet work. */
module Shamir {
  import opened Modular

  // ---- polynomials ----------------------------------------------------------------------------

  /** The polynomial with the given coefficients, constant term first, at `x`. */
  function Eval(p: seq<int>, x: int): int {
    if p == [] then 0 else p[0] + Times(x, Eval(p[1..], x))
  }

  function ConstantTerm(p: seq<int>): int {
    if p == [] then 0 else p[0]
  }

  /** What is left of `p` after dividing `p - p(c)` by `x - c`. */
  function Deflate(p: seq<int>, c: int): (r: seq<int>)
    ensures |r| == if p == [] then 0 else |p| - 1
  {
    if |p| <= 1 then [] else [Eval(p[1..], c)] + Deflate(p[1..], c)
  }

  lemma {:induction false} DeflateDivides(p: seq<int>, c: int, x: int)
    ensures Eval(p, x) == Eval(p, c) + Times(x - c, Eval(Deflate(p, c), x))
  {
    if |p| == 1 {
      assert p[1..] == [];
    } else if |p| > 1 {
      var t := p[1..];
      DeflateDivides(t, c, x);
      var d := Deflate(p, c);
      assert d[0] == Eval(t, c) && d[1..] == Deflate(t, c);
      DeflateStep(x, c, Eval(t, c), Eval(Deflate(t, c), x));
    }
  }

  lemma DeflateStep(x: int, c: int, v: int, s: int)
    ensures Times(x, v + Times(x - c, s)) == Times(c, v) + Times(x - c, v + Times(x, s))
  {
    assert x * ((x - c) * s) == (x - c) * (x * s);
    assert x * (v + (x - c) * s) == x * v + x * ((x - c) * s);
    assert (x - c) * (v + x * s) == (x - c) * v + (x - c) * (x * s);
  }

  lemma EvalOne(x: int)
    ensures Eval([1], x) == 1
  {
    assert [1][1..] == [];
  }

  lemma EvalAtZero(p: seq<int>)
    ensures Eval(p, 0) == ConstantTerm(p)
  {
  }

  // ---- Lagrange weights -----------------------------------------------------------------------

  /** Share indices: distinct non-zero scalars. */
  predicate Nodes(q: int, xs: seq<int>) {
    && (forall i :: 0 <= i < |xs| ==> 0 < xs[i] < q)
    && (forall i, j :: 0 <= i < j < |xs| ==> xs[i] != xs[j])
  }

  ghost predicate InFieldAll(q: int, xs: seq<int>) {
    forall i :: 0 <= i < |xs| ==> InField(q, xs[i])
  }

  /** The product of the nodes other than `m`. */
  function Num(xs: seq<int>, m: int): int {
    if xs == [] then 1
    else var c := xs[|xs| - 1]; Times(Num(xs[..|xs| - 1], m), if c == m then 1 else c)
  }

  /** The product of the differences between the nodes other than `m` and `m`. */
  function Den(xs: seq<int>, m: int): int {
    if xs == [] then 1
    else var c := xs[|xs| - 1]; Times(Den(xs[..|xs| - 1], m), if c == m then 1 else c - m)
  }

  lemma NumSnoc(xs: seq<int>, c: int, m: int)
    ensures Num(xs + [c], m) == Times(Num(xs, m), if c == m then 1 else c)
  {
    assert (xs + [c])[..|xs|] == xs;
  }

  lemma DenSnoc(xs: seq<int>, c: int, m: int)
    ensures Den(xs + [c], m) == Times(Den(xs, m), if c == m then 1 else c - m)
  {
    assert (xs + [c])[..|xs|] == xs;
  }

  lemma {:induction false} DenNonZero(q: int, xs: seq<int>, m: int)
    requires FieldOrder(q) && InFieldAll(q, xs) && InField(q, m)
    ensures Den(xs, m) % q != 0
  {
    if xs != [] {
      var c := xs[|xs| - 1];
      DenNonZero(q, xs[..|xs| - 1], m);
      if c != m {
        DifferenceIsNotZero(q, c, m);
        ProductIsNotZero(q, Den(xs[..|xs| - 1], m), c - m);
      }
    }
  }

  lemma {:induction false} NumNonZero(q: int, xs: seq<int>, m: int)
    requires FieldOrder(q) && Nodes(q, xs)
    ensures Num(xs, m) % q != 0
  {
    if xs != [] {
      var c := xs[|xs| - 1];
      NumNonZero(q, xs[..|xs| - 1], m);
      if c != m {
        NonZeroScalar(q, c);
        ProductIsNotZero(q, Num(xs[..|xs| - 1], m), c);
      }
    }
  }

  /** The Lagrange coefficient of node `m` at zero: numerator times inverse of denominator. */
  function Weight(q: int, xs: seq<int>, m: int): int
    requires FieldOrder(q) && InFieldAll(q, xs) && InField(q, m)
  {
    DenNonZero(q, xs, m);
    Times(Num(xs, m), Inverse(q, Den(xs, m)))
  }

  /** The defining property: the weight times the denominator is the numerator. */
  lemma WeightTimesDen(q: int, xs: seq<int>, m: int)
    requires FieldOrder(q) && InFieldAll(q, xs) && InField(q, m)
    ensures Den(xs, m) % q != 0
    ensures Cong(q, Times(Den(xs, m), Weight(q, xs, m)), Num(xs, m))
  {
    hide Times, Cong, IsPrime;
    DenNonZero(q, xs, m);
    QuotientAlgebra(q, Num(xs, m), Den(xs, m), Inverse(q, Den(xs, m)));
  }

  lemma QuotientAlgebra(q: int, n: int, d: int, inv: int)
    requires 0 < q && Cong(q, d * inv, 1)
    ensures Cong(q, Times(d, Times(n, inv)), n)
  {
    hide Cong;
    CongScale(q, n, d * inv, 1);
    assert d * (n * inv) == n * (d * inv);
  }

  /** A weight is never zero, because no node is. */
  lemma WeightNonZero(q: int, xs: seq<int>, m: int)
    requires FieldOrder(q) && Nodes(q, xs) && InField(q, m)
    ensures Weight(q, xs, m) % q != 0
  {
    NumNonZero(q, xs, m);
    WeightTimesDen(q, xs, m);
    ZeroFactor(q, Num(xs, m), Den(xs, m), Weight(q, xs, m));
  }

  lemma ZeroFactor(q: int, n: int, d: int, w: int)
    requires 0 < q && Cong(q, Times(d, w), n) && n % q != 0
    ensures w % q != 0
  {
    if w % q == 0 {
      CongScale(q, d, w, 0);
      CongSym(q, d * w, n);
      CongTrans(q, n, d * w, d * 0);
    }
  }

  /** How a weight changes when one more node joins. */
  lemma WeightPeel(q: int, xs: seq<int>, c: int, m: int)
    requires FieldOrder(q) && InFieldAll(q, xs) && InField(q, c) && InField(q, m) && c != m
    ensures InFieldAll(q, xs + [c])
    ensures Cong(q, Times(c - m, Weight(q, xs + [c], m)), Times(c, Weight(q, xs, m)))
  {
    hide Times, Cong, Weight, IsPrime;
    NumSnoc(xs, c, m);
    DenSnoc(xs, c, m);
    WeightTimesDen(q, xs, m);
    WeightTimesDen(q, xs + [c], m);
    PeelAlgebra(q, Num(xs, m), Den(xs, m), Weight(q, xs, m), Weight(q, xs + [c], m), c, c - m);
  }

  lemma PeelAlgebra(q: int, n: int, d: int, w: int, w': int, c: int, e: int)
    requires FieldOrder(q) && d % q != 0
    requires Cong(q, Times(d, w), n) && Cong(q, Times(Times(d, e), w'), Times(n, c))
    ensures Cong(q, Times(e, w'), Times(c, w))
  {
    hide Cong, IsPrime;
    CongScale(q, c, d * w, n);
    assert c * (d * w) == d * (c * w);
    assert (d * e) * w' == d * (e * w');
    assert c * n == n * c;
    CongSym(q, d * (c * w), n * c);
    CongTrans(q, d * (e * w'), n * c, d * (c * w));
    Cancel(q, d, e * w', c * w);
  }

  /** The order of the last two nodes does not matter to a weight. */
  lemma WeightSwap(q: int, xs: seq<int>, a: int, b: int, m: int)
    requires FieldOrder(q) && InFieldAll(q, xs + [b, a]) && InFieldAll(q, xs + [a, b]) && InField(q, m)
    ensures Weight(q, xs + [b, a], m) == Weight(q, xs + [a, b], m)
  {
    SwapNodes(xs, a, b, m);
  }

  lemma ProductSwap(x: int, a: int, b: int)
    ensures Times(Times(x, a), b) == Times(Times(x, b), a)
  {
  }

  lemma SwapNodes(xs: seq<int>, a: int, b: int, m: int)
    ensures Num(xs + [b, a], m) == Num(xs + [a, b], m)
    ensures Den(xs + [b, a], m) == Den(xs + [a, b], m)
  {
    hide Times;
    assert xs + [b, a] == (xs + [b]) + [a] && xs + [a, b] == (xs + [a]) + [b];
    NumSnoc(xs, a, m);
    NumSnoc(xs, b, m);
    NumSnoc(xs + [a], b, m);
    NumSnoc(xs + [b], a, m);
    DenSnoc(xs, a, m);
    DenSnoc(xs, b, m);
    DenSnoc(xs + [a], b, m);
    DenSnoc(xs + [b], a, m);
    ProductSwap(Num(xs, m), if a == m then 1 else a, if b == m then 1 else b);
    ProductSwap(Den(xs, m), if a == m then 1 else a - m, if b == m then 1 else b - m);
  }

  // ---- weighted sums --------------------------------------------------------------------------

  /** The values of `p` at the nodes of `part`, weighted by their coefficients among `all`. */
  function BlendPoly(q: int, part: seq<int>, all: seq<int>, p: seq<int>): int
    requires FieldOrder(q) && InFieldAll(q, part) && InFieldAll(q, all)
  {
    if part == [] then 0
    else
      var m := part[|part| - 1];
      BlendPoly(q, part[..|part| - 1], all, p) + Times(Eval(p, m), Weight(q, all, m))
  }

  lemma BlendSnoc(q: int, part: seq<int>, m: int, all: seq<int>, p: seq<int>)
    requires FieldOrder(q) && InFieldAll(q, part) && InFieldAll(q, all) && InField(q, m)
    ensures InFieldAll(q, part + [m])
    ensures BlendPoly(q, part + [m], all, p) == BlendPoly(q, part, all, p) + Times(Eval(p, m), Weight(q, all, m))
  {
    assert (part + [m])[..|part|] == part;
  }

  /** Neville's step on a part of the nodes: the blend over all of them, scaled by the difference
      of two nodes, is a combination of the blends that leave one of the two out. */
  lemma {:induction false} NevillePart(q: int, part: seq<int>, xs: seq<int>, a: int, b: int)
    requires FieldOrder(q) && InFieldAll(q, part) && InFieldAll(q, xs) && InField(q, a) && InField(q, b)
    requires a !in part && b !in part
    ensures Cong(q, Times(b - a, BlendPoly(q, part, xs + [b, a], [1])),
                 Times(b, BlendPoly(q, part, xs + [a], [1])) - Times(a, BlendPoly(q, part, xs + [b], [1])))
  {
    hide Times, Cong, Weight, IsPrime;
    if part == [] {
      TimesZero(b - a);
      TimesZero(b);
      TimesZero(a);
      CongRefl(q, 0);
    } else {
      var m, rest := part[|part| - 1], part[..|part| - 1];
      NevillePart(q, rest, xs, a, b);
      assert m in part;
      assert xs + [b, a] == (xs + [b]) + [a] && xs + [a, b] == (xs + [a]) + [b];
      WeightPeel(q, xs + [b], a, m);
      WeightPeel(q, xs + [a], b, m);
      WeightSwap(q, xs, a, b, m);
      EvalOne(m);
      NevillePartAlgebra(q, a, b, m,
        BlendPoly(q, rest, xs + [b, a], [1]), BlendPoly(q, rest, xs + [a], [1]), BlendPoly(q, rest, xs + [b], [1]),
        Weight(q, xs + [b, a], m), Weight(q, xs + [a], m), Weight(q, xs + [b], m));
    }
  }

  lemma NevillePartAlgebra(q: int, a: int, b: int, m: int, r: int, ra: int, rb: int, w: int, wa: int, wb: int)
    requires 0 < q
    requires Cong(q, Times(b - a, r), Times(b, ra) - Times(a, rb))
    requires Cong(q, Times(b - m, w), Times(b, wa)) && Cong(q, Times(a - m, w), Times(a, wb))
    ensures Cong(q, Times(b - a, r + Times(1, w)), Times(b, ra + Times(1, wa)) - Times(a, rb + Times(1, wb)))
  {
    hide Times, Cong;
    CongSub(q, Times(b - m, w), Times(b, wa), Times(a - m, w), Times(a, wb));
    TimesDifferenceOfTwo(a, b, m, w);
    CongAdd(q, Times(b - a, r), Times(b, ra) - Times(a, rb), Times(b - a, w), Times(b, wa) - Times(a, wb));
    TimesSum(b - a, r, w);
    TimesSum(b, ra, wa);
    TimesSum(a, rb, wb);
  }

  lemma TimesDifferenceOfTwo(a: int, b: int, m: int, w: int)
    ensures Times(b - m, w) - Times(a - m, w) == Times(b - a, w)
  {
  }

  lemma TimesZero(x: int)
    ensures Times(x, 0) == 0
  {
  }

  lemma TimesSum(x: int, y: int, z: int)
    ensures Times(x, y + Times(1, z)) == Times(x, y) + Times(x, z)
    ensures Times(1, z) == z
  {
  }

  lemma LoneWeight(q: int, m: int)
    requires FieldOrder(q) && InField(q, m)
    ensures InFieldAll(q, [m]) && Cong(q, BlendPoly(q, [m], [m], [1]), 1)
  {
    hide Times, Cong, IsPrime;
    assert [m][..0] == [];
    EvalOne(m);
    TimesSum(1, 0, 1);
    BlendSnoc(q, [], m, [m], [1]);
    assert [] + [m] == [m];
    NumSnoc([], m, m);
    DenSnoc([], m, m);
    WeightTimesDen(q, [m], m);
    TimesSum(1, 0, Weight(q, [m], m));
  }

  lemma NodesWithoutOneOfTheLastTwo(q: int, rest: seq<int>, a: int, b: int)
    requires Nodes(q, rest + [b, a])
    ensures Nodes(q, rest + [a]) && Nodes(q, rest + [b]) && Nodes(q, rest)
    ensures a != b && a !in rest && b !in rest && InField(q, a) && InField(q, b) && InFieldAll(q, rest)
  {
    var all, k := rest + [b, a], |rest|;
    assert all[k] == b && all[k + 1] == a && forall i :: 0 <= i < k ==> all[i] == rest[i];
  }

  /** The weights of any set of nodes sum to one. */
  lemma {:induction false} WeightsSumToOne(q: int, xs: seq<int>)
    requires FieldOrder(q) && Nodes(q, xs) && xs != []
    ensures Cong(q, BlendPoly(q, xs, xs, [1]), 1)
    decreases |xs|
  {
    hide Times, Cong, Weight, IsPrime, BlendPoly;
    var n := |xs|;
    if n == 1 {
      LoneWeight(q, xs[0]);
      assert xs == [xs[0]];
    } else {
      var a, b, rest := xs[n - 1], xs[n - 2], xs[..n - 2];
      assert xs == rest + [b, a];
      NodesWithoutOneOfTheLastTwo(q, rest, a, b);
      WeightsSumToOne(q, rest + [a]);
      WeightsSumToOne(q, rest + [b]);
      NevilleStep(q, rest, a, b);
    }
  }

  lemma NevilleStep(q: int, rest: seq<int>, a: int, b: int)
    requires FieldOrder(q) && Nodes(q, rest + [b, a]) && Nodes(q, rest + [a]) && Nodes(q, rest + [b])
    requires Cong(q, BlendPoly(q, rest + [a], rest + [a], [1]), 1)
    requires Cong(q, BlendPoly(q, rest + [b], rest + [b], [1]), 1)
    ensures Cong(q, BlendPoly(q, rest + [b, a], rest + [b, a], [1]), 1)
  {
    hide Times, Cong, Weight, IsPrime, BlendPoly;
    var all, one := rest + [b, a], [1];
    assert all == (rest + [b]) + [a] && rest + [a, b] == (rest + [a]) + [b];
    NodesWithoutOneOfTheLastTwo(q, rest, a, b);
    EvalOne(a);
    EvalOne(b);
    BlendSnoc(q, rest, b, all, one);
    BlendSnoc(q, rest + [b], a, all, one);
    BlendSnoc(q, rest, a, rest + [a], one);
    BlendSnoc(q, rest, b, rest + [b], one);
    NevillePart(q, rest, rest, a, b);
    // The two nodes themselves: each joins the set that already holds the other.
    WeightPeel(q, rest + [b], a, b);
    WeightPeel(q, rest + [a], b, a);
    WeightSwap(q, rest, a, b, a);
    DifferenceIsNotZero(q, b, a);
    NevilleAlgebra(q, a, b,
      BlendPoly(q, rest, all, one), BlendPoly(q, rest, rest + [a], one), BlendPoly(q, rest, rest + [b], one),
      Weight(q, all, a), Weight(q, all, b), Weight(q, rest + [a], a), Weight(q, rest + [b], b));
  }

  lemma NevilleAlgebra(q: int, a: int, b: int, r: int, ra: int, rb: int, wa: int, wb: int, ua: int, ub: int)
    requires FieldOrder(q) && (b - a) % q != 0
    requires Cong(q, Times(b - a, r), Times(b, ra) - Times(a, rb))
    requires Cong(q, Times(b - a, wa), Times(b, ua)) && Cong(q, Times(a - b, wb), Times(a, ub))
    requires Cong(q, ra + Times(1, ua), 1) && Cong(q, rb + Times(1, ub), 1)
    ensures Cong(q, r + Times(1, wb) + Times(1, wa), 1)
  {
    hide Times, Cong, IsPrime;
    var x, y, z := Times(b - a, r), Times(b - a, wa), Times(b - a, wb);
    TimesFlip(a, b, wb);
    CongSub(q, y, Times(b, ua), -z, Times(a, ub));
    CongAdd(q, x, Times(b, ra) - Times(a, rb), y + z, Times(b, ua) - Times(a, ub));
    TimesSum(b, ra, ua);
    TimesSum(a, rb, ub);
    TimesSum(b - a, r + Times(1, wb), wa);
    TimesSum(b - a, r, wb);
    ScaleByTimes(q, b, ra + Times(1, ua), 1);
    ScaleByTimes(q, a, rb + Times(1, ub), 1);
    CongSub(q, Times(b, ra + Times(1, ua)), Times(b, 1), Times(a, rb + Times(1, ub)), Times(a, 1));
    OneTimes(a);
    OneTimes(b);
    OneTimes(b - a);
    CongTrans(q, x + y + z, Times(b, ra + Times(1, ua)) - Times(a, rb + Times(1, ub)), Times(b - a, 1));
    CancelTimes(q, b - a, r + Times(1, wb) + Times(1, wa), 1);
  }

  lemma TimesFlip(a: int, b: int, w: int)
    ensures Times(a - b, w) == -Times(b - a, w)
  {
  }

  lemma ScaleByTimes(q: int, c: int, x: int, y: int)
    requires 0 < q && Cong(q, x, y)
    ensures Cong(q, Times(c, x), Times(c, y))
  {
    CongScale(q, c, x, y);
  }

  lemma CancelTimes(q: int, d: int, x: int, y: int)
    requires FieldOrder(q) && d % q != 0 && Cong(q, Times(d, x), Times(d, y))
    ensures Cong(q, x, y)
  {
    Cancel(q, d, x, y);
  }

  /** Splitting off node `c`: on the other nodes, the blend of `p` is a blend of ones and a blend
      of the deflated polynomial over the smaller set. */
  lemma {:induction false} DeflatePart(q: int, part: seq<int>, xs: seq<int>, c: int, p: seq<int>)
    requires FieldOrder(q) && InFieldAll(q, part) && InFieldAll(q, xs) && InField(q, c) && c !in part
    ensures Cong(q, BlendPoly(q, part, xs + [c], p),
                 Times(Eval(p, c), BlendPoly(q, part, xs + [c], [1])) - Times(c, BlendPoly(q, part, xs, Deflate(p, c))))
  {
    hide Times, Cong, Weight, IsPrime;
    if part == [] {
      TimesZero(Eval(p, c));
      TimesZero(c);
      CongRefl(q, 0);
    } else {
      var m, rest := part[|part| - 1], part[..|part| - 1];
      assert m in part;
      DeflatePart(q, rest, xs, c, p);
      DeflateDivides(p, c, m);
      WeightPeel(q, xs, c, m);
      EvalOne(m);
      DeflateAlgebra(q, c, m, Eval(p, c), Eval(Deflate(p, c), m), Weight(q, xs + [c], m), Weight(q, xs, m),
        BlendPoly(q, rest, xs + [c], p), BlendPoly(q, rest, xs + [c], [1]), BlendPoly(q, rest, xs, Deflate(p, c)));
    }
  }

  lemma DeflateAlgebra(q: int, c: int, m: int, v: int, e: int, w: int, u: int, r: int, r1: int, rd: int)
    requires 0 < q
    requires Cong(q, Times(c - m, w), Times(c, u)) && Cong(q, r, Times(v, r1) - Times(c, rd))
    ensures Cong(q, r + Times(v + Times(m - c, e), w), Times(v, r1 + Times(1, w)) - Times(c, rd + Times(e, u)))
  {
    hide Times, Cong;
    ScaleByTimes(q, -e, Times(c - m, w), Times(c, u));
    CongRefl(q, Times(v, w));
    CongAdd(q, Times(v, w), Times(v, w), Times(-e, Times(c - m, w)), Times(-e, Times(c, u)));
    CongAdd(q, r, Times(v, r1) - Times(c, rd),
      Times(v, w) + Times(-e, Times(c - m, w)), Times(v, w) + Times(-e, Times(c, u)));
    DeflateExpand(c, m, v, e, w);
    TimesSum(v, r1, w);
    DeflateCollect(c, rd, e, u);
  }

  lemma DeflateExpand(c: int, m: int, v: int, e: int, w: int)
    ensures Times(v + Times(m - c, e), w) == Times(v, w) + Times(-e, Times(c - m, w))
  {
    assert (v + (m - c) * e) * w == v * w + (m - c) * e * w;
    assert (m - c) * e * w == -e * ((c - m) * w);
  }

  lemma DeflateCollect(c: int, rd: int, e: int, u: int)
    ensures Times(c, rd + Times(e, u)) == Times(c, rd) - Times(-e, Times(c, u))
  {
    assert c * (rd + e * u) == c * rd + c * (e * u);
    assert c * (e * u) == e * (c * u);
  }

  /** The last node of a list, and what it adds to a blend over the whole list. */
  lemma LastNode(q: int, xs: seq<int>, p: seq<int>)
    requires FieldOrder(q) && Nodes(q, xs) && xs != []
    ensures var c, rest := xs[|xs| - 1], xs[..|xs| - 1];
      && xs == rest + [c] && c !in rest && Nodes(q, rest)
      && InFieldAll(q, xs) && InFieldAll(q, rest) && InField(q, c)
      && BlendPoly(q, xs, xs, p) == BlendPoly(q, rest, xs, p) + Times(Eval(p, c), Weight(q, xs, c))
  {
    hide Times, Cong, Weight, IsPrime, Eval, BlendPoly;
    var c, rest := xs[|xs| - 1], xs[..|xs| - 1];
    assert xs == rest + [c];
    BlendSnoc(q, rest, c, xs, p);
  }

  lemma NothingLeft(q: int, p: seq<int>, c: int, all: seq<int>)
    requires FieldOrder(q) && InFieldAll(q, all) && |p| <= 1
    ensures BlendPoly(q, [], all, Deflate(p, c)) == ConstantTerm(Deflate(p, c)) == 0
  {
    hide IsPrime;
  }

  /** Lagrange at zero: blending the values of a polynomial of degree below the number of nodes
      gives its constant term. */
  lemma {:induction false} LagrangeAtZero(q: int, xs: seq<int>, p: seq<int>)
    requires FieldOrder(q) && Nodes(q, xs) && xs != [] && |p| <= |xs|
    ensures Cong(q, BlendPoly(q, xs, xs, p), ConstantTerm(p))
    decreases |xs|
  {
    hide Times, Cong, Weight, IsPrime, BlendPoly, Eval, Deflate, Nodes, InFieldAll, ConstantTerm;
    var c, rest := xs[|xs| - 1], xs[..|xs| - 1];
    LastNode(q, xs, p);
    LastNode(q, xs, [1]);
    var d := Deflate(p, c);
    WeightsSumToOne(q, xs);
    DeflatePart(q, rest, rest, c, p);
    // The deflated polynomial is covered by the smaller set.
    if rest == [] {
      NothingLeft(q, p, c, rest);
      CongRefl(q, 0);
    } else {
      LagrangeAtZero(q, rest, d);
    }
    DeflateDivides(p, c, 0);
    EvalAtZero(p);
    EvalAtZero(d);
    EvalOne(c);
    LagrangeAlgebra(q, c, Eval(p, c), BlendPoly(q, rest, xs, p), BlendPoly(q, rest, xs, [1]),
      BlendPoly(q, rest, rest, d), Weight(q, xs, c), ConstantTerm(d));
  }

  lemma LagrangeAlgebra(q: int, c: int, v: int, r: int, r1: int, rd: int, w: int, d0: int)
    requires 0 < q
    requires Cong(q, r, Times(v, r1) - Times(c, rd)) && Cong(q, r1 + Times(1, w), 1) && Cong(q, rd, d0)
    ensures Cong(q, r + Times(v, w), v + Times(0 - c, d0))
  {
    hide Times, Cong;
    ScaleByTimes(q, v, r1 + Times(1, w), 1);
    TimesSum(v, r1, w);
    CongRefl(q, Times(v, w));
    CongAdd(q, r, Times(v, r1) - Times(c, rd), Times(v, w), Times(v, w));
    ScaleByTimes(q, c, rd, d0);
    CongSub(q, Times(v, r1 + Times(1, w)), Times(v, 1), Times(c, rd), Times(c, d0));
    LagrangeSigns(c, v, d0);
    CongTrans(q, r + Times(v, w), Times(v, r1 + Times(1, w)) - Times(c, rd), Times(v, 1) - Times(c, d0));
  }

  lemma LagrangeSigns(c: int, v: int, d0: int)
    ensures Times(v, 1) - Times(c, d0) == v + Times(0 - c, d0)
  {
  }

  // ---- shares ---------------------------------------------------------------------------------

  /** One party's share: a point of the secret polynomial at the party's index. */
  datatype Share = Share(index: int, point: int)

  function Indices(shares: seq<Share>): (xs: seq<int>)
    ensures |xs| == |shares| && forall i :: 0 <= i < |xs| ==> xs[i] == shares[i].index
  {
    seq(|shares|, i requires 0 <= i < |shares| => shares[i].index)
  }

  predicate DistinctShares(q: int, shares: seq<Share>) {
    Nodes(q, Indices(shares))
  }

  /** Every share of `shares` is a value of the polynomial `p`. */
  ghost predicate OnPolynomial(q: int, shares: seq<Share>, p: seq<int>)
    requires 0 < q
  {
    forall i :: 0 <= i < |shares| ==> Cong(q, shares[i].point, Eval(p, shares[i].index))
  }

  /** The points of `part`, weighted by their Lagrange coefficients among the indices `all`. */
  function Blend(q: int, part: seq<Share>, all: seq<int>): int
    requires FieldOrder(q) && InFieldAll(q, Indices(part)) && InFieldAll(q, all)
  {
    if part == [] then 0
    else
      var s, rest := part[|part| - 1], part[..|part| - 1];
      assert InFieldAll(q, Indices(rest)) by {
        assert forall i :: 0 <= i < |rest| ==> Indices(rest)[i] == Indices(part)[i];
      }
      assert InField(q, s.index) by { assert Indices(part)[|part| - 1] == s.index; }
      Blend(q, rest, all) + Times(s.point, Weight(q, all, s.index))
  }

  /** The value at zero of the polynomial through the shares. */
  function Interpolate(q: int, shares: seq<Share>): (r: int)
    requires FieldOrder(q) && DistinctShares(q, shares)
    ensures InField(q, r)
  {
    Blend(q, shares, Indices(shares)) % q
  }

  lemma TimesRespects(q: int, x: int, y: int, w: int)
    requires 0 < q && Cong(q, x, y)
    ensures Cong(q, Times(x, w), Times(y, w))
  {
    CongScale(q, w, x, y);
  }

  lemma {:induction false} BlendOfPolynomial(q: int, part: seq<Share>, all: seq<int>, p: seq<int>)
    requires FieldOrder(q) && InFieldAll(q, Indices(part)) && InFieldAll(q, all) && OnPolynomial(q, part, p)
    ensures Cong(q, Blend(q, part, all), BlendPoly(q, Indices(part), all, p))
  {
    hide Times, Cong, Weight, IsPrime;
    if part == [] {
      CongRefl(q, 0);
    } else {
      var s, rest := part[|part| - 1], part[..|part| - 1];
      assert Indices(rest) == Indices(part)[..|part| - 1];
      assert Indices(part)[|part| - 1] == s.index;
      BlendOfPolynomial(q, rest, all, p);
      var w := Weight(q, all, s.index);
      TimesRespects(q, s.point, Eval(p, s.index), w);
      CongAdd(q, Blend(q, rest, all), BlendPoly(q, Indices(rest), all, p), Times(s.point, w), Times(Eval(p, s.index), w));
    }
  }

  /** Any set of at least as many shares as the polynomial has coefficients gives the secret,
      whatever the subset and whatever the order. */
  lemma InterpolationRecovers(q: int, shares: seq<Share>, p: seq<int>)
    requires FieldOrder(q) && DistinctShares(q, shares) && shares != []
    requires |p| <= |shares| && OnPolynomial(q, shares, p)
    ensures Interpolate(q, shares) == ConstantTerm(p) % q
  {
    hide Times, Cong, Weight, IsPrime;
    var xs := Indices(shares);
    BlendOfPolynomial(q, shares, xs, p);
    LagrangeAtZero(q, xs, p);
    CongTrans(q, Blend(q, shares, xs), BlendPoly(q, xs, xs, p), ConstantTerm(p));
    CongIsEqualRemainders(q, Blend(q, shares, xs), ConstantTerm(p));
  }

  lemma TimesDifference(y: int, z: int, w: int)
    ensures Times(y, w) == Times(z, w) + Times(y - z, w)
  {
  }

  lemma {:induction false} BlendUpdate(q: int, part: seq<Share>, all: seq<int>, i: int, y: int)
    requires FieldOrder(q) && InFieldAll(q, Indices(part)) && InFieldAll(q, all) && 0 <= i < |part|
    ensures Indices(part[i := Share(part[i].index, y)]) == Indices(part)
    ensures InField(q, part[i].index)
    ensures Blend(q, part[i := Share(part[i].index, y)], all)
         == Blend(q, part, all) + Times(y - part[i].point, Weight(q, all, part[i].index))
  {
    hide Times, Weight, IsPrime;
    var n := |part|;
    var part' := part[i := Share(part[i].index, y)];
    assert Indices(part)[i] == part[i].index;
    assert Indices(part') == Indices(part);
    if i == n - 1 {
      assert part'[..n - 1] == part[..n - 1];
      TimesDifference(y, part[i].point, Weight(q, all, part[i].index));
    } else {
      var rest := part[..n - 1];
      assert InFieldAll(q, Indices(rest)) by {
        assert forall k :: 0 <= k < |rest| ==> Indices(rest)[k] == Indices(part)[k];
      }
      BlendUpdate(q, rest, all, i, y);
      assert part'[..n - 1] == rest[i := Share(rest[i].index, y)];
      assert part'[n - 1] == part[n - 1];
    }
  }

  /** No coordinate is ignored: replacing one share's point keeps the interpolated value exactly
      when the point was not really replaced. */
  lemma EveryShareMatters(q: int, shares: seq<Share>, i: int, y: int)
    requires FieldOrder(q) && DistinctShares(q, shares) && 0 <= i < |shares|
    ensures DistinctShares(q, shares[i := Share(shares[i].index, y)])
    ensures Interpolate(q, shares[i := Share(shares[i].index, y)]) == Interpolate(q, shares)
            <==> Cong(q, y, shares[i].point)
  {
    hide Times, Cong, Weight, IsPrime;
    var xs, other := Indices(shares), shares[i := Share(shares[i].index, y)];
    BlendUpdate(q, shares, xs, i, y);
    var before, w := Blend(q, shares, xs), Weight(q, xs, shares[i].index);
    WeightNonZero(q, xs, shares[i].index);
    CongIsEqualRemainders(q, Blend(q, other, xs), before);
    ShiftVanishes(q, before, y, shares[i].point, w);
  }

  lemma ShiftVanishes(q: int, x: int, y: int, z: int, w: int)
    requires FieldOrder(q) && w % q != 0
    ensures Cong(q, x + Times(y - z, w), x) <==> Cong(q, y, z)
  {
    hide Times, IsPrime;
    var d := Times(y - z, w);
    assert x + d - x == d;
    ProductVanishes(q, y - z, w);
  }

  lemma ProductVanishes(q: int, x: int, w: int)
    requires FieldOrder(q) && w % q != 0
    ensures Times(x, w) % q == 0 <==> x % q == 0
  {
    hide IsPrime;
    if x % q == 0 {
      CongScale(q, w, x, 0);
    } else {
      ProductIsNotZero(q, x, w);
    }
  }

  // ---- lines ----------------------------------------------------------------------------------

  /** The share at `index` of the line with constant `secret` and the given slope. */
  function LineShare(q: int, secret: int, slope: int, index: int): Share
    requires 0 < q
  {
    Share(index, (secret + slope * index) % q)
  }

  lemma LineShareOnLine(q: int, secret: int, slope: int, index: int)
    requires 0 < q
    ensures Cong(q, LineShare(q, secret, slope, index).point, Eval([secret, slope], index))
  {
    assert [secret, slope][1..] == [slope] && [slope][1..] == [];
    assert Eval([slope], index) == slope + index * 0;
    assert Eval([secret, slope], index) == secret + index * slope;
    CongReduce(q, secret + slope * index);
  }

  /** Two shares of one line give its constant. */
  lemma LineRecovers(q: int, secret: int, slope: int, i: int, j: int)
    requires FieldOrder(q) && 0 < i < q && 0 < j < q && i != j
    ensures DistinctShares(q, [LineShare(q, secret, slope, i), LineShare(q, secret, slope, j)])
    ensures Interpolate(q, [LineShare(q, secret, slope, i), LineShare(q, secret, slope, j)]) == secret % q
  {
    LineShareOnLine(q, secret, slope, i);
    LineShareOnLine(q, secret, slope, j);
    InterpolationRecovers(q, [LineShare(q, secret, slope, i), LineShare(q, secret, slope, j)], [secret, slope]);
  }

  /** Shares of one secret from two lines (two epochs) give that secret exactly when the lines
      have the same slope. */
  lemma MixedEpochs(q: int, secret: int, slope: int, slope': int, i: int, j: int)
    requires FieldOrder(q) && 0 < i < q && 0 < j < q && i != j
    ensures DistinctShares(q, [LineShare(q, secret, slope, i), LineShare(q, secret, slope', j)])
    ensures Interpolate(q, [LineShare(q, secret, slope, i), LineShare(q, secret, slope', j)]) == secret % q
            <==> Cong(q, slope, slope')
  {
    hide Cong, IsPrime;
    var same := [LineShare(q, secret, slope, i), LineShare(q, secret, slope, j)];
    var mixed := [LineShare(q, secret, slope, i), LineShare(q, secret, slope', j)];
    LineRecovers(q, secret, slope, i, j);
    EveryShareMatters(q, same, 1, mixed[1].point);
    assert same[1 := Share(j, mixed[1].point)] == mixed;
    SlopesFromPoints(q, secret, slope, slope', j);
  }

  lemma SlopesFromPoints(q: int, secret: int, slope: int, slope': int, j: int)
    requires FieldOrder(q) && 0 < j < q
    ensures Cong(q, (secret + slope' * j) % q, (secret + slope * j) % q) <==> Cong(q, slope, slope')
  {
    hide Cong, IsPrime;
    var a, b := secret + slope' * j, secret + slope * j;
    CongReduce(q, a);
    CongReduce(q, b);
    CongRefl(q, secret);
    assert a - secret == j * slope' && b - secret == j * slope;
    if Cong(q, a % q, b % q) {
      CongTrans(q, a, a % q, b % q);
      CongTrans(q, a, b % q, b);
      CongSub(q, a, b, secret, secret);
      NonZeroScalar(q, j);
      Cancel(q, j, slope', slope);
      CongSym(q, slope', slope);
    }
    if Cong(q, slope, slope') {
      CongSym(q, slope, slope');
      CongScale(q, j, slope', slope);
      CongAdd(q, j * slope', j * slope, secret, secret);
      CongTrans(q, a % q, a, b);
      CongTrans(q, a % q, b, b % q);
    }
  }
}
