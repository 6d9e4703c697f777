/** Reconstruction and export of the private key (crates/mpc-core/src/backend.rs). */
module Backend {
  import opened Prelude
  import opened Modular
  import opened Shamir
  import opened Keys

  /** The answer of a reconstruction: the checks in the order the code makes them, and then the
      value at zero of the polynomial through the points. */
  ghost function Reconstruction(q: int, shares: seq<KeyShare>): Result<int>
    requires FieldOrder(q)
  {
    if |shares| < THRESHOLD then Failure(InvalidPartyCount(THRESHOLD, |shares|))
    else if !AllDecode(shares) then Failure(Backend(ShareDecode))
    else if !NoDuplicates(Indices(PointsOf(shares))) then Failure(Backend(DuplicateParty))
    else
      DecodedIndicesAreNodes(q, shares);
      Success(Interpolate(q, PointsOf(shares)))
  }

  lemma DecodedIndicesAreNodes(q: int, shares: seq<KeyShare>)
    requires FieldOrder(q) && AllDecode(shares)
    ensures DistinctShares(q, PointsOf(shares)) <==> NoDuplicates(Indices(PointsOf(shares)))
    ensures InFieldAll(q, Indices(PointsOf(shares)))
  {
  }

  function Elements(xs: seq<int>): set<int> {
    set x | x in xs
  }

  lemma {:induction false} ElementsAtMost(xs: seq<int>)
    ensures |Elements(xs)| <= |xs|
  {
    if xs != [] {
      var rest, last := xs[..|xs| - 1], xs[|xs| - 1];
      ElementsAtMost(rest);
      assert Elements(xs) == Elements(rest) + {last};
    }
  }

  lemma {:induction false} ElementsOfDistinct(xs: seq<int>)
    requires NoDuplicates(xs)
    ensures |Elements(xs)| == |xs|
  {
    if xs != [] {
      var rest, last := xs[..|xs| - 1], xs[|xs| - 1];
      ElementsOfDistinct(rest);
      assert last !in Elements(rest);
      assert Elements(xs) == Elements(rest) + {last};
    }
  }

  /** Removing repetitions shortens a list exactly when something is repeated. */
  lemma RepetitionShrinks(xs: seq<int>)
    ensures |Elements(xs)| == |xs| <==> NoDuplicates(xs)
  {
    if NoDuplicates(xs) {
      ElementsOfDistinct(xs);
    } else {
      var i, j :| 0 <= i < j < |xs| && xs[i] == xs[j];
      var without := xs[..j] + xs[j + 1..];
      assert Elements(without) == Elements(xs) by {
        forall x | x in xs ensures x in without {
          var k :| 0 <= k < |xs| && xs[k] == x;
          assert without[if k < j then k else if k == j then i else k - 1] == x;
        }
      }
      ElementsAtMost(without);
    }
  }

  /** The two products behind the Lagrange coefficient of node `i`. */
  method Coefficient(q: int, xs: seq<int>, i: int) returns (numerator: int, denominator: int)
    requires FieldOrder(q) && Nodes(q, xs) && 0 <= i < |xs|
    ensures InField(q, numerator) && Cong(q, numerator, Num(xs, xs[i]))
    ensures InField(q, denominator) && Cong(q, denominator, Den(xs, xs[i]))
  {
    hide Times, Cong, IsPrime;
    var me := xs[i];
    numerator, denominator := 1, 1;
    CongRefl(q, 1);
    for j := 0 to |xs|
      invariant InField(q, numerator) && Cong(q, numerator, Num(xs[..j], me))
      invariant InField(q, denominator) && Cong(q, denominator, Den(xs[..j], me))
    {
      assert xs[..j + 1] == xs[..j] + [xs[j]];
      NumSnoc(xs[..j], xs[j], me);
      DenSnoc(xs[..j], xs[j], me);
      if i == j {
        TimesSum(1, 0, Num(xs[..j], me));
        OneTimes(Num(xs[..j], me));
        OneTimes(Den(xs[..j], me));
        continue;
      }
      var other := xs[j];
      ProductStep(q, numerator, Num(xs[..j], me), other);
      ProductStep(q, denominator, Den(xs[..j], me), other - me);
      numerator := Times(numerator, other) % q;
      denominator := Times(denominator, other - me) % q;
    }
    assert xs[..|xs|] == xs;
  }

  lemma ProductStep(q: int, acc: int, product: int, factor: int)
    requires 0 < q && Cong(q, acc, product)
    ensures InField(q, Times(acc, factor) % q)
    ensures Cong(q, Times(acc, factor) % q, Times(product, factor))
  {
    hide Times, Cong;
    TimesRespects(q, acc, product, factor);
    CongReduce(q, Times(acc, factor));
    CongTrans(q, Times(acc, factor) % q, Times(acc, factor), Times(product, factor));
  }

  /** `Scalar::invert`: nothing for zero. */
  function Invert(q: int, d: int): (r: Option<int>)
    requires FieldOrder(q)
    ensures r.Some? <==> d % q != 0
    ensures r.Some? ==> r.value == Inverse(q, d)
  {
    if d % q == 0 then None else Some(Inverse(q, d))
  }

  lemma InverseRespects(q: int, d: int, e: int)
    requires FieldOrder(q) && Cong(q, d, e) && e % q != 0
    ensures d % q != 0 && Inverse(q, d) == Inverse(q, e)
  {
    CongIsEqualRemainders(q, d, e);
  }

  /** One turn of the outer loop adds the next weighted point. */
  lemma SumStep(q: int, acc: int, sum: int, point: int, numerator: int, num: int, inv: int)
    requires 0 < q && Cong(q, acc, sum) && Cong(q, numerator, num)
    ensures InField(q, (acc + Times(Times(point, numerator), inv)) % q)
    ensures Cong(q, (acc + Times(Times(point, numerator), inv)) % q, sum + Times(point, Times(num, inv)))
  {
    hide Times, Cong;
    TimesRespects(q, numerator, num, inv);
    ScaleByTimes(q, point, Times(numerator, inv), Times(num, inv));
    TimesAssoc(point, numerator, inv);
    var next := acc + Times(Times(point, numerator), inv);
    CongAdd(q, acc, sum, Times(point, Times(numerator, inv)), Times(point, Times(num, inv)));
    CongReduce(q, next);
    CongTrans(q, next % q, next, sum + Times(point, Times(num, inv)));
  }

  lemma TimesAssoc(x: int, y: int, z: int)
    ensures Times(Times(x, y), z) == Times(x, Times(y, z))
  {
  }

  /** The sum the outer loop of `Reconstruct` accumulates over all the points. */
  method WeightedSum(q: int, points: seq<Share>) returns (r: Result<int>)
    requires FieldOrder(q) && DistinctShares(q, points)
    ensures r == Success(Interpolate(q, points))
  {
    hide Times, Cong, IsPrime, Weight;
    var xs := Indices(points);
    var secret := 0;
    assert points[..0] == [];
    CongRefl(q, 0);
    for i := 0 to |points|
      invariant InField(q, secret) && InFieldAll(q, Indices(points[..i]))
      invariant Cong(q, secret, Blend(q, points[..i], xs))
    {
      var me := xs[i];
      var numerator, denominator := Coefficient(q, xs, i);
      DenNonZero(q, xs, me);
      InverseRespects(q, denominator, Den(xs, me));
      var inverse := Invert(q, denominator);
      if inverse.None? {
        assert false;
        return Failure(Backend(NotInvertible));
      }
      BlendNext(q, points, i, xs);
      SumStep(q, secret, Blend(q, points[..i], xs), points[i].point, numerator, Num(xs, me), inverse.value);
      secret := (secret + Times(Times(points[i].point, numerator), inverse.value)) % q;
    }
    assert points[..|points|] == points;
    CongReduce(q, Blend(q, points, xs));
    CongTrans(q, secret, Blend(q, points, xs), Interpolate(q, points));
    CanonicalEqual(q, secret, Interpolate(q, points));
    r := Success(secret);
  }

  lemma BlendNext(q: int, points: seq<Share>, i: int, all: seq<int>)
    requires FieldOrder(q) && DistinctShares(q, points) && InFieldAll(q, all) && 0 <= i < |points|
    requires InFieldAll(q, Indices(points[..i]))
    ensures InField(q, points[i].index) && InFieldAll(q, Indices(points[..i + 1]))
    ensures Den(all, points[i].index) % q != 0
    ensures Blend(q, points[..i + 1], all) == Blend(q, points[..i], all)
      + Times(points[i].point, Times(Num(all, points[i].index), Inverse(q, Den(all, points[i].index))))
  {
    hide Times, Cong, IsPrime;
    var part := points[..i + 1];
    assert Indices(points)[i] == points[i].index;
    assert forall k :: 0 <= k <= i ==> Indices(part)[k] == Indices(points)[k];
    assert part[..i] == points[..i];
    DenNonZero(q, all, points[i].index);
  }

  /** Shamir interpolation at zero. The duplicate check is a comparison of lengths after
      repetitions are removed, and the error for a coefficient without an inverse never occurs. */
  method Reconstruct(q: int, shares: seq<KeyShare>) returns (r: Result<int>)
    requires FieldOrder(q)
    ensures r == Reconstruction(q, shares)
    ensures r.Success? <==> Reconstructible(shares)
    ensures r != Failure(Backend(NotInvertible))
  {
    ReconstructsIff(q, shares);
    if |shares| < THRESHOLD {
      return Failure(InvalidPartyCount(THRESHOLD, |shares|));
    }
    var points: seq<Share> := [];
    for k := 0 to |shares|
      invariant |points| == k && AllDecode(shares[..k]) && points == PointsOf(shares[..k])
    {
      if shares[k].secret.None? {
        return Failure(Backend(ShareDecode));
      }
      points := points + [Share(shares[k].secret.value.index, shares[k].secret.value.polyPoint)];
    }
    assert shares[..|shares|] == shares;
    var xs := Indices(points);
    var seen := Elements(xs);
    RepetitionShrinks(xs);
    if |seen| != |xs| {
      return Failure(Backend(DuplicateParty));
    }
    DecodedIndicesAreNodes(q, shares);
    r := WeightedSum(q, points);
  }

  // ---- what a reconstruction means ------------------------------------------------------------

  ghost predicate SharesOfPolynomial(q: int, shares: seq<KeyShare>, p: seq<int>)
    requires 0 < q
  {
    && AllDecode(shares)
    && NoDuplicates(Indices(PointsOf(shares)))
    && OnPolynomial(q, PointsOf(shares), p)
  }

  /** Two or more shares, all of which decode, under pairwise different indices. */
  ghost predicate Reconstructible(shares: seq<KeyShare>) {
    && 2 <= |shares|
    && (forall i :: 0 <= i < |shares| ==> shares[i].secret.Some?)
    && (forall i, j :: 0 <= i < j < |shares| && shares[i].secret.Some? && shares[j].secret.Some? ==>
          shares[i].secret.value.index != shares[j].secret.value.index)
  }

  /** What is wrong with a list that is not usable: too few before not decodable before repeated. */
  ghost function ReconstructionFault(shares: seq<KeyShare>): Error {
    if |shares| < 2 then InvalidPartyCount(2, |shares|)
    else if exists i :: 0 <= i < |shares| && shares[i].secret.None? then Backend(ShareDecode)
    else Backend(DuplicateParty)
  }

  /** Any list of shares reconstructs to something if and only if it is usable; otherwise the first thing
      wrong with it is reported, before anything is computed. */
  lemma ReconstructsIff(q: int, shares: seq<KeyShare>)
    requires FieldOrder(q)
    ensures Reconstruction(q, shares).Success? <==> Reconstructible(shares)
    ensures !Reconstructible(shares) ==> Reconstruction(q, shares) == Failure(ReconstructionFault(shares))
    ensures Reconstructible(shares) ==> (
      && AllDecode(shares) && DistinctShares(q, PointsOf(shares))
      && Reconstruction(q, shares) == Success(Interpolate(q, PointsOf(shares))))
  {
    hide IsPrime, Interpolate;
    if AllDecode(shares) {
      DecodedIndicesAreNodes(q, shares);
      var xs := Indices(PointsOf(shares));
      assert forall i :: 0 <= i < |shares| ==> xs[i] == shares[i].secret.value.index;
    }
  }

  /** Distinct shares of a polynomial with no more coefficients than there are shares reconstruct its
      constant term, whatever the subset and the order, if and only if there are at least two of them. */
  lemma ReconstructionIsTheSecret(q: int, shares: seq<KeyShare>, p: seq<int>)
    requires FieldOrder(q) && |p| <= |shares| && SharesOfPolynomial(q, shares, p)
    ensures Reconstruction(q, shares)
         == if 2 <= |shares| then Success(ConstantTerm(p) % q) else Failure(InvalidPartyCount(2, |shares|))
  {
    DecodedIndicesAreNodes(q, shares);
    if 2 <= |shares| {
      InterpolationRecovers(q, PointsOf(shares), p);
    }
  }

  /** Exporting checks the reconstructed scalar against the wallet's public key. */
  ghost function Export(q: int, shares: seq<KeyShare>, expected: PublicKey): Result<int>
    requires FieldOrder(q)
  {
    match Reconstruction(q, shares)
    case Failure(e) => Failure(e)
    case Success(key) =>
      if PublicKeyOf(q, key) == Some(expected) then Success(key) else Failure(Backend(WrongWalletKey))
  }

  method ExportPrivateKeyFor(q: int, shares: seq<KeyShare>, expected: PublicKey) returns (r: Result<int>)
    requires FieldOrder(q)
    ensures r == Export(q, shares, expected)
  {
    var key := Reconstruct(q, shares);
    match key
    case Failure(_) =>
      r := key;
    case Success(scalar) =>
      r := if PublicKeyOf(q, scalar) == Some(expected) then key else Failure(Backend(WrongWalletKey));
  }

  /** A scalar is handed out if and only if the list is usable, interpolates to it, and it is the one
      behind the wallet's key; an unusable list fails as it does in a reconstruction, any other one at
      the comparison of the keys. */
  lemma ExportsIff(q: int, shares: seq<KeyShare>, expected: PublicKey, key: int)
    requires FieldOrder(q)
    ensures Export(q, shares, expected) == Success(key) <==>
      Reconstructible(shares) && DistinctShares(q, PointsOf(shares)) && key == Interpolate(q, PointsOf(shares)) && key != 0 && expected == PointOf(key)
    ensures Export(q, shares, expected).Failure? ==>
      Export(q, shares, expected) == Failure(if Reconstructible(shares) then Backend(WrongWalletKey) else ReconstructionFault(shares))
  {
    hide IsPrime, Reconstruction, Reconstructible, ReconstructionFault, Interpolate;
    ReconstructsIff(q, shares);
    if Reconstructible(shares) {
      KeyNamesScalar(q, Interpolate(q, PointsOf(shares)), expected.scalar);
    }
  }

  /** The share a party holds of the line with this secret and slope. */
  function HeldShare(q: int, secret: int, slope: int, index: PartyIndex): KeyShare
    requires 0 < q
  {
    KeyShare(index - 1, Some(UpstreamParty(index, LineShare(q, secret, slope, index).point, secret % q)))
  }

  lemma PairOfPoints(a: KeyShare, b: KeyShare)
    requires a.secret.Some? && b.secret.Some?
    ensures PointsOf([a, b]) == [Share(a.secret.value.index, a.secret.value.polyPoint),
                                 Share(b.secret.value.index, b.secret.value.polyPoint)]
    ensures Indices(PointsOf([a, b])) == [a.secret.value.index, b.secret.value.index]
  {
  }

  /** A share of one epoch and a share of another export this wallet's key exactly when the two
      epochs are the same line. */
  lemma ExportOfMixedEpochs(q: int, secret: int, slope: int, slope': int, i: PartyIndex, j: PartyIndex)
    requires FieldOrder(q) && secret % q != 0 && i != j
    ensures Export(q, [HeldShare(q, secret, slope, i), HeldShare(q, secret, slope', j)], PointOf(secret % q))
            == if Cong(q, slope, slope') then Success(secret % q) else Failure(Backend(WrongWalletKey))
  {
    hide Cong, IsPrime, Interpolate;
    var a, b := HeldShare(q, secret, slope, i), HeldShare(q, secret, slope', j);
    PairOfPoints(a, b);
    CongReduce(q, secret);
    KeyNamesScalar(q, Interpolate(q, PointsOf([a, b])), secret % q);
    MixedEpochs(q, secret, slope, slope', i, j);
    DecodedIndicesAreNodes(q, [a, b]);
  }

  /** Once a list of shares exports the key, changing any one point of it makes the export fail. */
  lemma ExportRejectsOneChangedShare(q: int, shares: seq<KeyShare>, expected: PublicKey, k: int, point: int)
    requires FieldOrder(q) && 0 <= k < |shares| && Export(q, shares, expected).Success?
    ensures shares[k].secret.Some?
    ensures !Cong(q, point, shares[k].secret.value.polyPoint) ==>
      Export(q, shares[k := shares[k].(secret := Some(shares[k].secret.value.(polyPoint := point)))], expected)
        == Failure(Backend(WrongWalletKey))
  {
    hide Cong, IsPrime, Interpolate;
    var ps := PointsOf(shares);
    var changed := shares[k := shares[k].(secret := Some(shares[k].secret.value.(polyPoint := point)))];
    assert AllDecode(changed);
    assert PointsOf(changed) == ps[k := Share(ps[k].index, point)];
    assert Indices(PointsOf(changed)) == Indices(ps);
    DecodedIndicesAreNodes(q, shares);
    DecodedIndicesAreNodes(q, changed);
    EveryShareMatters(q, ps, k, point);
    KeyNamesScalar(q, Interpolate(q, ps), expected.scalar);
    KeyNamesScalar(q, Interpolate(q, PointsOf(changed)), expected.scalar);
  }
}
