/** The two renewals that run in one process: refresh, where all three parties take part, and the
    central reshare, which reconstructs and splits again (crates/mpc-core/src/backend.rs:253-322, 489-519). */
module Renewal {
  import opened Prelude
  import opened Modular
  import opened Shamir
  import opened Keys
  import opened Backend
  import opened Upstream
  import opened Honest
  import opened Ceremony

  // ---- refresh ----------------------------------------------------------------------------------------

  /** The upstream acceptance of a refresh: the three corrections lie on one polynomial, and its value
      at zero is zero. */
  predicate RefreshAccepts(q: int, ps: seq<Share>)
    requires FieldOrder(q)
  {
    && |ps| == 3 && DistinctShares(q, ps) && DistinctShares(q, ps[..2]) && DistinctShares(q, ps[1..])
    && Interpolate(q, ps[..2]) == 0 && Interpolate(q, ps[1..]) == 0
  }

  function RefreshRows(q: int, slopes: seq<int>): (rows: seq<seq<int>>)
    requires 0 < q && |slopes| == 3
    ensures Square(rows)
  {
    [LineRow(q, 0, slopes[0]), LineRow(q, 0, slopes[1]), LineRow(q, 0, slopes[2])]
  }

  /** The correction of each party: the sum of its column, by its place in the list. */
  function Corrections(q: int, shares: seq<KeyShare>, slopes: seq<int>): (ps: seq<Share>)
    requires 0 < q && |shares| == |slopes| == 3 && AllDecode(shares)
    ensures |ps| == 3
  {
    seq(3, i requires 0 <= i < 3 =>
      Share(shares[i].secret.value.index, Phase2Point(q, Column(RefreshRows(q, slopes), i))))
  }

  function Corrected(q: int, share: KeyShare, correction: int): KeyShare
    requires 0 < q && share.secret.Some?
  {
    var p := share.secret.value;
    KeyShare(p.index - 1, Some(p.(polyPoint := (p.polyPoint + correction) % q)))
  }

  function RefreshedShares(q: int, shares: seq<KeyShare>, slopes: seq<int>): (rs: seq<KeyShare>)
    requires 0 < q && |shares| == |slopes| == 3 && AllDecode(shares)
    ensures |rs| == 3
  {
    var ps := Corrections(q, shares, slopes);
    seq(3, i requires 0 <= i < 3 => Corrected(q, shares[i], ps[i].point))
  }

  function Refreshed(q: int, shares: seq<KeyShare>, slopes: seq<int>): Result<seq<KeyShare>>
    requires FieldOrder(q) && |slopes| == 3
  {
    if |shares| != TOTAL_PARTIES then Failure(InvalidPartyCount(TOTAL_PARTIES, |shares| % 256))
    else if !AllDecode(shares) then Failure(Backend(ShareDecode))
    else if !RefreshAccepts(q, Corrections(q, shares, slopes)) then Failure(Backend(PhaseFailed))
    else Success(RefreshedShares(q, shares, slopes))
  }

  /** The rounds in one process: rows, transposed, summed, accepted or not by the last phase, and added
      to the shares. */
  method Refresh(q: int, shares: seq<KeyShare>, slopes: seq<int>) returns (r: Result<seq<KeyShare>>)
    requires FieldOrder(q) && |slopes| == 3
    ensures r == Refreshed(q, shares, slopes)
  {
    hide IsPrime, RefreshAccepts, LineRow;
    if |shares| != TOTAL_PARTIES {
      return Failure(InvalidPartyCount(TOTAL_PARTIES, |shares| % 256));
    }
    for i := 0 to |shares|
      invariant forall k :: 0 <= k < i ==> shares[k].secret.Some?
    {
      if shares[i].secret.None? {
        return Failure(Backend(ShareDecode));
      }
    }
    var fragments := Transpose(RefreshRows(q, slopes), |shares|);
    var corrections: seq<Share> := [];
    for i := 0 to |shares|
      invariant |corrections| == i
      invariant forall k :: 0 <= k < i ==>
        corrections[k] == Share(shares[k].secret.value.index, Phase2Point(q, Column(RefreshRows(q, slopes), k)))
    {
      corrections := corrections + [Share(shares[i].secret.value.index, Phase2Point(q, fragments[i]))];
    }
    assert corrections == Corrections(q, shares, slopes);
    if !RefreshAccepts(q, corrections) {
      return Failure(Backend(PhaseFailed));
    }
    var refreshed: seq<KeyShare> := [];
    for i := 0 to |shares|
      invariant |refreshed| == i
      invariant forall k :: 0 <= k < i ==> refreshed[k] == Corrected(q, shares[k], corrections[k].point)
    {
      refreshed := refreshed + [Corrected(q, shares[i], corrections[i].point)];
    }
    assert refreshed == RefreshedShares(q, shares, slopes);
    r := Success(refreshed);
  }

  /** A refresh is refused for the first of three reasons: not three shares, one that does not decode, or
      corrections that are not one line through zero over three different nodes. */
  lemma RefreshRefusals(q: int, shares: seq<KeyShare>, slopes: seq<int>)
    requires FieldOrder(q) && |slopes| == 3
    ensures var r := Refreshed(q, shares, slopes);
      && (r == Failure(InvalidPartyCount(3, |shares| % 256)) <==> |shares| != 3)
      && (r == Failure(Backend(ShareDecode)) <==> |shares| == 3 && exists i :: 0 <= i < 3 && shares[i].secret.None?)
      && (r.Success? ==> (
            && |r.value| == 3 && |shares| == 3
            && forall i :: 0 <= i < 3 ==> (
                 && shares[i].secret.Some? && r.value[i].secret.Some?
                 && r.value[i].secret.value.index == shares[i].secret.value.index && r.value[i].party == shares[i].secret.value.index - 1
                 && r.value[i].secret.value.keyScalar == shares[i].secret.value.keyScalar)))
  {
    hide IsPrime, RefreshAccepts, Corrections;
  }

  lemma ThreeNodes(q: int, ps: seq<Share>)
    requires FieldOrder(q) && |ps| == 3 && DistinctShares(q, ps)
    ensures ps[..2] == [ps[0], ps[1]] && ps[1..] == [ps[1], ps[2]]
    ensures 0 < ps[0].index < q && 0 < ps[1].index < q && 0 < ps[2].index < q
    ensures ps[0].index != ps[1].index && ps[1].index != ps[2].index
  {
    hide IsPrime;
    assert Indices(ps)[0] == ps[0].index && Indices(ps)[1] == ps[1].index && Indices(ps)[2] == ps[2].index;
  }

  /** Points accepted by a refresh are multiples of their indices: one line through zero. */
  lemma AcceptedIsALineThroughZero(q: int, ps: seq<Share>) returns (c: int)
    requires FieldOrder(q) && RefreshAccepts(q, ps)
    ensures forall i :: 0 <= i < 3 ==> Cong(q, ps[i].point, c * ps[i].index)
  {
    hide IsPrime, Cong, Interpolate, DistinctShares;
    ThreeNodes(q, ps);
    NonZeroScalar(q, ps[0].index);
    var inv := Inverse(q, ps[0].index);
    c := ps[0].point * inv;
    FirstOnLine(q, ps[0], inv);
    SecondOnLine(q, ps[0], ps[1], c);
    SecondOnLine(q, ps[1], ps[2], c);
  }

  lemma FirstOnLine(q: int, x: Share, inv: int)
    requires 0 < q && Cong(q, x.index * inv, 1)
    ensures Cong(q, x.point, x.point * inv * x.index)
  {
    hide Cong;
    CongScale(q, x.point, x.index * inv, 1);
    assert x.point * (x.index * inv) == x.point * inv * x.index;
    CongSym(q, x.point * inv * x.index, x.point);
  }

  /** If two points interpolate to zero and the first is on a line through zero, so is the second. */
  lemma SecondOnLine(q: int, x: Share, y: Share, c: int)
    requires FieldOrder(q) && 0 < x.index < q && 0 < y.index < q && x.index != y.index
    requires DistinctShares(q, [x, y]) && Interpolate(q, [x, y]) == 0 && Cong(q, x.point, c * x.index)
    ensures Cong(q, y.point, c * y.index)
  {
    hide IsPrime, Cong, Interpolate;
    var line := [LineShare(q, 0, c, x.index), LineShare(q, 0, c, y.index)];
    LineRecovers(q, 0, c, x.index, y.index);
    // Put the two points in, one at a time.
    CongReduce(q, c * x.index);
    CongSym(q, c * x.index % q, c * x.index);
    CongTrans(q, x.point, c * x.index, c * x.index % q);
    EveryShareMatters(q, line, 0, x.point);
    var half := line[0 := Share(x.index, x.point)];
    EveryShareMatters(q, half, 1, y.point);
    assert half[1 := Share(y.index, y.point)] == [x, y];
    CongReduce(q, c * y.index);
    CongTrans(q, y.point, c * y.index % q, c * y.index);
  }

  ghost predicate HeldInOrder(q: int, secret: int, slope: int, order: seq<PartyIndex>, shares: seq<KeyShare>)
    requires 0 < q
  {
    |order| == |shares| == 3 && forall i :: 0 <= i < 3 ==> shares[i] == HeldShare(q, secret, slope, order[i])
  }

  /** A refresh that is accepted moves all three shares to another line of the same secret, whatever
      the slopes and in whatever order the shares are given. */
  lemma RefreshKeepsTheKey(q: int, secret: int, slope: int, order: seq<PartyIndex>, shares: seq<KeyShare>, slopes: seq<int>)
    requires FieldOrder(q) && |slopes| == 3 && HeldInOrder(q, secret, slope, order, shares)
    ensures var r := Refreshed(q, shares, slopes);
      r.Success? ==> exists slope' :: HeldInOrder(q, secret, slope', order, r.value)
  {
    hide IsPrime, Cong, Interpolate, Phase2Point, Column, LineRow;
    var r := Refreshed(q, shares, slopes);
    if r.Success? {
      var ps := Corrections(q, shares, slopes);
      var c := AcceptedIsALineThroughZero(q, ps);
      forall i | 0 <= i < 3 ensures r.value[i] == HeldShare(q, secret, slope + c, order[i]) {
        PointMoves(q, secret, slope, c, order[i], ps[i].point);
      }
      assert HeldInOrder(q, secret, slope + c, order, r.value);
    }
  }

  lemma PointMoves(q: int, secret: int, slope: int, c: int, index: PartyIndex, correction: int)
    requires 0 < q && Cong(q, correction, c * index)
    ensures Corrected(q, HeldShare(q, secret, slope, index), correction) == HeldShare(q, secret, slope + c, index)
  {
    hide Cong;
    var y := secret + slope * index;
    CongReduce(q, y);
    CongAdd(q, y % q, y, correction, c * index);
    CongIsEqualRemainders(q, y % q + correction, y + c * index);
    assert y + c * index == secret + (slope + c) * index;
  }

  /** With the shares in the order of their indices a refresh is always accepted, and the new slope is
      the old one plus the parties' three. */
  lemma RefreshInOrder(q: int, secret: int, slope: int, shares: seq<KeyShare>, slopes: seq<int>)
    requires FieldOrder(q) && |slopes| == 3 && HeldInOrder(q, secret, slope, [1, 2, 3], shares)
    ensures var r := Refreshed(q, shares, slopes);
      r.Success? && HeldInOrder(q, secret, slope + slopes[0] + slopes[1] + slopes[2], [1, 2, 3], r.value)
  {
    hide IsPrime, Cong, Interpolate;
    var ps, sum := Corrections(q, shares, slopes), slopes[0] + slopes[1] + slopes[2];
    forall i: Member ensures ps[i] == Share(i + 1, (0 + sum * (i + 1)) % q) {
      CorrectionOf(q, slopes, i);
    }
    assert ps == [LineShare(q, 0, sum, 1), LineShare(q, 0, sum, 2), LineShare(q, 0, sum, 3)];
    assert ps[..2] == [LineShare(q, 0, sum, 1), LineShare(q, 0, sum, 2)] && ps[1..] == [LineShare(q, 0, sum, 2), LineShare(q, 0, sum, 3)];
    LineRecovers(q, 0, sum, 1, 2);
    LineRecovers(q, 0, sum, 2, 3);
    assert Indices(ps) == [1, 2, 3];
    forall i: Member ensures RefreshedShares(q, shares, slopes)[i] == HeldShare(q, secret, slope + sum, i + 1) {
      CongReduce(q, sum * (i + 1));
      PointMoves(q, secret, slope, sum, i + 1, ps[i].point);
    }
  }

  lemma CorrectionOf(q: int, slopes: seq<int>, i: Member)
    requires FieldOrder(q) && |slopes| == 3
    ensures Phase2Point(q, Column(RefreshRows(q, slopes), i)) == (slopes[0] + slopes[1] + slopes[2]) * (i + 1) % q
  {
    hide IsPrime;
    var rows := RefreshRows(q, slopes);
    ColumnOfSquare(rows, i);
    SumOfThree(rows[0][i], rows[1][i], rows[2][i]);
    var a, b, c := slopes[0] * (i + 1), slopes[1] * (i + 1), slopes[2] * (i + 1);
    assert rows[0][i] == (0 + a) % q && rows[1][i] == (0 + b) % q && rows[2][i] == (0 + c) % q;
    SumOfRemainders(q, a, b, c);
    assert a + b + c == (slopes[0] + slopes[1] + slopes[2]) * (i + 1);
  }

  /** Old shares stop working with new ones exactly when the slopes did not cancel out. */
  lemma OldSharesStopIff(q: int, secret: int, slope: int, change: int, i: PartyIndex, j: PartyIndex)
    requires FieldOrder(q) && secret % q != 0 && i != j
    ensures Export(q, [HeldShare(q, secret, slope, i), HeldShare(q, secret, slope + change, j)], PointOf(secret % q)).Success?
            <==> change % q == 0
  {
    hide IsPrime, Export, Cong;
    ExportOfMixedEpochs(q, secret, slope, slope + change, i, j);
    ShiftIsZero(q, slope, change);
  }

  lemma ShiftIsZero(q: int, slope: int, change: int)
    requires 0 < q
    ensures Cong(q, slope, slope + change) <==> change % q == 0
  {
    if Cong(q, slope, slope + change) {
      CongSym(q, slope, slope + change);
    }
    if change % q == 0 {
      assert Cong(q, slope + change, slope);
      CongSym(q, slope + change, slope);
    }
  }

  // ---- the central reshare --------------------------------------------------------------------------------

  /** Reconstruct, and split again with a fresh slope. Nothing names the key to reproduce. */
  ghost function Resplit(q: int, shares: seq<KeyShare>, slope: int): Result<(seq<KeyShare>, PublicKey)>
    requires FieldOrder(q)
  {
    match Reconstruction(q, shares)
    case Failure(e) => Failure(e)
    case Success(key) =>
      match PublicKeyOf(q, key)
      case None => Failure(Backend(KeyLength))
      case Some(public) => Success((SharesOfLine(q, key, slope), public))
  }

  method Reshare(q: int, shares: seq<KeyShare>, slope: int) returns (r: Result<(seq<KeyShare>, PublicKey)>)
    requires FieldOrder(q)
    ensures r == Resplit(q, shares, slope)
  {
    hide IsPrime, SharesOfLine;
    var key := Reconstruct(q, shares);
    match key
    case Failure(e) => r := Failure(e);
    case Success(scalar) =>
      var public := PublicKeyOf(q, scalar);
      r := if public.None? then Failure(Backend(KeyLength)) else Success((SharesOfLine(q, scalar, slope), public.value));
  }

  /** The split goes through if and only if the list is usable and interpolates to a scalar with a key; it
      is then that scalar's three shares under that key. Otherwise the error is the reconstruction's, or
      that there is no key. */
  lemma ResplitsIff(q: int, shares: seq<KeyShare>, slope: int)
    requires FieldOrder(q)
    ensures var r := Resplit(q, shares, slope);
      if !Reconstructible(shares) then r == Failure(ReconstructionFault(shares))
      else
        && DistinctShares(q, PointsOf(shares))
        && var secret := Interpolate(q, PointsOf(shares));
        r == if secret == 0 then Failure(Backend(KeyLength)) else Success((SharesOfLine(q, secret, slope), PointOf(secret)))
  {
    hide IsPrime, Reconstruction, Reconstructible, ReconstructionFault, Interpolate, SharesOfLine;
    ReconstructsIff(q, shares);
    if Reconstructible(shares) {
      CanonicalRemainder(q, Interpolate(q, PointsOf(shares)));
    }
  }

  /** From two or more shares of one line the key stays, and any two of the new shares export it; from
      fewer nothing is split. */
  lemma ResplitKeepsTheKey(q: int, shares: seq<KeyShare>, secret: int, slope: int, renewed: int, a: PartyIndex, b: PartyIndex)
    requires FieldOrder(q) && secret % q != 0 && SharesOfPolynomial(q, shares, [secret, slope])
    requires a <= 3 && b <= 3 && a != b
    ensures var r := Resplit(q, shares, renewed);
      if |shares| < 2 then r == Failure(InvalidPartyCount(2, |shares|))
      else
        && r == Success((SharesOfLine(q, secret % q, renewed), PointOf(secret % q)))
        && Export(q, [r.value.0[a - 1], r.value.0[b - 1]], PointOf(secret % q)) == Success(secret % q)
  {
    hide IsPrime, Reconstruction, Export, SharesOfPolynomial;
    if |shares| < 2 {
      hide Reconstructible;
      assert !Reconstructible(shares) by {
        TooFew(shares);
      }
      ResplitsIff(q, shares, renewed);
    } else {
      ReconstructionIsTheSecret(q, shares, [secret, slope]);
      ReducedTwice(q, secret);
      AnyTwoSharesExport(q, secret % q, renewed, a, b);
    }
  }

  lemma TooFew(shares: seq<KeyShare>)
    requires |shares| < 2
    ensures !Reconstructible(shares)
  {
  }

  /** From shares of two epochs the wallet's key comes out exactly when the epochs are the same line.
      Otherwise the split goes through all the same, under another key, unless that is no key at all. */
  lemma ResplitOfMixedEpochs(q: int, secret: int, slope: int, slope': int, i: PartyIndex, j: PartyIndex, renewed: int)
    requires FieldOrder(q) && secret % q != 0 && i != j
    ensures var r := Resplit(q, [HeldShare(q, secret, slope, i), HeldShare(q, secret, slope', j)], renewed);
      && (r.Success? && r.value.1 == PointOf(secret % q) <==> Cong(q, slope, slope'))
      && (r.Failure? ==> r == Failure(Backend(KeyLength)))
  {
    hide IsPrime, Cong, Interpolate, SharesOfLine;
    var pair := [HeldShare(q, secret, slope, i), HeldShare(q, secret, slope', j)];
    PairOfPoints(pair[0], pair[1]);
    DecodedIndicesAreNodes(q, pair);
    MixedEpochs(q, secret, slope, slope', i, j);
    ReducedTwice(q, secret);
    CanonicalRemainder(q, Interpolate(q, PointsOf(pair)));
  }
}
