/** The two ceremonies that run on the party sessions: key generation, and the reshare that keeps the
    key while every share changes (docs/adr/0007-distributed-reshare.md). */
module Ceremony {
  import opened Prelude
  import opened Modular
  import opened Shamir
  import opened Keys
  import opened Backend
  import opened Wire
  import opened Upstream
  import opened Dkg
  import opened Drive
  import opened Honest

  // ---- rows that are lines ------------------------------------------------------------------------

  /** The line party `p` contributes. */
  datatype Line = Line(constant: int, slope: int)

  ghost predicate RowsAreLines(s: Session, lines: seq<Line>)
    requires 0 < s.q
  {
    Square(s.rows) && |lines| == 3 && forall p: Member :: s.rows[p] == LineRow(s.q, lines[p].constant, lines[p].slope)
  }

  function TotalConstant(lines: seq<Line>): int
    requires |lines| == 3
  {
    lines[0].constant + lines[1].constant + lines[2].constant
  }

  function TotalSlope(lines: seq<Line>): int
    requires |lines| == 3
  {
    lines[0].slope + lines[1].slope + lines[2].slope
  }

  lemma ColumnOnTotal(s: Session, lines: seq<Line>, p: Member)
    requires ValidSession(s) && RowsAreLines(s, lines)
    ensures PointOf3(s, p) == LineShare(s.q, TotalConstant(lines), TotalSlope(lines), p + 1).point
  {
    hide IsPrime, LineValue, LineRow;
    var x0, x1, x2 := LineValue(lines[0], p + 1), LineValue(lines[1], p + 1), LineValue(lines[2], p + 1);
    RowAt(s.q, lines[0], p);
    RowAt(s.q, lines[1], p);
    RowAt(s.q, lines[2], p);
    SumOfRemainders(s.q, x0, x1, x2);
    SumOfLines(lines, p + 1);
  }

  lemma RowAt(q: int, l: Line, p: Member)
    requires 0 < q
    ensures LineRow(q, l.constant, l.slope)[p] == LineValue(l, p + 1) % q
  {
  }

  lemma SumOfLines(lines: seq<Line>, x: int)
    requires |lines| == 3
    ensures LineValue(lines[0], x) + LineValue(lines[1], x) + LineValue(lines[2], x) == TotalConstant(lines) + TotalSlope(lines) * x
  {
  }

  function LineValue(l: Line, x: int): int {
    l.constant + l.slope * x
  }

  lemma SumOfRemainders(q: int, x: int, y: int, z: int)
    requires 0 < q
    ensures (x % q + y % q + z % q) % q == (x + y + z) % q
  {
    hide Cong;
    CongReduce(q, x);
    CongReduce(q, y);
    CongReduce(q, z);
    CongAdd(q, x % q, x, y % q, y);
    CongAdd(q, x % q + y % q, x + y, z % q, z);
    CongIsEqualRemainders(q, x % q + y % q + z % q, x + y + z);
  }

  /** The parties' points sum to one line, so the consistency test passes with its constant. */
  lemma LinesSum(s: Session, lines: seq<Line>)
    requires ValidSession(s) && RowsAreLines(s, lines)
    ensures JointSecret(s.q, JointPoints(s)) == Some(TotalConstant(lines) % s.q)
  {
    hide Cong, IsPrime, JointSecret, TotalConstant, TotalSlope;
    var c, m := TotalConstant(lines), TotalSlope(lines);
    var ps := JointPoints(s);
    forall i: Member ensures Cong(s.q, ps[i].point, c + m * (i + 1)) {
      ColumnOnTotal(s, lines, i);
      CongReduce(s.q, c + m * (i + 1));
    }
    LinePasses(s.q, c, m, ps);
  }

  /** The three shares of a line, as the parties hold them. */
  function SharesOfLine(q: int, secret: int, slope: int): seq<KeyShare>
    requires 0 < q
  {
    [HeldShare(q, secret, slope, 1), HeldShare(q, secret, slope, 2), HeldShare(q, secret, slope, 3)]
  }

  /** How a session on lines ends: the key of the summed constant, unless it is the point at
      infinity or not the key that was asked for. */
  function LineOutcome(q: int, secret: int, slope: int, expected: Option<PublicKey>): Result<(seq<KeyShare>, PublicKey)>
    requires 0 < q
  {
    if secret % q == 0 then Failure(Backend(KeyLength))
    else if expected.Some? && expected.value != PointOf(secret % q) then Failure(Backend(KeyWouldChange))
    else Success((SharesOfLine(q, secret, slope), PointOf(secret % q)))
  }

  lemma OutcomeOnLines(s: Session, lines: seq<Line>)
    requires ValidSession(s) && RowsAreLines(s, lines)
    ensures Outcome(s) == LineOutcome(s.q, TotalConstant(lines), TotalSlope(lines), s.expected)
  {
    hide IsPrime, JointSecret, JointPoints, TotalConstant, TotalSlope, PointOf3;
    LinesSum(s, lines);
    ColumnOnTotal(s, lines, 0);
    ColumnOnTotal(s, lines, 1);
    ColumnOnTotal(s, lines, 2);
    ReducedTwice(s.q, TotalConstant(lines));
  }

  // ---- any two shares work --------------------------------------------------------------------------

  /** Two shares of one line export its constant under its key. */
  lemma AnyTwoSharesExport(q: int, secret: int, slope: int, i: PartyIndex, j: PartyIndex)
    requires FieldOrder(q) && secret % q != 0 && i != j
    ensures Export(q, [HeldShare(q, secret, slope, i), HeldShare(q, secret, slope, j)], PointOf(secret % q))
         == Success(secret % q)
  {
    CongRefl(q, slope);
    ExportOfMixedEpochs(q, secret, slope, slope, i, j);
  }

  // ---- key generation ---------------------------------------------------------------------------------

  function GeneratedRows(q: int, lines: seq<Line>): (rows: seq<seq<int>>)
    requires 0 < q && |lines| == 3
    ensures Square(rows)
  {
    [LineRow(q, lines[0].constant, lines[0].slope), LineRow(q, lines[1].constant, lines[1].slope), LineRow(q, lines[2].constant, lines[2].slope)]
  }

  /** Opens the three parties with their rows and drives them to the end. */
  method DriveRows(q: int, session: int, rows: seq<seq<int>>, expected: Option<PublicKey>) returns (r: Result<(seq<KeyShare>, PublicKey)>)
    requires FieldOrder(q) && Square(rows)
    ensures r == Outcome(Session(q, session, rows, expected))
  {
    hide IsPrime, Run, Starts, Outcome, Started;
    var p0, out0 := DkgParty.StartWith(q, 0, session, rows[0], expected);
    var p1, out1 := DkgParty.StartWith(q, 1, session, rows[1], expected);
    var p2, out2 := DkgParty.StartWith(q, 2, session, rows[2], expected);
    ghost var s := Session(q, session, rows, expected);
    var parties := [p0, p1, p2];
    OpenedParties(s, parties, [out0, out1, out2]);
    r := DriveLocally(q, parties, out0 + out1 + out2);
    HonestRun(s, out0 + out1 + out2);
  }

  /** Key generation in one process, with the random lines as a parameter. It fails only when the
      three constants sum to zero. */
  method RunLocally(q: int, session: int, lines: seq<Line>) returns (r: Result<(seq<KeyShare>, PublicKey)>)
    requires FieldOrder(q) && |lines| == 3
    ensures r == LineOutcome(q, TotalConstant(lines), TotalSlope(lines), None)
  {
    hide IsPrime, Outcome, LineOutcome;
    var rows := GeneratedRows(q, lines);
    r := DriveRows(q, session, rows, None);
    OutcomeOnLines(Session(q, session, rows, None), lines);
  }

  lemma OpenedParties(s: Session, parties: seq<DkgParty>, outs: seq<seq<Envelope>>)
    requires ValidSession(s) && |parties| == |outs| == 3
    requires forall p: Member :: (parties[p].State(), outs[p]) == Started(p, s.id, s.rows[p], s.expected)
    ensures States(parties) == Starts(s)
    ensures outs[0] + outs[1] + outs[2] == Flight1(s)
  {
    assert parties[0].State() == AfterStart(s, 0) && parties[1].State() == AfterStart(s, 1) && parties[2].State() == AfterStart(s, 2);
    assert outs[0] == Sent1(s, 0) && outs[1] == Sent1(s, 1) && outs[2] == Sent1(s, 2);
  }

  // ---- reshare: what a survivor contributes -----------------------------------------------------------

  /** The Lagrange coefficient at zero for `me` over the survivor set. */
  function SurvivorWeight(q: int, me: PartyId, first: PartyId, second: PartyId): Result<int>
    requires FieldOrder(q)
  {
    if first == second || first >= TOTAL_PARTIES || second >= TOTAL_PARTIES then Failure(Backend(SurvivorsNotDistinct))
    else if me != first && me != second then Failure(Backend(NotASurvivor))
    else
      var mine := me + 1;
      var theirs := (if me == first then second else first) + 1;
      match Invert(q, theirs - mine)
      case None => Failure(Backend(NotInvertible))
      case Some(inverse) => Success(theirs * inverse % q)
  }

  /** This survivor's polynomial at every party index: its weighted share plus a fresh slope. */
  function ReshareRow(q: int, me: PartyId, share: KeyShare, first: PartyId, second: PartyId, slope: int): Result<seq<int>>
    requires FieldOrder(q)
  {
    if share.party != me then Failure(Backend(ShareOfAnotherParty))
    else if share.secret.None? then Failure(Backend(ShareDecode))
    else if me == 255 then Failure(Backend(BadPartyIndex))
    else if share.secret.value.index != me + 1 then Failure(Backend(ShareOfAnotherParty))
    else
      match SurvivorWeight(q, me, first, second)
      case Failure(e) => Failure(e)
      case Success(weight) => Success(LineRow(q, weight * share.secret.value.polyPoint, slope))
  }

  datatype Role = Survivor(share: KeyShare, first: PartyId, second: PartyId, slope: int) | Joiner

  /** What a party contributes to a reshare. */
  function RoleRow(q: int, me: PartyId, role: Role): Result<seq<int>>
    requires FieldOrder(q)
  {
    match role
    case Joiner => Success([0, 0, 0])
    case Survivor(share, first, second, slope) => ReshareRow(q, me, share, first, second, slope)
  }

  /** The survivors' two points, under their indices. */
  function SurvivorPoints(i: Member, yi: int, k: Member, yk: int): seq<Share> {
    [Share(i + 1, yi), Share(k + 1, yk)]
  }

  lemma SurvivorNodes(q: int, i: Member, yi: int, k: Member, yk: int)
    requires FieldOrder(q) && i != k
    ensures Indices(SurvivorPoints(i, yi, k, yk)) == [i + 1, k + 1]
    ensures DistinctShares(q, SurvivorPoints(i, yi, k, yk))
  {
  }

  /** The survivors' weights always exist, whichever pair survives, and the weighted shares sum to
      the value their two points interpolate to. */
  lemma WeightedSharesInterpolate(q: int, i: Member, yi: int, k: Member, yk: int)
    requires FieldOrder(q) && i != k
    ensures DistinctShares(q, SurvivorPoints(i, yi, k, yk))
    ensures var wi, wk := SurvivorWeight(q, i, i, k), SurvivorWeight(q, k, i, k);
      && wi.Success? && wk.Success?
      && wi == SurvivorWeight(q, i, k, i) && wk == SurvivorWeight(q, k, k, i)
      && (wi.value * yi + wk.value * yk) % q == Interpolate(q, SurvivorPoints(i, yi, k, yk))
  {
    hide Cong, IsPrime, Times;
    SurvivorNodes(q, i, yi, k, yk);
    var xs := [i + 1, k + 1];
    DifferenceIsNotZero(q, k + 1, i + 1);
    DifferenceIsNotZero(q, i + 1, k + 1);
    var wi, wk := SurvivorWeight(q, i, i, k).value, SurvivorWeight(q, k, i, k).value;
    PairWeights(q, i + 1, k + 1);
    var ui, uk := Weight(q, xs, i + 1), Weight(q, xs, k + 1);
    TimesRespects(q, wi, ui, yi);
    TimesRespects(q, wk, uk, yk);
    CongAdd(q, Times(wi, yi), Times(ui, yi), Times(wk, yk), Times(uk, yk));
    BlendOfPair(q, SurvivorPoints(i, yi, k, yk));
    Unfold(wi, yi);
    Unfold(wk, yk);
    TimesFlipped(ui, yi);
    TimesFlipped(uk, yk);
    CongIsEqualRemainders(q, wi * yi + wk * yk, Times(yi, ui) + Times(yk, uk));
  }

  lemma Unfold(x: int, y: int)
    ensures Times(x, y) == x * y
  {
  }

  lemma TimesFlipped(x: int, y: int)
    ensures Times(x, y) == Times(y, x)
  {
  }

  lemma BlendOfPair(q: int, ps: seq<Share>)
    requires FieldOrder(q) && |ps| == 2 && DistinctShares(q, ps)
    ensures InFieldAll(q, Indices(ps)) && InField(q, ps[0].index) && InField(q, ps[1].index)
    ensures Blend(q, ps, Indices(ps))
         == Times(ps[0].point, Weight(q, Indices(ps), ps[0].index)) + Times(ps[1].point, Weight(q, Indices(ps), ps[1].index))
  {
    hide Times, Cong, IsPrime, Weight;
    var xs := Indices(ps);
    assert xs[0] == ps[0].index && xs[1] == ps[1].index;
    assert ps[..1][..0] == [] && ps[..1][0] == ps[0];
    assert InFieldAll(q, Indices(ps[..1]));
    assert InFieldAll(q, Indices(ps[..1][..0]));
    assert Blend(q, ps[..1][..0], xs) == 0;
    assert Blend(q, ps[..1], xs) == Times(ps[0].point, Weight(q, xs, ps[0].index));
  }

  /** Over two nodes the general coefficient is the formula the survivors use. */
  lemma PairWeights(q: int, a: int, b: int)
    requires FieldOrder(q) && 0 < a < q && 0 < b < q && a != b
    ensures (b - a) % q != 0 && (a - b) % q != 0 && InFieldAll(q, [a, b])
    ensures Cong(q, b * Inverse(q, b - a) % q, Weight(q, [a, b], a))
    ensures Cong(q, a * Inverse(q, a - b) % q, Weight(q, [a, b], b))
  {
    hide Cong, IsPrime, Num, Den;
    DifferenceIsNotZero(q, b, a);
    DifferenceIsNotZero(q, a, b);
    PairProducts(a, b);
    Unfold(b, Inverse(q, b - a));
    Unfold(a, Inverse(q, a - b));
    CongReduce(q, b * Inverse(q, b - a));
    CongReduce(q, a * Inverse(q, a - b));
  }

  lemma PairProducts(a: int, b: int)
    requires a != b
    ensures Num([a, b], a) == b && Den([a, b], a) == b - a
    ensures Num([a, b], b) == a && Den([a, b], b) == a - b
  {
    hide Times;
    assert [] + [a] == [a] && [a] + [b] == [a, b];
    NumSnoc([], a, a);
    NumSnoc([], a, b);
    NumSnoc([a], b, a);
    NumSnoc([a], b, b);
    DenSnoc([], a, a);
    DenSnoc([], a, b);
    DenSnoc([a], b, a);
    DenSnoc([a], b, b);
    OneTimes(1);
    OneTimes(a);
    OneTimes(b);
    OneTimes(b - a);
    OneTimes(a - b);
  }

  // ---- reshare: whole runs ------------------------------------------------------------------------------

  /** Both survivors hold shares that decode to their own index. */
  ghost predicate SurvivorShares(i: Member, si: KeyShare, k: Member, sk: KeyShare) {
    && i != k
    && si.party == i && si.secret.Some? && si.secret.value.index == i + 1
    && sk.party == k && sk.secret.Some? && sk.secret.value.index == k + 1
  }

  /** The role a party plays when the shares of `i` and `k` survive. */
  function RoleOf(p: Member, i: PartyId, si: KeyShare, ri: int, k: PartyId, sk: KeyShare, rk: int): Role {
    if p == i then Survivor(si, i, k, ri) else if p == k then Survivor(sk, i, k, rk) else Joiner
  }

  /** The secret the survivors' points stand for. */
  function SurvivingSecret(q: int, i: Member, yi: int, k: Member, yk: int): int
    requires FieldOrder(q) && i != k
  {
    SurvivorNodes(q, i, yi, k, yk);
    Interpolate(q, SurvivorPoints(i, yi, k, yk))
  }

  /** The lines behind the rows of a reshare. */
  function ReshareLines(q: int, i: Member, yi: int, ri: int, k: Member, yk: int, rk: int): (lines: seq<Line>)
    requires FieldOrder(q) && i != k
    ensures |lines| == 3
  {
    WeightedSharesInterpolate(q, i, yi, k, yk);
    var li := Line(SurvivorWeight(q, i, i, k).value * yi, ri);
    var lk := Line(SurvivorWeight(q, k, i, k).value * yk, rk);
    [if i == 0 then li else if k == 0 then lk else Line(0, 0),
     if i == 1 then li else if k == 1 then lk else Line(0, 0),
     if i == 2 then li else if k == 2 then lk else Line(0, 0)]
  }

  lemma ReshareRowsAreLines(q: int, i: Member, si: KeyShare, ri: int, k: Member, sk: KeyShare, rk: int)
    requires FieldOrder(q) && SurvivorShares(i, si, k, sk)
    ensures var yi, yk := si.secret.value.polyPoint, sk.secret.value.polyPoint;
      var lines := ReshareLines(q, i, yi, ri, k, yk, rk);
      && (forall p: Member :: RoleRow(q, p, RoleOf(p, i, si, ri, k, sk, rk)) == Success(LineRow(q, lines[p].constant, lines[p].slope)))
      && TotalConstant(lines) % q == SurvivingSecret(q, i, yi, k, yk)
      && TotalSlope(lines) == ri + rk
  {
    hide Cong, IsPrime, Interpolate, SurvivorWeight;
    var yi, yk := si.secret.value.polyPoint, sk.secret.value.polyPoint;
    WeightedSharesInterpolate(q, i, yi, k, yk);
    ZeroRow(q);
  }

  lemma ZeroRow(q: int)
    requires 0 < q
    ensures LineRow(q, 0, 0) == [0, 0, 0]
  {
  }

  /** A reshare from any two survivors, for every old pair of points and all fresh slopes: it is
      accepted exactly when the two points interpolate to the secret behind the expected key, and
      then the three new shares lie on one fresh line with that secret. */
  ghost function ReshareOutcome(q: int, i: Member, yi: int, ri: int, k: Member, yk: int, rk: int, expected: PublicKey)
    : Result<(seq<KeyShare>, PublicKey)>
    requires FieldOrder(q) && i != k
  {
    var secret := SurvivingSecret(q, i, yi, k, yk);
    if PublicKeyOf(q, secret) == Some(expected) then Success((SharesOfLine(q, secret, ri + rk), expected))
    else if secret == 0 then Failure(Backend(KeyLength))
    else Failure(Backend(KeyWouldChange))
  }

  /** Why a share cannot start as a survivor of this pair, in the order of the checks. */
  function SurvivorFault(share: KeyShare, first: PartyId, second: PartyId): Option<Fault> {
    if share.secret.None? then Some(ShareDecode)
    else if share.secret.value.index != share.party + 1 then Some(ShareOfAnotherParty)
    else if first == second || first >= TOTAL_PARTIES || second >= TOTAL_PARTIES then Some(SurvivorsNotDistinct)
    else None
  }

  /** The parties are opened in order, so the lower one's fault comes first; of two shares of one party
      only the first is looked at, and a share of no party at all is never looked at. */
  function StartFault(first: KeyShare, second: KeyShare): Option<Fault> {
    var a := if first.party < TOTAL_PARTIES then SurvivorFault(first, first.party, second.party) else None;
    var b := if second.party < TOTAL_PARTIES && second.party != first.party
             then SurvivorFault(second, first.party, second.party) else None;
    if a.Some? && (b.None? || first.party < second.party) then a else b
  }

  /** A survivor's row exists if and only if the share is this party's own, decodes to its index, and the
      party is one of two different ones of the three. */
  lemma SurvivorRowIff(q: int, me: PartyId, share: KeyShare, first: PartyId, second: PartyId, slope: int)
    requires FieldOrder(q)
    ensures RoleRow(q, me, Survivor(share, first, second, slope)).Success? <==>
      && share.party == me && share.secret.Some? && share.secret.value.index == me + 1
      && first != second && first < 3 && second < 3 && (me == first || me == second)
  {
    hide IsPrime, LineRow, Inverse;
    if first != second && first < 3 && second < 3 && (me == first || me == second) {
      DifferenceIsNotZero(q, first + 1, second + 1);
      DifferenceIsNotZero(q, second + 1, first + 1);
    }
  }

  /** How a reshare in one process ends, for any two shares whatever. */
  ghost function LocalReshare(q: int, first: KeyShare, ri: int, second: KeyShare, rk: int, expected: PublicKey)
    : Result<(seq<KeyShare>, PublicKey)>
    requires FieldOrder(q)
  {
    if StartFault(first, second).Some? then Failure(Backend(StartFault(first, second).value))
    else if first.party >= TOTAL_PARTIES then Failure(Backend(KeyLength))
    else
      ReshareOutcome(q, first.party, first.secret.value.polyPoint, ri, second.party, second.secret.value.polyPoint, rk, expected)
  }

  /** Starts the three parties in their roles and drives them. The first role that cannot start
      fails the whole run; with two shares of no party nobody contributes, and the sum is no key. */
  method ReshareLocally(q: int, first: KeyShare, ri: int, second: KeyShare, rk: int, expected: PublicKey, session: int)
    returns (r: Result<(seq<KeyShare>, PublicKey)>)
    requires FieldOrder(q)
    ensures r == LocalReshare(q, first, ri, second, rk, expected)
  {
    hide IsPrime, Outcome, RoleRow, RoleOf, ReshareOutcome, StartFault;
    var i: PartyId, k: PartyId := first.party, second.party;
    var rows: seq<seq<int>> := [];
    for p := 0 to TOTAL_PARTIES
      invariant |rows| == p && forall m :: 0 <= m < p ==> |rows[m]| == 3
      invariant forall m: Member :: m < p ==> RoleRow(q, m, RoleOf(m, i, first, ri, k, second, rk)) == Success(rows[m])
    {
      var row := RoleRow(q, p, RoleOf(p, i, first, ri, k, second, rk));
      if row.Failure? {
        FirstRefusal(q, first, ri, second, rk, p);
        return Failure(row.error);
      }
      RowLength(q, p, RoleOf(p, i, first, ri, k, second, rk));
      rows := rows + [row.value];
    }
    r := DriveRows(q, session, rows, Some(expected));
    StartedSessionOutcome(Session(q, session, rows, Some(expected)), first, ri, second, rk, expected);
  }

  /** It succeeds if and only if the two shares belong to two different parties of the three, decode to
      those parties' indices, and their points interpolate to the secret behind the expected key. */
  lemma LocalReshareSucceedsIff(q: int, first: KeyShare, ri: int, second: KeyShare, rk: int, expected: PublicKey)
    requires FieldOrder(q)
    ensures LocalReshare(q, first, ri, second, rk, expected).Success? <==>
      && first.party != second.party && first.party < 3 && second.party < 3
      && first.secret.Some? && first.secret.value.index == first.party + 1
      && second.secret.Some? && second.secret.value.index == second.party + 1
      && var secret := SurvivingSecret(q, first.party, first.secret.value.polyPoint, second.party, second.secret.value.polyPoint);
      secret % q != 0 && expected == PointOf(secret % q)
  {
    hide IsPrime, SurvivingSecret;
  }

  lemma RowLength(q: int, p: PartyId, role: Role)
    requires FieldOrder(q) && RoleRow(q, p, role).Success?
    ensures |RoleRow(q, p, role).value| == 3
  {
  }

  /** A role starts unless its share is at fault. */
  lemma RoleRowFaults(q: int, p: Member, first: KeyShare, ri: int, second: KeyShare, rk: int)
    requires FieldOrder(q)
    ensures var r := RoleRow(q, p, RoleOf(p, first.party, first, ri, second.party, second, rk));
      var fault := if p == first.party then SurvivorFault(first, first.party, second.party)
                   else if p == second.party then SurvivorFault(second, first.party, second.party) else None;
      if fault.Some? then r == Failure(Backend(fault.value)) else r.Success?
  {
    hide IsPrime;
    if p == first.party != second.party && second.party < 3 {
      DifferenceIsNotZero(q, second.party + 1, p + 1);
    }
    if p == second.party != first.party && first.party < 3 {
      DifferenceIsNotZero(q, first.party + 1, p + 1);
    }
  }

  /** The first role that is refused is refused with the fault of the pair. */
  lemma FirstRefusal(q: int, first: KeyShare, ri: int, second: KeyShare, rk: int, p: Member)
    requires FieldOrder(q)
    requires forall m: Member :: m < p ==> RoleRow(q, m, RoleOf(m, first.party, first, ri, second.party, second, rk)).Success?
    requires RoleRow(q, p, RoleOf(p, first.party, first, ri, second.party, second, rk)).Failure?
    ensures StartFault(first, second).Some?
    ensures RoleRow(q, p, RoleOf(p, first.party, first, ri, second.party, second, rk)) == Failure(Backend(StartFault(first, second).value))
  {
    hide IsPrime, RoleRow, RoleOf, SurvivorFault;
    RoleRowFaults(q, 0, first, ri, second, rk);
    RoleRowFaults(q, 1, first, ri, second, rk);
    RoleRowFaults(q, 2, first, ri, second, rk);
  }

  /** If all three start, either the two are survivors or nobody is. */
  lemma AllStart(q: int, first: KeyShare, ri: int, second: KeyShare, rk: int)
    requires FieldOrder(q)
    requires forall m: Member :: RoleRow(q, m, RoleOf(m, first.party, first, ri, second.party, second, rk)).Success?
    ensures StartFault(first, second) == None
    ensures if first.party < 3 then second.party < 3 && SurvivorShares(first.party, first, second.party, second) else second.party >= 3
  {
    hide IsPrime, RoleRow, RoleOf;
    if first.party < 3 {
      RoleRowFaults(q, first.party, first, ri, second, rk);
    }
    if second.party < 3 {
      RoleRowFaults(q, second.party, first, ri, second, rk);
    }
  }

  lemma StartedSessionOutcome(s: Session, first: KeyShare, ri: int, second: KeyShare, rk: int, expected: PublicKey)
    requires ValidSession(s) && s.expected == Some(expected)
    requires forall p: Member :: RoleRow(s.q, p, RoleOf(p, first.party, first, ri, second.party, second, rk)) == Success(s.rows[p])
    ensures Outcome(s) == LocalReshare(s.q, first, ri, second, rk, expected)
  {
    hide IsPrime, Outcome, RoleRow, ReshareOutcome, StartFault, SurvivorShares;
    AllStart(s.q, first, ri, second, rk);
    if first.party < 3 {
      ReshareSessionOutcome(s, first.party, first, ri, second.party, second, rk, expected);
    } else {
      NobodyContributes(s, first, ri, second, rk);
    }
  }

  lemma NobodyContributes(s: Session, first: KeyShare, ri: int, second: KeyShare, rk: int)
    requires ValidSession(s) && first.party >= 3 && second.party >= 3
    requires forall p: Member :: RoleRow(s.q, p, RoleOf(p, first.party, first, ri, second.party, second, rk)) == Success(s.rows[p])
    ensures Outcome(s) == Failure(Backend(KeyLength))
  {
    hide IsPrime, Outcome;
    var lines := [Line(0, 0), Line(0, 0), Line(0, 0)];
    ZeroRow(s.q);
    assert RowsAreLines(s, lines);
    OutcomeOnLines(s, lines);
  }

  /** A reshare session ends as the survivors' points decide. */
  lemma ReshareSessionOutcome(s: Session, i: Member, si: KeyShare, ri: int, k: Member, sk: KeyShare, rk: int, expected: PublicKey)
    requires ValidSession(s) && SurvivorShares(i, si, k, sk) && s.expected == Some(expected)
    requires forall p: Member :: RoleRow(s.q, p, RoleOf(p, i, si, ri, k, sk, rk)) == Success(s.rows[p])
    ensures Outcome(s) == ReshareOutcome(s.q, i, si.secret.value.polyPoint, ri, k, sk.secret.value.polyPoint, rk, expected)
  {
    hide IsPrime, Outcome, SurvivorWeight, Interpolate, LineRow, TotalConstant, TotalSlope;
    var yi, yk := si.secret.value.polyPoint, sk.secret.value.polyPoint;
    var lines := ReshareLines(s.q, i, yi, ri, k, yk, rk);
    ReshareRowsAreLines(s.q, i, si, ri, k, sk, rk);
    assert RowsAreLines(s, lines);
    OutcomeOnLines(s, lines);
    var secret := SurvivingSecret(s.q, i, yi, k, yk);
    SurvivingSecretIsCanonical(s.q, i, yi, k, yk);
    KeyNamesScalar(s.q, secret, expected.scalar);
    SharesDependOnSecretOnly(s.q, TotalConstant(lines), secret, ri + rk);
  }

  lemma SurvivingSecretIsCanonical(q: int, i: Member, yi: int, k: Member, yk: int)
    requires FieldOrder(q) && i != k
    ensures InField(q, SurvivingSecret(q, i, yi, k, yk))
    ensures SurvivingSecret(q, i, yi, k, yk) % q == SurvivingSecret(q, i, yi, k, yk)
  {
    hide IsPrime, Interpolate, Cong;
    SurvivorNodes(q, i, yi, k, yk);
    CanonicalRemainder(q, SurvivingSecret(q, i, yi, k, yk));
  }

  lemma CanonicalRemainder(q: int, x: int)
    requires 0 < q && InField(q, x)
    ensures x % q == x
  {
  }

  lemma SharesDependOnSecretOnly(q: int, c: int, secret: int, slope: int)
    requires 0 < q && c % q == secret
    ensures SharesOfLine(q, c, slope) == SharesOfLine(q, secret, slope)
  {
    ReducedTwice(q, c);
    forall x: int ensures (c + slope * x) % q == (secret + slope * x) % q {
      CongReduce(q, c);
      CongRefl(q, slope * x);
      CongAdd(q, c, secret, slope * x, slope * x);
      CongIsEqualRemainders(q, c + slope * x, secret + slope * x);
    }
  }

  // ---- what a reshare keeps ---------------------------------------------------------------------------

  /** Survivors of one line: the reshare succeeds for every wallet key and all fresh slopes, the
      key is the same, and each two of the new shares export it. */
  lemma ReshareKeepsTheKey(q: int, secret: int, slope: int, i: Member, ri: int, k: Member, rk: int, a: PartyIndex, b: PartyIndex)
    requires FieldOrder(q) && secret % q != 0 && i != k && a <= 3 && b <= 3 && a != b
    ensures var r := ReshareOutcome(q, i, LineShare(q, secret, slope, i + 1).point, ri,
                                    k, LineShare(q, secret, slope, k + 1).point, rk, PointOf(secret % q));
      && r == Success((SharesOfLine(q, secret % q, ri + rk), PointOf(secret % q)))
      && Export(q, [r.value.0[a - 1], r.value.0[b - 1]], PointOf(secret % q)) == Success(secret % q)
  {
    hide IsPrime, Interpolate, Export;
    LineRecovers(q, secret, slope, i + 1, k + 1);
    CongReduce(q, secret);
    ReducedTwice(q, secret);
    KeyNamesScalar(q, secret % q, secret % q);
    AnyTwoSharesExport(q, secret % q, ri + rk, a, b);
  }

  /** Survivors of two different epochs: the reshare is accepted exactly when the epochs are the
      same line. */
  lemma ReshareRefusesMixedEpochs(q: int, secret: int, slope: int, slope': int, i: Member, ri: int, k: Member, rk: int)
    requires FieldOrder(q) && secret % q != 0 && i != k
    ensures ReshareOutcome(q, i, LineShare(q, secret, slope, i + 1).point, ri,
                           k, LineShare(q, secret, slope', k + 1).point, rk, PointOf(secret % q)).Success?
            <==> Cong(q, slope, slope')
  {
    hide IsPrime, Interpolate, Cong;
    MixedEpochs(q, secret, slope, slope', i + 1, k + 1);
    CongReduce(q, secret);
    var found := SurvivingSecret(q, i, LineShare(q, secret, slope, i + 1).point, k, LineShare(q, secret, slope', k + 1).point);
    SurvivingSecretIsCanonical(q, i, LineShare(q, secret, slope, i + 1).point, k, LineShare(q, secret, slope', k + 1).point);
    KeyNamesScalar(q, found, secret % q);
  }
}
