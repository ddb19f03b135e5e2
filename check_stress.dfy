/** Combined stresses for fatigue (FEM 2131/2132, 3-4.5.1.3): each row's
    measured extremes are divided by the permissible stresses of the
    matching sense, and the axis and shear ratios are fused into the
    combined ratios ratio_1 (formula (5)) and ratio_2 = sqrt(ratio_1). */
module CheckStress {
  import opened RealMath

  /** One row of the columns the combined check reads: the measured
      extremes (signed, positive = tension) and the permissible stresses
      attached by the axial and shear stages. */
  datatype CheckRow = CheckRow(
    sigmaXMax: real, sigmaYMax: real, tauXYMax: real,
    sigmaTx: real, sigmaCx: real, sigmaTy: real, sigmaCy: real,
    tauA: real)

  /** The sense of a measured extreme, which decides the permissible stress
      it is divided by. */
  datatype Sense = Tension | Compression

  /** A measured maximum of zero counts as tension. */
  function SenseOf(sigmaMax: real): (s: Sense)
    ensures s == Tension <==> 0.0 <= sigmaMax
  {
    if sigmaMax >= 0.0 then Tension else Compression
  }

  /** The permissible stress that governs sigmaMax: sigmaT for tension
      (sigmaMax >= 0), sigmaC for compression (sigmaMax < 0). */
  function PermissibleStress(sigmaMax: real, sigmaT: real, sigmaC: real): (s: real)
    ensures 0.0 <= sigmaMax ==> s == sigmaT
    ensures sigmaMax < 0.0 ==> s == sigmaC
  {
    match SenseOf(sigmaMax)
    case Tension => sigmaT
    case Compression => sigmaC
  }

  /** With a positive tension and a negative compression capacity, the
      selected capacity has the sense of the measured stress: it is
      positive exactly when the stress is non-negative (zero included). */
  lemma PermissibleStressMatchesSense(sigmaMax: real, sigmaT: real, sigmaC: real)
    requires 0.0 < sigmaT && sigmaC < 0.0
    ensures PermissibleStress(sigmaMax, sigmaT, sigmaC) != 0.0
    ensures 0.0 < PermissibleStress(sigmaMax, sigmaT, sigmaC) <==> 0.0 <= sigmaMax
    ensures 0.0 <= sigmaMax * PermissibleStress(sigmaMax, sigmaT, sigmaC)
  {
    if sigmaMax < 0.0 {
      assert sigmaMax * sigmaC == (-sigmaMax) * (-sigmaC);
    }
  }

  /** Stress ratio: the measured maximum over the selected permissible
      stress. It is non-negative when the capacities have their usual signs. */
  function Ratio(sigmaMax: real, sigmaT: real, sigmaC: real): (r: real)
    requires PermissibleStress(sigmaMax, sigmaT, sigmaC) != 0.0
    ensures r * PermissibleStress(sigmaMax, sigmaT, sigmaC) == sigmaMax
    ensures 0.0 < sigmaT && sigmaC < 0.0 ==> 0.0 <= r
  {
    var s := PermissibleStress(sigmaMax, sigmaT, sigmaC);
    assert 0.0 < sigmaT && sigmaC < 0.0 && sigmaMax < 0.0 ==> sigmaMax / s == (-sigmaMax) / (-s);
    sigmaMax / s
  }

  /** Permissible stress governing sigma_x (also what the getter returns). */
  function PermissibleStressX(row: CheckRow): (s: real)
    ensures 0.0 <= row.sigmaXMax ==> s == row.sigmaTx
    ensures row.sigmaXMax < 0.0 ==> s == row.sigmaCx
  {
    PermissibleStress(row.sigmaXMax, row.sigmaTx, row.sigmaCx)
  }

  /** Permissible stress governing sigma_y (also what the getter returns). */
  function PermissibleStressY(row: CheckRow): (s: real)
    ensures 0.0 <= row.sigmaYMax ==> s == row.sigmaTy
    ensures row.sigmaYMax < 0.0 ==> s == row.sigmaCy
  {
    PermissibleStress(row.sigmaYMax, row.sigmaTy, row.sigmaCy)
  }

  /** The permissible shear stress, returned as it was read. */
  function PermissibleStressTxy(row: CheckRow): (s: real)
    ensures s == row.tauA
  {
    row.tauA
  }

  /** Stress ratio for sigma_x against the capacity of its own sense. */
  function RatioSigmaX(row: CheckRow): (r: real)
    requires PermissibleStressX(row) != 0.0
    ensures r * PermissibleStressX(row) == row.sigmaXMax
    ensures 0.0 < row.sigmaTx && row.sigmaCx < 0.0 ==> 0.0 <= r
  {
    Ratio(row.sigmaXMax, row.sigmaTx, row.sigmaCx)
  }

  /** Stress ratio for sigma_y against the capacity of its own sense. */
  function RatioSigmaY(row: CheckRow): (r: real)
    requires PermissibleStressY(row) != 0.0
    ensures r * PermissibleStressY(row) == row.sigmaYMax
    ensures 0.0 < row.sigmaTy && row.sigmaCy < 0.0 ==> 0.0 <= r
  {
    Ratio(row.sigmaYMax, row.sigmaTy, row.sigmaCy)
  }

  /** Shear ratio |tau_xy_max| / tau_a: shear has no sense, so the absolute
      value of the measured extreme is always used. */
  function RatioTauXY(row: CheckRow): (r: real)
    requires row.tauA != 0.0
    ensures r * row.tauA == Abs(row.tauXYMax)
    ensures 0.0 < row.tauA ==> 0.0 <= r
  {
    Abs(row.tauXYMax) / row.tauA
  }

  /** The shear ratio does not depend on the sign of the measured shear. */
  lemma RatioTauXYIgnoresSign(row: CheckRow)
    requires row.tauA != 0.0
    ensures RatioTauXY(row.(tauXYMax := -row.tauXYMax)) == RatioTauXY(row)
  {
    assert Abs(-row.tauXYMax) == Abs(row.tauXYMax);
  }

  /** The biaxial cross term sigma_x sigma_y / |p_x p_y|: only the product
      of the permissible stresses is made absolute, so the term keeps the
      sign of sigma_x sigma_y. */
  function CrossTerm(row: CheckRow): (c: real)
    requires PermissibleStressX(row) != 0.0 && PermissibleStressY(row) != 0.0
    ensures c * Abs(PermissibleStressX(row) * PermissibleStressY(row)) == row.sigmaXMax * row.sigmaYMax
  {
    var d := Abs(PermissibleStressX(row) * PermissibleStressY(row));
    AbsOfProduct(PermissibleStressX(row), PermissibleStressY(row));
    assert d != 0.0;
    row.sigmaXMax * row.sigmaYMax / d
  }

  /** The arithmetic behind the cross term: c |px py| = sx sy, rx px = sx
      and ry py = sy give c the sign of sx sy and the magnitude |rx ry|. */
  lemma CrossTermArithmetic(c: real, sx: real, sy: real, px: real, py: real, rx: real, ry: real)
    requires px != 0.0 && py != 0.0
    requires c * Abs(px * py) == sx * sy && rx * px == sx && ry * py == sy
    ensures 0.0 < c <==> 0.0 < sx * sy
    ensures c < 0.0 <==> sx * sy < 0.0
    ensures Abs(c) == Abs(rx * ry)
  {
    AbsOfProduct(px, py);
    SignUnderPositiveScale(c, Abs(px * py), sx * sy);
    assert (rx * ry) * (px * py) == (rx * px) * (ry * py);
    SameMagnitude(c, rx * ry, px * py, sx * sy);
  }

  /** The cross term has the sign of sigma_x sigma_y and the magnitude of
      the product of the two axis ratios. */
  lemma CrossTermSignAndMagnitude(row: CheckRow)
    requires PermissibleStressX(row) != 0.0 && PermissibleStressY(row) != 0.0
    ensures 0.0 < CrossTerm(row) <==> 0.0 < row.sigmaXMax * row.sigmaYMax
    ensures CrossTerm(row) < 0.0 <==> row.sigmaXMax * row.sigmaYMax < 0.0
    ensures Abs(CrossTerm(row)) == Abs(RatioSigmaX(row) * RatioSigmaY(row))
  {
    CrossTermArithmetic(CrossTerm(row), row.sigmaXMax, row.sigmaYMax,
      PermissibleStressX(row), PermissibleStressY(row), RatioSigmaX(row), RatioSigmaY(row));
  }

  /** A measured 100 MPa against capacities of 120 MPa in tension and
      -80 MPa in compression uses the tension capacity: 100 / 120 = 5/6. */
  lemma RatioScenario()
    ensures Ratio(100.0, 120.0, -80.0) == 5.0 / 6.0
  {
  }

  /** Every denominator of the combined ratios is nonzero. */
  predicate RowDefined(row: CheckRow)
  {
    PermissibleStressX(row) != 0.0 && PermissibleStressY(row) != 0.0 && row.tauA != 0.0
  }

  /** Formula (5) over the three ratios and the cross term:
      rx^2 + ry^2 - cross + rt^2. When |cross| = |rx ry| it is never below
      (rx^2 + ry^2) / 2 + rt^2, hence never negative. */
  function Formula5(rx: real, ry: real, rt: real, cross: real): (r1: real)
    requires Abs(cross) == Abs(rx * ry)
    ensures (rx * rx + ry * ry) / 2.0 + rt * rt <= r1
    ensures 0.0 <= r1
  {
    CombinedLowerBound(rx, ry, rt, cross);
    rx * rx + ry * ry - cross + rt * rt
  }

  /** Combined ratio ratio_1 of a row: formula (5) applied to its axis
      ratios, its shear ratio and its cross term. */
  function Ratio1(row: CheckRow): (r1: real)
    requires RowDefined(row)
    ensures var rx, ry, rt := RatioSigmaX(row), RatioSigmaY(row), RatioTauXY(row);
      (rx * rx + ry * ry) / 2.0 + rt * rt <= r1
    ensures 0.0 <= r1
  {
    CrossTermSignAndMagnitude(row);
    Formula5(RatioSigmaX(row), RatioSigmaY(row), RatioTauXY(row), CrossTerm(row))
  }

  /** The cross term is subtracted: a biaxial state of one sense (both
      tension or both compression) lowers ratio_1 below the plain sum of
      squares, a state of mixed senses raises it above, and a uniaxial
      state leaves the sum of squares unchanged. */
  lemma CrossTermIsSubtracted(row: CheckRow)
    requires RowDefined(row)
    ensures var sum := RatioSigmaX(row) * RatioSigmaX(row) + RatioSigmaY(row) * RatioSigmaY(row)
                       + RatioTauXY(row) * RatioTauXY(row);
      && (0.0 < row.sigmaXMax * row.sigmaYMax ==> Ratio1(row) < sum)
      && (row.sigmaXMax * row.sigmaYMax < 0.0 ==> sum < Ratio1(row))
      && (row.sigmaXMax * row.sigmaYMax == 0.0 ==> Ratio1(row) == sum)
  {
    var rx, ry, rt := RatioSigmaX(row), RatioSigmaY(row), RatioTauXY(row);
    CrossTermSignAndMagnitude(row);
    SubtractedBySign(rx * rx, ry * ry, rt * rt, CrossTerm(row), Ratio1(row), row.sigmaXMax * row.sigmaYMax);
  }

  /** Combined ratio, second option: ratio_2 = sqrt(ratio_1). Because
      ratio_1 is never negative, the root always exists. */
  function Ratio2(row: CheckRow, sqrt: real -> real): (r2: real)
    requires IsSqrtFunction(sqrt)
    requires RowDefined(row)
    ensures 0.0 <= r2 && r2 * r2 == Ratio1(row)
  {
    var r1 := Ratio1(row);
    assert IsSqrt(r1, sqrt(r1));
    sqrt(r1)
  }

  /** Every value the combined check attaches to a row. */
  datatype CombinedRatios = CombinedRatios(
    ratioSX: real, ratioSY: real, ratioTXY: real, ratio1: real, ratio2: real)

  function Combined(row: CheckRow, sqrt: real -> real): (c: CombinedRatios)
    requires IsSqrtFunction(sqrt)
    requires RowDefined(row)
    ensures c.ratioSX == RatioSigmaX(row) && c.ratioSY == RatioSigmaY(row) && c.ratioTXY == RatioTauXY(row)
    ensures c.ratio1 == Ratio1(row) && c.ratio2 == Ratio2(row, sqrt)
    ensures c.ratio1 == c.ratioSX * c.ratioSX + c.ratioSY * c.ratioSY - CrossTerm(row) + c.ratioTXY * c.ratioTXY
    ensures 0.0 <= c.ratio1 && 0.0 <= c.ratio2 && c.ratio2 * c.ratio2 == c.ratio1
  {
    CombinedRatios(RatioSigmaX(row), RatioSigmaY(row), RatioTauXY(row), Ratio1(row), Ratio2(row, sqrt))
  }

  /** The whole batch, row by row with no cross-row dependency. */
  function CombinedBatch(rows: seq<CheckRow>, sqrt: real -> real): (cs: seq<CombinedRatios>)
    requires IsSqrtFunction(sqrt)
    requires forall i :: 0 <= i < |rows| ==> RowDefined(rows[i])
    ensures |cs| == |rows|
    ensures forall i :: 0 <= i < |rows| ==> cs[i] == Combined(rows[i], sqrt)
  {
    seq(|rows|, i requires 0 <= i < |rows| => Combined(rows[i], sqrt))
  }
}
