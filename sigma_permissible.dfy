/** Permissible axial stresses for fatigue (FEM 2131/2132, 3-4.5.1.1):
    for every row, the load-reversal ratio k of one axis gives a permissible
    tensile stress (non-negative) and a permissible compressive stress
    (negated, so non-positive). The x and y axes share the basic stress
    sigmaW and the steel constants and differ only in their ratio. */
module SigmaPermissible {
  import opened RealMath
  import opened Material

  /** sigma_0: the tensile permissible stress the two-point law takes at k = 0. */
  function TensileStressK0(sigmaW: real): real
  {
    1.66 * sigmaW
  }

  /** sigma_1: the tensile permissible stress the two-point law takes at k = +1. */
  function TensileStressK1(steel: Steel): real
  {
    0.75 * steel.sigmaR
  }

  /** Tension for k <= 0: 5 sigmaW / (3 - 2k), capped. */
  function TensionStressKNeg(sigmaW: real, steel: Steel, k: real): (r: real)
    requires 3.0 - 2.0 * k != 0.0
    ensures r <= Cap(steel)
    ensures r == Cap(steel) || r * (3.0 - 2.0 * k) == 5.0 * sigmaW
  {
    Capped(sigmaW * 5.0 / (3.0 - 2.0 * k), steel)
  }

  /** Compression for k <= 0, before negation: 2 sigmaW / (1 - k), not capped. */
  function CompressionStressKNeg(sigmaW: real, k: real): (r: real)
    requires 1.0 - k != 0.0
    ensures r * (1.0 - k) == 2.0 * sigmaW
  {
    sigmaW * 2.0 / (1.0 - k)
  }

  /** The two-point law's denominator 1 - (1 - sigma_0/sigma_1) k. */
  function TwoPointDenominator(sigmaW: real, steel: Steel, k: real): real
    requires TensileStressK1(steel) != 0.0
  {
    1.0 - (1.0 - TensileStressK0(sigmaW) / TensileStressK1(steel)) * k
  }

  /** The two-point law's denominators sigma_1 and 1 - (1 - sigma_0/sigma_1) k
      are both nonzero. */
  predicate TwoPointDefined(sigmaW: real, steel: Steel, k: real)
  {
    TensileStressK1(steel) != 0.0 && TwoPointDenominator(sigmaW, steel, k) != 0.0
  }

  /** The two-point law's raw value sigma_0 / (1 - (1 - sigma_0/sigma_1) k). */
  function TwoPoint(sigmaW: real, steel: Steel, k: real): real
    requires TwoPointDefined(sigmaW, steel, k)
  {
    TensileStressK0(sigmaW) / TwoPointDenominator(sigmaW, steel, k)
  }

  /** Tension for k > 0: the two-point law through sigma_0 at k = 0 and
      sigma_1 at k = +1, capped. */
  function TensionStressKPos(sigmaW: real, steel: Steel, k: real): (r: real)
    requires TwoPointDefined(sigmaW, steel, k)
    ensures r <= Cap(steel)
    ensures r == Cap(steel)
         || r * TwoPointDenominator(sigmaW, steel, k)
            == TensileStressK0(sigmaW)
  {
    Capped(TwoPoint(sigmaW, steel, k), steel)
  }

  /** Compression for k > 0, before negation: 1.2 times the capped tension. */
  function CompressionStressKPos(sigmaW: real, steel: Steel, k: real): (r: real)
    requires TwoPointDefined(sigmaW, steel, k)
    ensures r <= 1.2 * Cap(steel)
  {
    1.2 * TensionStressKPos(sigmaW, steel, k)
  }

  /** The branch selected for k has nonzero denominators. The k <= 0 branch
      always does (3 - 2k >= 3 and 1 - k >= 1). */
  predicate Defined(sigmaW: real, steel: Steel, k: real)
  {
    k > 0.0 ==> TwoPointDefined(sigmaW, steel, k)
  }

  /** Permissible tensile stress: the k <= 0 law when k <= 0 (k = 0 included),
      the two-point law otherwise. */
  function TensionStress(sigmaW: real, steel: Steel, k: real): (r: real)
    requires Defined(sigmaW, steel, k)
    ensures r <= Cap(steel)
  {
    if k <= 0.0 then TensionStressKNeg(sigmaW, steel, k)
    else TensionStressKPos(sigmaW, steel, k)
  }

  /** Permissible compressive stress, negated to encode direction. */
  function CompressionStress(sigmaW: real, steel: Steel, k: real): (r: real)
    requires Defined(sigmaW, steel, k)
    ensures k > 0.0 ==> r == -1.2 * TensionStress(sigmaW, steel, k)
    ensures k > 0.0 ==> -1.2 * Cap(steel) <= r
  {
    (if k <= 0.0 then CompressionStressKNeg(sigmaW, k)
     else CompressionStressKPos(sigmaW, steel, k)) * -1.0
  }

  /** For k <= 0, k = 0 included, tension is min(5 sigmaW / (3 - 2k), 0.66 sigmaE). */
  lemma TensionNonPositiveK(sigmaW: real, steel: Steel, k: real)
    requires k <= 0.0
    ensures Defined(sigmaW, steel, k)
    ensures TensionStress(sigmaW, steel, k) == Min(5.0 * sigmaW / (3.0 - 2.0 * k), 0.66 * steel.sigmaE)
  {
  }

  /** For k > 0, tension is min(sigma_0 / (1 - (1 - sigma_0/sigma_1) k), 0.66 sigmaE)
      with sigma_0 = 1.66 sigmaW and sigma_1 = 0.75 sigmaR. */
  lemma TensionPositiveK(sigmaW: real, steel: Steel, k: real)
    requires 0.0 < k && TwoPointDefined(sigmaW, steel, k)
    ensures Defined(sigmaW, steel, k)
    ensures TensileStressK0(sigmaW) == 1.66 * sigmaW && TensileStressK1(steel) == 0.75 * steel.sigmaR
    ensures TwoPointDenominator(sigmaW, steel, k)
      == 1.0 - (1.0 - TensileStressK0(sigmaW) / TensileStressK1(steel)) * k
    ensures TensionStress(sigmaW, steel, k)
      == Min(TensileStressK0(sigmaW) / TwoPointDenominator(sigmaW, steel, k), 0.66 * steel.sigmaE)
  {
  }

  /** Compression in closed form on each branch: uncapped 2 sigmaW/(1 - k)
      for k <= 0, 1.2 times the capped tension for k > 0, both negated. */
  lemma CompressionByBranch(sigmaW: real, steel: Steel, k: real)
    requires Defined(sigmaW, steel, k)
    ensures k <= 0.0 ==> CompressionStress(sigmaW, steel, k) == -(2.0 * sigmaW / (1.0 - k))
    ensures k > 0.0 ==>
      CompressionStress(sigmaW, steel, k) == -1.2 * Min(TwoPoint(sigmaW, steel, k), 0.66 * steel.sigmaE)
  {
  }

  /** k = 0 is routed to the k <= 0 branch, which gives min(5 sigmaW/3, cap);
      the two-point law would give min(1.66 sigmaW, cap) there. With a
      positive basic stress below the cap the two differ. */
  lemma TensionAtZero(sigmaW: real, steel: Steel)
    requires steel.sigmaR != 0.0
    ensures Defined(sigmaW, steel, 0.0) && TwoPointDefined(sigmaW, steel, 0.0)
    ensures TensionStress(sigmaW, steel, 0.0) == Min(5.0 * sigmaW / 3.0, Cap(steel))
    ensures TensionStressKPos(sigmaW, steel, 0.0) == Min(1.66 * sigmaW, Cap(steel))
    ensures 0.0 < sigmaW && 5.0 * sigmaW / 3.0 <= Cap(steel) ==>
      TensionStress(sigmaW, steel, 0.0) != TensionStressKPos(sigmaW, steel, 0.0)
  {
    assert TwoPoint(sigmaW, steel, 0.0) == 1.66 * sigmaW;
  }

  /** At k = +1 the two-point law reaches sigma_1 = 0.75 sigmaR exactly
      (sigma_0 must be nonzero, otherwise its denominator vanishes). */
  lemma TensionAtOne(sigmaW: real, steel: Steel)
    requires sigmaW != 0.0 && steel.sigmaR != 0.0
    ensures Defined(sigmaW, steel, 1.0)
    ensures TensionStress(sigmaW, steel, 1.0) == Min(0.75 * steel.sigmaR, Cap(steel))
  {
    var sigma0, sigma1 := TensileStressK0(sigmaW), TensileStressK1(steel);
    var q := sigma0 / sigma1;
    assert q * sigma1 == sigma0;
    assert q != 0.0;
    assert 1.0 - (1.0 - q) * 1.0 == q;
    assert sigma0 / q == sigma1;
    assert TwoPoint(sigmaW, steel, 1.0) == sigma1;
  }

  /** sigma_0 and sigma_1 are the anchors of the two-point law: it takes
      the value 1.66 sigmaW at k = 0 and 0.75 sigmaR at k = +1 (the latter
      needs sigma_0 nonzero, otherwise its denominator vanishes). */
  lemma TwoPointAnchors(sigmaW: real, steel: Steel)
    requires steel.sigmaR != 0.0
    ensures TensileStressK0(sigmaW) == 1.66 * sigmaW && TensileStressK1(steel) == 0.75 * steel.sigmaR
    ensures TwoPointDefined(sigmaW, steel, 0.0) && TwoPoint(sigmaW, steel, 0.0) == TensileStressK0(sigmaW)
    ensures sigmaW != 0.0 ==>
      TwoPointDefined(sigmaW, steel, 1.0) && TwoPoint(sigmaW, steel, 1.0) == TensileStressK1(steel)
  {
    var sigma0, sigma1 := TensileStressK0(sigmaW), TensileStressK1(steel);
    var q := sigma0 / sigma1;
    assert TwoPointDenominator(sigmaW, steel, 0.0) == 1.0;
    if sigmaW != 0.0 {
      assert q * sigma1 == sigma0;
      assert q != 0.0;
      assert TwoPointDenominator(sigmaW, steel, 1.0) == q;
      assert sigma0 / q == sigma1;
    }
  }

  /** sigmaW = 60, sigmaE = 280, sigmaR = 440, k = -0.5: 5 * 60 / 4 = 75,
      below the cap 0.66 * 280 = 184.8. */
  lemma TensionScenario()
    ensures TensionStress(60.0, Steel(280.0, 440.0), -0.5) == 75.0
  {
  }

  /** With physically meaningful inputs (sigmaW >= 0, sigmaR > 0, k <= 1) the
      two-point denominator is positive, so every ratio is defined except
      k = 1 with a zero basic stress. */
  lemma TwoPointDenominatorPositive(sigmaW: real, steel: Steel, k: real)
    requires 0.0 <= sigmaW && 0.0 < steel.sigmaR
    requires 0.0 < k <= 1.0
    requires 0.0 < sigmaW || k < 1.0
    ensures TwoPointDefined(sigmaW, steel, k)
    ensures 0.0 < TwoPointDenominator(sigmaW, steel, k)
  {
    var q := TensileStressK0(sigmaW) / TensileStressK1(steel);
    assert 0.0 <= q;
    assert 0.0 < sigmaW ==> 0.0 < q;
    assert 1.0 - (1.0 - q) * k == (1.0 - k) + k * q;
    assert 0.0 <= k * q;
    assert k == 1.0 ==> k * q == q;
  }

  /** Sign invariant: with sigmaW >= 0, sigmaR > 0, sigmaE >= 0 and k <= 1
      (except sigmaW = 0 at k = 1, where the two-point law divides 0 by 0),
      tension is non-negative and compression non-positive; with sigmaW > 0
      and sigmaE > 0 both are strictly away from zero. */
  lemma SignInvariant(sigmaW: real, steel: Steel, k: real)
    requires 0.0 <= sigmaW && 0.0 < steel.sigmaR && 0.0 <= steel.sigmaE
    requires k <= 1.0
    requires 0.0 < sigmaW || k < 1.0
    ensures Defined(sigmaW, steel, k)
    ensures 0.0 <= TensionStress(sigmaW, steel, k)
    ensures CompressionStress(sigmaW, steel, k) <= 0.0
    ensures 0.0 < sigmaW && 0.0 < steel.sigmaE ==>
      0.0 < TensionStress(sigmaW, steel, k) && CompressionStress(sigmaW, steel, k) < 0.0
  {
    if k <= 0.0 {
      assert 0.0 < 3.0 - 2.0 * k && 0.0 < 1.0 - k;
      assert 0.0 <= sigmaW * 5.0 / (3.0 - 2.0 * k);
      assert 0.0 < sigmaW ==> 0.0 < sigmaW * 5.0 / (3.0 - 2.0 * k);
      assert 0.0 <= sigmaW * 2.0 / (1.0 - k);
      assert 0.0 < sigmaW ==> 0.0 < sigmaW * 2.0 / (1.0 - k);
    } else {
      TwoPointDenominatorPositive(sigmaW, steel, k);
      var d := TwoPointDenominator(sigmaW, steel, k);
      assert 0.0 <= TensileStressK0(sigmaW) / d;
      assert 0.0 < sigmaW ==> 0.0 < TensileStressK0(sigmaW) / d;
    }
  }

  /** One row of the axial columns: basic stress and the two axes' ratios. */
  datatype AxialRow = AxialRow(sigmaW: real, kSx: real, kSy: real)

  /** Both axes of a row select defined branches. */
  predicate RowDefined(row: AxialRow, steel: Steel)
  {
    Defined(row.sigmaW, steel, row.kSx) && Defined(row.sigmaW, steel, row.kSy)
  }

  /** Permissible tension on the x axis: the tension law at k_sx. */
  function TensionStressX(row: AxialRow, steel: Steel): (r: real)
    requires RowDefined(row, steel)
    ensures r <= Cap(steel)
  {
    TensionStress(row.sigmaW, steel, row.kSx)
  }

  /** Permissible tension on the y axis: the tension law at k_sy. */
  function TensionStressY(row: AxialRow, steel: Steel): (r: real)
    requires RowDefined(row, steel)
    ensures r <= Cap(steel)
  {
    TensionStress(row.sigmaW, steel, row.kSy)
  }

  /** Permissible compression on the x axis: the compression law at k_sx,
      uncapped for k_sx <= 0 and tied to the x tension for k_sx > 0. */
  function CompressionStressX(row: AxialRow, steel: Steel): (r: real)
    requires RowDefined(row, steel)
    ensures row.kSx <= 0.0 ==> r * (1.0 - row.kSx) == -2.0 * row.sigmaW
    ensures row.kSx > 0.0 ==> r == -1.2 * TensionStressX(row, steel)
  {
    CompressionStress(row.sigmaW, steel, row.kSx)
  }

  /** Permissible compression on the y axis: the compression law at k_sy,
      uncapped for k_sy <= 0 and tied to the y tension for k_sy > 0. */
  function CompressionStressY(row: AxialRow, steel: Steel): (r: real)
    requires RowDefined(row, steel)
    ensures row.kSy <= 0.0 ==> r * (1.0 - row.kSy) == -2.0 * row.sigmaW
    ensures row.kSy > 0.0 ==> r == -1.2 * TensionStressY(row, steel)
  {
    CompressionStress(row.sigmaW, steel, row.kSy)
  }

  /** The x and y results differ only in the ratio they read: a row's x
      values are another row's y values when the basic stresses agree and
      that row's k_sy is this row's k_sx. */
  lemma AxesDifferOnlyInRatio(a: AxialRow, b: AxialRow, steel: Steel)
    requires RowDefined(a, steel) && RowDefined(b, steel)
    requires a.sigmaW == b.sigmaW && a.kSx == b.kSy
    ensures TensionStressX(a, steel) == TensionStressY(b, steel)
    ensures CompressionStressX(a, steel) == CompressionStressY(b, steel)
  {
  }

  /** The permissible stresses attached to one row. */
  datatype AxialPermissible = AxialPermissible(sigmaTx: real, sigmaCx: real, sigmaTy: real, sigmaCy: real)

  function PermissibleRow(row: AxialRow, steel: Steel): (p: AxialPermissible)
    requires RowDefined(row, steel)
    ensures p.sigmaTx == TensionStress(row.sigmaW, steel, row.kSx)
    ensures p.sigmaCx == CompressionStress(row.sigmaW, steel, row.kSx)
    ensures p.sigmaTy == TensionStress(row.sigmaW, steel, row.kSy)
    ensures p.sigmaCy == CompressionStress(row.sigmaW, steel, row.kSy)
    ensures p.sigmaTx <= Cap(steel) && p.sigmaTy <= Cap(steel)
    ensures row.kSx > 0.0 ==> p.sigmaCx == -1.2 * p.sigmaTx
    ensures row.kSy > 0.0 ==> p.sigmaCy == -1.2 * p.sigmaTy
  {
    AxialPermissible(TensionStressX(row, steel), CompressionStressX(row, steel),
                     TensionStressY(row, steel), CompressionStressY(row, steel))
  }

  /** The whole batch, row by row with no cross-row dependency. */
  function PermissibleBatch(rows: seq<AxialRow>, steel: Steel): (ps: seq<AxialPermissible>)
    requires forall i :: 0 <= i < |rows| ==> RowDefined(rows[i], steel)
    ensures |ps| == |rows|
    ensures forall i :: 0 <= i < |rows| ==> ps[i] == PermissibleRow(rows[i], steel)
  {
    seq(|rows|, i requires 0 <= i < |rows| => PermissibleRow(rows[i], steel))
  }

  /** A row with physically meaningful inputs on both axes. */
  predicate Physical(row: AxialRow, steel: Steel)
  {
    && 0.0 <= row.sigmaW && 0.0 < steel.sigmaR && 0.0 <= steel.sigmaE
    && row.kSx <= 1.0 && row.kSy <= 1.0
    && (0.0 < row.sigmaW || (row.kSx < 1.0 && row.kSy < 1.0))
  }

  /** Sign invariant over a batch: every tension value is non-negative and
      every compression value non-positive. */
  lemma BatchSignInvariant(rows: seq<AxialRow>, steel: Steel)
    requires forall i :: 0 <= i < |rows| ==> Physical(rows[i], steel)
    ensures forall i :: 0 <= i < |rows| ==> RowDefined(rows[i], steel)
    ensures forall i :: 0 <= i < |rows| ==>
      var p := PermissibleBatch(rows, steel)[i];
      0.0 <= p.sigmaTx && p.sigmaCx <= 0.0 && 0.0 <= p.sigmaTy && p.sigmaCy <= 0.0
  {
    forall i | 0 <= i < |rows|
      ensures RowDefined(rows[i], steel)
      ensures var p := PermissibleRow(rows[i], steel);
        0.0 <= p.sigmaTx && p.sigmaCx <= 0.0 && 0.0 <= p.sigmaTy && p.sigmaCy <= 0.0
    {
      SignInvariant(rows[i].sigmaW, steel, rows[i].kSx);
      SignInvariant(rows[i].sigmaW, steel, rows[i].kSy);
    }
  }
}
