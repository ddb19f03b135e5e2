/** Permissible shear stress for fatigue (FEM 2131/2132, 3-4.5.1.2): the
    tensile law of the axial stage, applied to the shear basic stress
    sigmaW0 and the shear ratio k_txy, reduced by sqrt(3). The shear stage
    keeps its own copy of the formulae; ShearMatchesAxialTension shows the
    copy agrees with the axial stage. */
module TauPermissible {
  import opened RealMath
  import opened Material
  import SigmaPermissible

  /** sigma_0 for shear: the two-point law's value at k = 0, 1.66 sigmaW0. */
  function TensileStressK0(sigmaW0: real): real
  {
    1.66 * sigmaW0
  }

  /** sigma_1 for shear: the two-point law's value at k = +1, 0.75 sigmaR. */
  function TensileStressK1(steel: Steel): real
  {
    0.75 * steel.sigmaR
  }

  /** Tension-style value for k <= 0: 5 sigmaW0 / (3 - 2k), capped. */
  function TensionStressKNeg(sigmaW0: real, steel: Steel, k: real): (r: real)
    requires 3.0 - 2.0 * k != 0.0
    ensures r <= Cap(steel)
    ensures r == Cap(steel) || r * (3.0 - 2.0 * k) == 5.0 * sigmaW0
  {
    Capped(sigmaW0 * 5.0 / (3.0 - 2.0 * k), steel)
  }

  /** The two-point law's denominator 1 - (1 - sigma_0/sigma_1) k. */
  function TwoPointDenominator(sigmaW0: real, steel: Steel, k: real): real
    requires TensileStressK1(steel) != 0.0
  {
    1.0 - (1.0 - TensileStressK0(sigmaW0) / TensileStressK1(steel)) * k
  }

  /** The two-point law's denominators are both nonzero. */
  predicate TwoPointDefined(sigmaW0: real, steel: Steel, k: real)
  {
    TensileStressK1(steel) != 0.0 && TwoPointDenominator(sigmaW0, steel, k) != 0.0
  }

  /** Tension-style value for k > 0: the two-point law, capped. */
  function TensionStressKPos(sigmaW0: real, steel: Steel, k: real): (r: real)
    requires TwoPointDefined(sigmaW0, steel, k)
    ensures r <= Cap(steel)
    ensures r == Cap(steel)
         || r * TwoPointDenominator(sigmaW0, steel, k)
            == TensileStressK0(sigmaW0)
  {
    Capped(TensileStressK0(sigmaW0) / TwoPointDenominator(sigmaW0, steel, k), steel)
  }

  /** The shear copies of sigma_0 and sigma_1 anchor the capped two-point
      law: at k = 0 it gives min(1.66 sigmaW0, cap) and at k = +1
      min(0.75 sigmaR, cap), the latter when sigma_0 is nonzero. */
  lemma TwoPointAnchors(sigmaW0: real, steel: Steel)
    requires steel.sigmaR != 0.0
    ensures TensileStressK0(sigmaW0) == 1.66 * sigmaW0 && TensileStressK1(steel) == 0.75 * steel.sigmaR
    ensures TwoPointDefined(sigmaW0, steel, 0.0)
    ensures TensionStressKPos(sigmaW0, steel, 0.0) == Min(TensileStressK0(sigmaW0), Cap(steel))
    ensures sigmaW0 != 0.0 ==>
      && TwoPointDefined(sigmaW0, steel, 1.0)
      && TensionStressKPos(sigmaW0, steel, 1.0) == Min(TensileStressK1(steel), Cap(steel))
  {
    var sigma0, sigma1 := TensileStressK0(sigmaW0), TensileStressK1(steel);
    var q := sigma0 / sigma1;
    assert TwoPointDenominator(sigmaW0, steel, 0.0) == 1.0;
    if sigmaW0 != 0.0 {
      assert q * sigma1 == sigma0;
      assert q != 0.0;
      assert TwoPointDenominator(sigmaW0, steel, 1.0) == q;
      assert sigma0 / q == sigma1;
    }
  }

  /** One row of the shear columns. */
  datatype ShearRow = ShearRow(sigmaW0: real, kTxy: real)

  /** The branch selected by the row's ratio has nonzero denominators. */
  predicate Defined(row: ShearRow, steel: Steel)
  {
    row.kTxy > 0.0 ==> TwoPointDefined(row.sigmaW0, steel, row.kTxy)
  }

  /** The value before the reduction: the k <= 0 law when k_txy <= 0
      (k_txy = 0 included), the two-point law otherwise. */
  function ShearTension(row: ShearRow, steel: Steel): (t: real)
    requires Defined(row, steel)
    ensures t <= Cap(steel)
  {
    if row.kTxy <= 0.0 then TensionStressKNeg(row.sigmaW0, steel, row.kTxy)
    else TensionStressKPos(row.sigmaW0, steel, row.kTxy)
  }

  /** Permissible shear stress tau_a: the selected value divided by sqrt(3).
      It times sqrt(3) gives back that value, and it never exceeds
      0.66 sigmaE / sqrt(3). */
  function ShearStress(row: ShearRow, steel: Steel, sqrt: real -> real): (tauA: real)
    requires IsSqrtFunction(sqrt)
    requires Defined(row, steel)
    ensures 0.0 < sqrt(3.0)
    ensures tauA * sqrt(3.0) == ShearTension(row, steel)
    ensures tauA <= Cap(steel) / sqrt(3.0)
  {
    var root3 := sqrt(3.0);
    assert IsSqrt(3.0, root3);
    assert root3 != 0.0;
    var t := ShearTension(row, steel);
    DivideByPositive(t, Cap(steel), root3);
    t / root3
  }

  /** Equal sigma_0 and sigma_1 give equal two-point denominators. */
  lemma SameDenominator(sigma0: real, sigma1: real, sigma0': real, sigma1': real, k: real)
    requires sigma1 != 0.0 && sigma0 == sigma0' && sigma1 == sigma1'
    ensures 1.0 - (1.0 - sigma0 / sigma1) * k == 1.0 - (1.0 - sigma0' / sigma1') * k
  {
  }

  /** On the k > 0 branch the shear copy of the two-point law is the axial one. */
  lemma TwoPointMatchesAxial(sigmaW0: real, steel: Steel, k: real)
    requires TwoPointDefined(sigmaW0, steel, k)
    ensures SigmaPermissible.TwoPointDefined(sigmaW0, steel, k)
    ensures TensionStressKPos(sigmaW0, steel, k) == SigmaPermissible.TensionStressKPos(sigmaW0, steel, k)
  {
    SameDenominator(TensileStressK0(sigmaW0), TensileStressK1(steel),
                    SigmaPermissible.TensileStressK0(sigmaW0), SigmaPermissible.TensileStressK1(steel), k);
    QuotientsAgree(
      TensileStressK0(sigmaW0), TwoPointDenominator(sigmaW0, steel, k),
      SigmaPermissible.TensileStressK0(sigmaW0), SigmaPermissible.TwoPointDenominator(sigmaW0, steel, k));
  }

  /** The shear copy of the formulae agrees with the axial stage: the value
      before the reduction is the axial tension law evaluated with
      sigmaW := sigmaW0 at k := k_txy, defined exactly where that one is. */
  lemma ShearMatchesAxialTension(row: ShearRow, steel: Steel, sqrt: real -> real)
    requires IsSqrtFunction(sqrt)
    ensures Defined(row, steel) <==> SigmaPermissible.Defined(row.sigmaW0, steel, row.kTxy)
    ensures Defined(row, steel) ==>
      && ShearTension(row, steel) == SigmaPermissible.TensionStress(row.sigmaW0, steel, row.kTxy)
      && ShearStress(row, steel, sqrt) * sqrt(3.0) == SigmaPermissible.TensionStress(row.sigmaW0, steel, row.kTxy)
  {
    if row.kTxy > 0.0 {
      assert TwoPointDefined(row.sigmaW0, steel, row.kTxy)
        <==> SigmaPermissible.TwoPointDefined(row.sigmaW0, steel, row.kTxy);
      if TwoPointDefined(row.sigmaW0, steel, row.kTxy) {
        TwoPointMatchesAxial(row.sigmaW0, steel, row.kTxy);
      }
    }
  }

  /** The value before the reduction in closed form on each branch:
      min(5 sigmaW0 / (3 - 2k), 0.66 sigmaE) for k <= 0 (k = 0 included),
      min(sigma_0 / (1 - (1 - sigma_0/sigma_1) k), 0.66 sigmaE) for k > 0, with
      sigma_0 = 1.66 sigmaW0 and sigma_1 = 0.75 sigmaR. */
  lemma ShearTensionByBranch(row: ShearRow, steel: Steel)
    requires Defined(row, steel)
    ensures row.kTxy <= 0.0 ==>
      ShearTension(row, steel) == Min(5.0 * row.sigmaW0 / (3.0 - 2.0 * row.kTxy), 0.66 * steel.sigmaE)
    ensures row.kTxy > 0.0 ==>
      && TensileStressK0(row.sigmaW0) == 1.66 * row.sigmaW0
      && TensileStressK1(steel) == 0.75 * steel.sigmaR
      && TwoPointDenominator(row.sigmaW0, steel, row.kTxy)
         == 1.0 - (1.0 - TensileStressK0(row.sigmaW0) / TensileStressK1(steel)) * row.kTxy
      && ShearTension(row, steel)
         == Min(TensileStressK0(row.sigmaW0) / TwoPointDenominator(row.sigmaW0, steel, row.kTxy), 0.66 * steel.sigmaE)
  {
  }

  /** With sigmaW0 >= 0, sigmaR > 0, sigmaE >= 0 and k_txy <= 1 (except
      sigmaW0 = 0 at k_txy = 1, where the two-point law divides 0 by 0),
      tau_a is non-negative; with sigmaW0 > 0 and sigmaE > 0 it is positive. */
  lemma ShearStressSign(row: ShearRow, steel: Steel, sqrt: real -> real)
    requires IsSqrtFunction(sqrt)
    requires 0.0 <= row.sigmaW0 && 0.0 < steel.sigmaR && 0.0 <= steel.sigmaE
    requires row.kTxy <= 1.0
    requires 0.0 < row.sigmaW0 || row.kTxy < 1.0
    ensures Defined(row, steel)
    ensures 0.0 <= ShearStress(row, steel, sqrt)
    ensures 0.0 < row.sigmaW0 && 0.0 < steel.sigmaE ==> 0.0 < ShearStress(row, steel, sqrt)
  {
    SigmaPermissible.SignInvariant(row.sigmaW0, steel, row.kTxy);
    ShearMatchesAxialTension(row, steel, sqrt);
    var t := ShearTension(row, steel);
    var tauA := ShearStress(row, steel, sqrt);
    assert 0.0 <= t;
    assert tauA * sqrt(3.0) == t && 0.0 < sqrt(3.0);
  }

  /** tau_a for every row of a batch, row by row. */
  function ShearBatch(rows: seq<ShearRow>, steel: Steel, sqrt: real -> real): (taus: seq<real>)
    requires IsSqrtFunction(sqrt)
    requires forall i :: 0 <= i < |rows| ==> Defined(rows[i], steel)
    ensures |taus| == |rows|
    ensures forall i :: 0 <= i < |rows| ==> taus[i] == ShearStress(rows[i], steel, sqrt)
  {
    seq(|rows|, i requires 0 <= i < |rows| => ShearStress(rows[i], steel, sqrt))
  }
}
