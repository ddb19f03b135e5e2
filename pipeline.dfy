/** The three stages composed on one structural check point: the axial and
    shear stages attach permissible stresses, which the combined check then
    reads beside the measured extremes. */
module Pipeline {
  import opened RealMath
  import opened Material
  import SigmaPermissible
  import TauPermissible
  import CheckStress

  /** One structural check point: measured extremes, basic stresses and
      load-reversal ratios (the location labels are not interpreted). */
  datatype CheckPoint = CheckPoint(
    sigmaXMax: real, sigmaYMax: real, tauXYMax: real,
    sigmaW: real, sigmaW0: real, kSx: real, kSy: real, kTxy: real)

  function AxialOf(p: CheckPoint): SigmaPermissible.AxialRow
  {
    SigmaPermissible.AxialRow(p.sigmaW, p.kSx, p.kSy)
  }

  function ShearOf(p: CheckPoint): TauPermissible.ShearRow
  {
    TauPermissible.ShearRow(p.sigmaW0, p.kTxy)
  }

  /** The permissible-stress stages select defined branches. */
  predicate StagesDefined(p: CheckPoint, steel: Steel)
  {
    SigmaPermissible.RowDefined(AxialOf(p), steel) && TauPermissible.Defined(ShearOf(p), steel)
  }

  /** The row the combined check reads: the measured extremes next to the
      permissible stresses computed for them. */
  function Augment(p: CheckPoint, steel: Steel, sqrt: real -> real): (row: CheckStress.CheckRow)
    requires IsSqrtFunction(sqrt)
    requires StagesDefined(p, steel)
    ensures row.sigmaXMax == p.sigmaXMax && row.sigmaYMax == p.sigmaYMax && row.tauXYMax == p.tauXYMax
    ensures row.sigmaTx == SigmaPermissible.TensionStress(p.sigmaW, steel, p.kSx)
    ensures row.sigmaCx == SigmaPermissible.CompressionStress(p.sigmaW, steel, p.kSx)
    ensures row.sigmaTy == SigmaPermissible.TensionStress(p.sigmaW, steel, p.kSy)
    ensures row.sigmaCy == SigmaPermissible.CompressionStress(p.sigmaW, steel, p.kSy)
    ensures row.sigmaTx <= Cap(steel) && row.sigmaTy <= Cap(steel)
    ensures row.tauA == TauPermissible.ShearStress(ShearOf(p), steel, sqrt)
  {
    var axial := SigmaPermissible.PermissibleRow(AxialOf(p), steel);
    CheckStress.CheckRow(
      p.sigmaXMax, p.sigmaYMax, p.tauXYMax,
      axial.sigmaTx, axial.sigmaCx, axial.sigmaTy, axial.sigmaCy,
      TauPermissible.ShearStress(ShearOf(p), steel, sqrt))
  }

  /** Positive basic stresses and steel constants and ratios k <= 1. */
  predicate Physical(p: CheckPoint, steel: Steel)
  {
    && 0.0 < p.sigmaW && 0.0 < p.sigmaW0 && 0.0 < steel.sigmaE && 0.0 < steel.sigmaR
    && p.kSx <= 1.0 && p.kSy <= 1.0 && p.kTxy <= 1.0
  }

  /** End to end: for a physical check point every stage is defined, every
      permissible stress has its sign (tension > 0, compression < 0,
      tau_a > 0), so every denominator of the combined check is nonzero, the
      axis and shear ratios are non-negative, and ratio_2 exists. */
  lemma PhysicalPointsAreCheckable(p: CheckPoint, steel: Steel, sqrt: real -> real)
    requires IsSqrtFunction(sqrt)
    requires Physical(p, steel)
    ensures StagesDefined(p, steel)
    ensures var row := Augment(p, steel, sqrt);
      && 0.0 < row.sigmaTx && row.sigmaCx < 0.0 && 0.0 < row.sigmaTy && row.sigmaCy < 0.0
      && 0.0 < row.tauA
      && CheckStress.RowDefined(row)
      && 0.0 <= CheckStress.RatioSigmaX(row) && 0.0 <= CheckStress.RatioSigmaY(row)
      && 0.0 <= CheckStress.RatioTauXY(row)
      && IsSqrt(CheckStress.Ratio1(row), CheckStress.Ratio2(row, sqrt))
  {
    SigmaPermissible.SignInvariant(p.sigmaW, steel, p.kSx);
    SigmaPermissible.SignInvariant(p.sigmaW, steel, p.kSy);
    TauPermissible.ShearStressSign(ShearOf(p), steel, sqrt);
    var row := Augment(p, steel, sqrt);
    CheckStress.PermissibleStressMatchesSense(row.sigmaXMax, row.sigmaTx, row.sigmaCx);
    CheckStress.PermissibleStressMatchesSense(row.sigmaYMax, row.sigmaTy, row.sigmaCy);
  }
}
