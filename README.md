# Fatigue check of structural steel (FEM 2131/2132, 3-4.5.1) in Dafny

This project models the calculation engine of a fatigue check for structural
steel members under cyclic loading, following FEM 2131/2132, section 3-4.5.1.
Stresses are in MPa; the load-reversal ratios k and the stress ratios
have no unit. Every quantity is modelled as a Dafny `real`. The engine
works row by row over a batch of structural check points and has three
stages.

- **Axial permissible stresses** (`SigmaPermissible`, from
  `sigma_permissible_fatigue.py`). For each axis, the load-reversal ratio `k`
  gives two values. The permissible tensile stress is `5 sigmaW / (3 - 2k)`
  for `k <= 0` (k = 0 included). For `k > 0` it follows the two-point law
  through `sigma_0 = 1.66 sigmaW` and `sigma_1 = 0.75 sigmaR`. Both branches
  are capped at `0.66 sigmaE`. The permissible compressive stress is
  `2 sigmaW / (1 - k)` without a cap for `k <= 0`, and 1.2 times the capped
  tension for `k > 0`. It is then negated.
- **Shear permissible stress** (`TauPermissible`, from
  `tau_permissible_fatigue.py`). The shear module has its own copy of the
  tensile law, applied to `sigmaW0` and `k_txy` and then divided by √3.
- **Combined ratios** (`CheckStress`, from `check_stress.py`). Each measured
  axial extreme is divided by the permissible stress of its own sense. A
  maximum of zero counts as tension. The shear ratio is
  `|tau_xy_max| / tau_a`. The cross term is `sigma_x sigma_y / |p_x p_y|`.
  Formula (5) gives `ratio_1 = r_x² + r_y² - cross + r_t²`, and the
  footnote formula gives `ratio_2 = sqrt(ratio_1)`.

Three helper modules support these stages. `Material` holds the steel
constants and the cap. `RealMath` holds the absolute value, the minimum, the
square-root contract and small real-arithmetic lemmas. `Pipeline` composes
the three stages on one check point, as a batch flows through them.

A row is a datatype with named fields: `AxialRow`, `ShearRow`, `CheckRow` and
`Pipeline.CheckPoint`. A batch is a `seq` of rows. The batch functions
(`PermissibleBatch`, `ShearBatch`, `CombinedBatch`) keep the length and act
row by row, like the source's element-wise pandas `.where` masks.

The source's `PermissibleStress.get_*` getters only return or delegate, so
they are the same functions here. `get_permissible_stress_sx/sy/txy` are
`CheckStress.PermissibleStressX/Y/Txy`. `get_ratio_sigma_x/y`,
`get_ratio_tau_xy`, `get_ratio_1` and `get_ratio_2` are `RatioSigmaX/Y`,
`RatioTauXY`, `Ratio1` and `Ratio2`, gathered per row by `Combined`.

Square roots (`3**(0.5)` and `r1**(0.5)`) are taken by a parameter
`sqrt: real -> real`. The predicate `RealMath.IsSqrtFunction` requires it to
return the non-negative root of every non-negative argument. Dafny cannot
construct a real square root, so the model states what it needs of one.

Three consequences of the code that the model makes explicit:

- The k ≤ 0 law gives `5 sigmaW / 3` at k = 0, while the two-point law
  starts at `sigma_0 = 1.66 sigmaW`. The code sends k = 0 to the k ≤ 0 law
  (the `k <= 0` mask of sigma_permissible_fatigue.py:212-214), so tension
  there is `min(5 sigmaW / 3, 0.66 sigmaE)` and the two branches do not meet
  exactly at 0. `SigmaPermissible.TensionAtZero` proves both values and that
  they differ.
- `ratio_1` is never negative when the selected permissible stresses and
  `tau_a` are nonzero. The cross term's magnitude is `|r_x r_y|`, so
  `ratio_1 >= (r_x² + r_y²)/2 + r_t² >= 0` (`CheckStress.Ratio1`), and
  `r1**(0.5)` at check_stress.py:190 always has a real root.
- For shear, the code builds `sigma_0` from `sigmaW0`
  (tau_permissible_fatigue.py:118), not from `sigmaW`. The model does the
  same.

## Model

| member | source | states |
|---|---|---|
| `Material.Capped` | Chapter_3/Fatigue/packages/sigma_permissible_fatigue.py:96-98 | The `.where(v <= 0.66 sigmaE, 0.66 sigmaE)` mask gives a value no larger than the cap or `v`, and it is one of them: the minimum of the two. |
| `SigmaPermissible.TwoPointAnchors` | Chapter_3/Fatigue/packages/sigma_permissible_fatigue.py:147-159 | `sigma_0 = 1.66 sigmaW` and `sigma_1 = 0.75 sigmaR` are the two-point law's values at k = 0 and at k = +1; the latter holds when `sigmaW ≠ 0`. |
| `SigmaPermissible.TensionStressKNeg` | Chapter_3/Fatigue/packages/sigma_permissible_fatigue.py:86-100 | The k ≤ 0 tension is at most `0.66 sigmaE`. Either it is the cap, or times `(3 - 2k)` it gives `5 sigmaW`. |
| `SigmaPermissible.CompressionStressKNeg` | Chapter_3/Fatigue/packages/sigma_permissible_fatigue.py:102-113 | The k ≤ 0 compression before negation, times `(1 - k)`, gives `2 sigmaW`. No cap applies. |
| `SigmaPermissible.TensionStressKPos` | Chapter_3/Fatigue/packages/sigma_permissible_fatigue.py:115-131 | The k > 0 tension is at most the cap. Either it is the cap, or times `1 - (1 - sigma_0/sigma_1) k` it gives `sigma_0`. |
| `SigmaPermissible.CompressionStressKPos` | Chapter_3/Fatigue/packages/sigma_permissible_fatigue.py:133-145 | The k > 0 compression before negation is at most `1.2 · 0.66 sigmaE`. |
| `SigmaPermissible.TensionStress` | Chapter_3/Fatigue/packages/sigma_permissible_fatigue.py:207-216 | Tension never exceeds `0.66 sigmaE`, whichever branch is taken. |
| `SigmaPermissible.CompressionStress` | Chapter_3/Fatigue/packages/sigma_permissible_fatigue.py:218-227 | For k > 0, compression is exactly `-1.2` times the capped tension at the same k, so it is never below `-1.2 · 0.66 sigmaE`. |
| `SigmaPermissible.TensionNonPositiveK` | Chapter_3/Fatigue/packages/sigma_permissible_fatigue.py:210-214 | For every k ≤ 0, k = 0 included, the branch is defined and tension equals `min(5 sigmaW/(3 - 2k), 0.66 sigmaE)`. |
| `SigmaPermissible.TensionPositiveK` | Chapter_3/Fatigue/packages/sigma_permissible_fatigue.py:124-129 | For k > 0, tension equals `min(sigma_0/(1 - (1 - sigma_0/sigma_1) k), 0.66 sigmaE)`, with `sigma_0 = 1.66 sigmaW` and `sigma_1 = 0.75 sigmaR`. |
| `SigmaPermissible.CompressionByBranch` | Chapter_3/Fatigue/packages/sigma_permissible_fatigue.py:218-227 | Compression is `-2 sigmaW/(1 - k)` for k ≤ 0, with no cap. For k > 0 it is `-1.2 · min(two-point value, 0.66 sigmaE)`. |
| `SigmaPermissible.TensionAtZero` | Chapter_3/Fatigue/packages/sigma_permissible_fatigue.py:212-214 | At k = 0, tension is `min(5 sigmaW/3, cap)`. The two-point law would give `min(1.66 sigmaW, cap)`. The two differ for `0 < sigmaW` below the cap. |
| `SigmaPermissible.TensionAtOne` | Chapter_3/Fatigue/packages/sigma_permissible_fatigue.py:124-129 | At k = +1 with `sigmaW ≠ 0` and `sigmaR ≠ 0`, tension is `min(0.75 sigmaR, 0.66 sigmaE)`. |
| `SigmaPermissible.TensionScenario` | Chapter_3/Fatigue/packages/sigma_permissible_fatigue.py:95-98 | sigmaW = 60, sigmaE = 280, sigmaR = 440, k = -0.5 gives tension 75. |
| `SigmaPermissible.TwoPointDenominatorPositive` | Chapter_3/Fatigue/packages/sigma_permissible_fatigue.py:126 | Take `sigmaW ≥ 0`, `sigmaR > 0` and `0 < k ≤ 1`, excluding `sigmaW = 0` at `k = 1`. Then `1 - (1 - sigma_0/sigma_1) k > 0`. |
| `SigmaPermissible.SignInvariant` | Chapter_3/Fatigue/packages/sigma_permissible_fatigue.py:207-227 | Take `sigmaW ≥ 0`, `sigmaR > 0`, `sigmaE ≥ 0` and `k ≤ 1`, excluding `sigmaW = 0` at `k = 1`. Then the branch is defined, tension ≥ 0 and compression ≤ 0. With `sigmaW > 0` and `sigmaE > 0`, tension > 0 and compression < 0. |
| `SigmaPermissible.TensionStressX` | Chapter_3/Fatigue/packages/sigma_permissible_fatigue.py:187-190 | The x tension never exceeds `0.66 sigmaE`. |
| `SigmaPermissible.TensionStressY` | Chapter_3/Fatigue/packages/sigma_permissible_fatigue.py:192-195 | The y tension never exceeds `0.66 sigmaE`. |
| `SigmaPermissible.CompressionStressX` | Chapter_3/Fatigue/packages/sigma_permissible_fatigue.py:197-200 | For `k_sx ≤ 0`, the x compression times `(1 - k_sx)` gives `-2 sigmaW`. For `k_sx > 0` it is `-1.2` times the x tension. |
| `SigmaPermissible.CompressionStressY` | Chapter_3/Fatigue/packages/sigma_permissible_fatigue.py:202-205 | For `k_sy ≤ 0`, the y compression times `(1 - k_sy)` gives `-2 sigmaW`. For `k_sy > 0` it is `-1.2` times the y tension. |
| `SigmaPermissible.AxesDifferOnlyInRatio` | Chapter_3/Fatigue/packages/sigma_permissible_fatigue.py:187-205 | Give two rows the same sigmaW, and let one row's `k_sx` be the other's `k_sy`. Then the first row's x tension and compression equal the second row's y values. |
| `SigmaPermissible.PermissibleRow` | Chapter_3/Fatigue/packages/sigma_permissible_fatigue.py:187-205 | A row's four permissible stresses are the tension and compression laws at `k_sx` (x fields) and at `k_sy` (y fields), with the row's sigmaW. Both tensions are at most the cap. On each axis with k > 0, compression is `-1.2` times that axis's tension. |
| `SigmaPermissible.PermissibleBatch` | Chapter_3/Fatigue/packages/sigma_permissible_fatigue.py:207-227 | The batch result has one entry per row, and entry i is row i's own result. |
| `SigmaPermissible.BatchSignInvariant` | Chapter_3/Fatigue/packages/sigma_permissible_fatigue.py:207-227 | In a batch of physical rows, every tension is ≥ 0 and every compression ≤ 0. |
| `TauPermissible.TwoPointAnchors` | Chapter_3/Fatigue/packages/tau_permissible_fatigue.py:115-127 | The shear copies `sigma_0 = 1.66 sigmaW0` and `sigma_1 = 0.75 sigmaR` anchor the capped two-point law: `min(sigma_0, cap)` at k = 0, and `min(sigma_1, cap)` at k = +1 when `sigmaW0 ≠ 0`. |
| `TauPermissible.TensionStressKNeg` | Chapter_3/Fatigue/packages/tau_permissible_fatigue.py:81-95 | The k ≤ 0 value is at most the cap. Either it is the cap, or times `(3 - 2k)` it gives `5 sigmaW0`. |
| `TauPermissible.TensionStressKPos` | Chapter_3/Fatigue/packages/tau_permissible_fatigue.py:97-113 | The k > 0 value is at most the cap. Either it is the cap, or times the two-point denominator it gives `sigma_0 = 1.66 sigmaW0`. |
| `TauPermissible.ShearTension` | Chapter_3/Fatigue/packages/tau_permissible_fatigue.py:158-162 | The value selected before the reduction never exceeds `0.66 sigmaE`. |
| `TauPermissible.ShearStress` | Chapter_3/Fatigue/packages/tau_permissible_fatigue.py:155-165 | `tau_a · √3` equals the selected value, and `tau_a ≤ 0.66 sigmaE / √3` for every k. |
| `TauPermissible.TwoPointMatchesAxial` | Chapter_3/Fatigue/packages/tau_permissible_fatigue.py:97-113 | The shear copy of the two-point law equals the axial one at the same basic stress and k. |
| `TauPermissible.ShearMatchesAxialTension` | Chapter_3/Fatigue/packages/tau_permissible_fatigue.py:81-113 | The shear row is defined exactly when the axial law is defined at sigmaW := sigmaW0, k := k_txy. Where defined, the value before reduction and `tau_a · √3` both equal the axial tension. |
| `TauPermissible.ShearTensionByBranch` | Chapter_3/Fatigue/packages/tau_permissible_fatigue.py:158-162 | The value before reduction is `min(5 sigmaW0/(3 - 2k), 0.66 sigmaE)` for k ≤ 0, k = 0 included. For k > 0 it is `min(sigma_0/(1 - (1 - sigma_0/sigma_1) k), 0.66 sigmaE)`, with `sigma_0 = 1.66 sigmaW0` and `sigma_1 = 0.75 sigmaR`. |
| `TauPermissible.ShearStressSign` | Chapter_3/Fatigue/packages/tau_permissible_fatigue.py:155-165 | Take `sigmaW0 ≥ 0`, `sigmaR > 0`, `sigmaE ≥ 0` and `k ≤ 1`, excluding `sigmaW0 = 0` at `k = 1`. Then the row is defined and `tau_a ≥ 0`. With `sigmaW0 > 0` and `sigmaE > 0`, `tau_a > 0`. |
| `TauPermissible.ShearBatch` | Chapter_3/Fatigue/packages/tau_permissible_fatigue.py:155-165 | The batch result has one `tau_a` per row, and entry i is row i's own result. |
| `CheckStress.SenseOf` | Chapter_3/Fatigue/packages/check_stress.py:121-127 | A measured maximum is tension exactly when it is ≥ 0, so zero counts as tension. |
| `CheckStress.PermissibleStress` | Chapter_3/Fatigue/packages/check_stress.py:118-129 | A measured maximum `sigmaMax ≥ 0` selects the tension value `sigmaT`; `sigmaMax < 0` selects the compression value `sigmaC`, whatever their signs. |
| `CheckStress.PermissibleStressMatchesSense` | Chapter_3/Fatigue/packages/check_stress.py:118-129 | Take `sigmaT > 0 > sigmaC`. The selected stress is nonzero. It is positive exactly when `sigmaMax ≥ 0`, so `sigmaMax = 0` selects tension. It never has the opposite sign to `sigmaMax`. |
| `CheckStress.Ratio` | Chapter_3/Fatigue/packages/check_stress.py:131-136 | The ratio times the selected permissible stress gives `sigmaMax`. With `sigmaT > 0 > sigmaC` the ratio is ≥ 0. |
| `CheckStress.RatioScenario` | Chapter_3/Fatigue/packages/check_stress.py:131-136 | sigma_max = 100, sigma_t = 120, sigma_c = -80 uses tension, giving ratio 5/6. |
| `CheckStress.RatioSigmaX` | Chapter_3/Fatigue/packages/check_stress.py:138-143 | `ratio_s_x` times the permissible stress selected for `sigma_x_max` gives `sigma_x_max`. It is ≥ 0 when `sigma_tx > 0 > sigma_cx`. |
| `CheckStress.RatioSigmaY` | Chapter_3/Fatigue/packages/check_stress.py:145-150 | `ratio_s_y` times the permissible stress selected for `sigma_y_max` gives `sigma_y_max`. It is ≥ 0 when `sigma_ty > 0 > sigma_cy`. |
| `CheckStress.PermissibleStressX` | Chapter_3/Fatigue/packages/check_stress.py:213-220 | The getter returns `sigma_tx` when `sigma_x_max ≥ 0` and `sigma_cx` otherwise. |
| `CheckStress.PermissibleStressY` | Chapter_3/Fatigue/packages/check_stress.py:222-229 | The getter returns `sigma_ty` when `sigma_y_max ≥ 0` and `sigma_cy` otherwise. |
| `CheckStress.PermissibleStressTxy` | Chapter_3/Fatigue/packages/check_stress.py:231-236 | The getter returns the attached `tau_a` unchanged. |
| `CheckStress.RatioTauXY` | Chapter_3/Fatigue/packages/check_stress.py:152-157 | The shear ratio times `tau_a` gives `abs(tau_xy_max)`. It is ≥ 0 when `tau_a > 0`. |
| `CheckStress.RatioTauXYIgnoresSign` | Chapter_3/Fatigue/packages/check_stress.py:155 | Negating `tau_xy_max` leaves the shear ratio unchanged. |
| `CheckStress.CrossTerm` | Chapter_3/Fatigue/packages/check_stress.py:169-177 | The cross term times `abs(p_x p_y)` gives `sigma_x sigma_y`. Only the denominator is made absolute. |
| `CheckStress.CrossTermSignAndMagnitude` | Chapter_3/Fatigue/packages/check_stress.py:165-177 | The cross term is positive or negative exactly when `sigma_x sigma_y` is, and its magnitude is `abs(ratio_s_x · ratio_s_y)`. |
| `CheckStress.Formula5` | Chapter_3/Fatigue/packages/check_stress.py:179 | Formula (5) `rx² + ry² - cross + rt²`, with a cross term of magnitude `abs(rx ry)`, is at least `(rx² + ry²)/2 + rt²`, so it is never negative. |
| `CheckStress.Ratio1` | Chapter_3/Fatigue/packages/check_stress.py:159-181 | With nonzero selected `p_x`, `p_y` and `tau_a`, ratio_1 is at least `(ratio_s_x² + ratio_s_y²)/2 + ratio_t_xy²`, and so ≥ 0. |
| `CheckStress.CrossTermIsSubtracted` | Chapter_3/Fatigue/packages/check_stress.py:179 | The cross term is subtracted. Axial stresses of one sense make ratio_1 smaller than the plain sum of squares, and mixed senses make it larger. A uniaxial state leaves it equal to that sum. |
| `CheckStress.Ratio2` | Chapter_3/Fatigue/packages/check_stress.py:183-192 | ratio_2 ≥ 0 and ratio_2² = ratio_1. It exists for every row whose denominators are nonzero. |
| `CheckStress.Combined` | Chapter_3/Fatigue/packages/check_stress.py:238-277 | The five values are the row's `RatioSigmaX`, `RatioSigmaY`, `RatioTauXY`, `Ratio1` and `Ratio2`, as the getters return them. They satisfy formula (5), `ratio_1 = r_x² + r_y² - cross + r_t²`, and `ratio_1 ≥ 0`, `ratio_2 ≥ 0`, `ratio_2² = ratio_1`. |
| `CheckStress.CombinedBatch` | Chapter_3/Fatigue/packages/check_stress.py:159-192 | The batch result has one entry per row, and entry i is row i's own result. |
| `Pipeline.Augment` | Chapter_3/Fatigue/packages/check_stress.py:104-111 | The row the combined check reads carries the measured extremes unchanged. Its `sigma_tx`/`sigma_cx` are the axial tension and compression at `k_sx`, its `sigma_ty`/`sigma_cy` those at `k_sy`, and its `tau_a` is the shear stage's result. Its tensions are at most the cap. |
| `Pipeline.PhysicalPointsAreCheckable` | Chapter_3/Fatigue/packages/check_stress.py:165-190 | For positive sigmaW, sigmaW0, sigmaE and sigmaR and all ratios ≤ 1, every stage is defined. Tensions are > 0, compressions < 0 and `tau_a > 0`. All ratio denominators are nonzero, the axis and shear ratios are ≥ 0, and ratio_2 is the square root of ratio_1. |

## Left out

- IEEE floating point is not modelled: rounding, infinities and NaN propagation. Stresses are exact reals.
- Division by zero is not modelled. In the source it yields inf or NaN. Every function requires the denominators of its selected branch to be nonzero: `sigma_1` and the two-point denominator for k > 0, the selected `p_x`, `p_y` and `tau_a` in the combined check.
- The mask `.where(sigma_t <= cap, cap)` replaces a NaN or +inf tension by the cap. This quirk depends on non-finite values, so it is not modelled.
- The source evaluates both branches for every row and then masks. The model evaluates only the selected branch. An undefined value in the unselected branch never reaches the result.
- `CheckStress.Ratio2`: a NaN result for a negative ratio_1 is not modelled. With nonzero denominators, ratio_1 is proved never negative.
- `TauPermissible.ShearStress`: √3 is an exact square root given by the `sqrt` parameter, not the double `3**0.5`. The same holds for `r1**0.5` in `CheckStress.Ratio2`.
- The pass/fail verdict (ratio_1 ≤ 1.0, ratio_2 ≤ 1.05) is not modelled. These thresholds appear only as highlighting rules in the spreadsheet export (exportexcel.py:86-110). The `Validate` column that exportexcel.py:37 prints is not computed by any of the three modelled modules.
- SignInvariant: excludes `sigmaW = 0` at `k = 1`. There the two-point denominator is 0, the source computes 0/0 = NaN, and the cap mask replaces it by `0.66 sigmaE` (sigma_permissible_fatigue.py:126-129), giving tension `0.66 sigmaE` and compression `-0.792 sigmaE`. The model needs real division and leaves this NaN case out.
- ShearStressSign: excludes `sigmaW0 = 0` at `k_txy = 1`, for the same reason. The source gives `0.66 sigmaE / 3**0.5` there (tau_permissible_fatigue.py:108-111).
- The spreadsheet export (`exportexcel.py`) is I/O, so it is not modelled.
- The steel-grade lookup (`steelvalues.py`) is not modelled. It is a table lookup whose table is not part of this model. `sigmaE` and `sigmaR` come in as parameters (`Material.Steel`).
- The `DataFrame` column-accessor classes and their `get_df`/`get_df_columns` copies are replaced by the row datatypes' named fields.
- The `__main__` demonstration blocks are not modelled. They use random data and printing.
