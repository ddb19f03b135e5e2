/** The steel grade's constants, resolved once per run and shared by every
    row of the batch, and the elastic-limit cap that every tensile
    permissible stress is subject to. */
module Material {

  /** sigmaE: elastic limit [MPa]; sigmaR: ultimate tensile strength [MPa]. */
  datatype Steel = Steel(sigmaE: real, sigmaR: real)

  /** No tensile permissible stress may exceed 66 % of the elastic limit. */
  function Cap(steel: Steel): real
  {
    0.66 * steel.sigmaE
  }

  /** `v.where(v <= 0.66 sigma_E, 0.66 sigma_E)`: a value at or below the cap
      is kept, any other value is replaced by the cap. */
  function Capped(v: real, steel: Steel): (r: real)
    ensures r <= Cap(steel) && r <= v
    ensures r == v || r == Cap(steel)
  {
    if v <= Cap(steel) then v else Cap(steel)
  }
}
