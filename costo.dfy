/**
 * The hourly rate (`_calcular_costo_hora`): a configured technology pays the
 * base rate of its cost tier times its multiplier; any other tag, including
 * a differently capitalised one, pays the medium-tier rate.
 */
module Costo {
  import opened Tablas

  /** The hourly rate in COP for a technology tag. */
  function CostoHora(tec: string): (r: real)
    ensures 12000.0 <= r <= 171000.0
  {
    if tec in FactoresTecnologia then
      var perfil := FactoresTecnologia[tec];
      FactoresTecnologiaAcotados(tec);
      RateAcotado(CostoBase(perfil.nivel), perfil.factor);
      CostoBase(perfil.nivel) * perfil.factor
    else CostoBase(Medio)
  }

  /** A tier rate times a technology multiplier stays within the extreme tier rates scaled by the extreme multipliers. */
  lemma RateAcotado(base: real, factor: real)
    requires 20000.0 <= base <= 90000.0 && 0.6 <= factor <= 1.9
    ensures 12000.0 <= base * factor <= 171000.0
  {
    assert 20000.0 * 0.6 <= base * 0.6 <= base * factor;
    assert base * factor <= base * 1.9 <= 90000.0 * 1.9;
  }

  /** A configured technology pays its tier rate scaled by its multiplier; any other tag pays the medium rate of 45000. */
  lemma CostoHoraCasos(tec: string)
    ensures tec in FactoresTecnologia ==> CostoHora(tec) == CostoBase(FactoresTecnologia[tec].nivel) * FactoresTecnologia[tec].factor
    ensures tec !in FactoresTecnologia ==> CostoHora(tec) == 45000.0
  {
  }

  /** The bounds of `CostoHora` are reached: Excel/VBA is the cheapest rate, a distributed architecture the dearest. */
  lemma CostoHoraExtremos()
    ensures CostoHora("excel_vba") == 12000.0
    ensures CostoHora("arquitectura_distribuida") == 171000.0
  {
    assert "excel_vba" in FactoresTecnologia;
    assert "arquitectura_distribuida" in FactoresTecnologia;
  }

  /** The lookup is case-sensitive: "Access_VBA" is not configured and pays the medium rate, "access_vba" pays 21000. */
  lemma CostoHoraDistingueMayusculas()
    ensures CostoHora("access_vba") == 21000.0
    ensures CostoHora("Access_VBA") == 45000.0
  {
    assert "access_vba" in FactoresTecnologia;
    assert "Access_VBA" !in FactoresTecnologia;
  }
}
