/**
 * The business-value factor (`_calcular_factor_negocio`): criticality,
 * annual savings, user reach, return on investment and sector multiply a
 * running factor, a development-time adjustment follows, and the result is
 * capped at 3.5.
 */
module Negocio {
  import opened Reales
  import opened Perfil

  /** Criticality 1..5; any other value reads as 1.0. */
  function FactorCriticidad(criticidad: int): (r: real)
    ensures 0.75 <= r <= 1.5
  {
    match criticidad
    case 1 => 0.75
    case 2 => 0.90
    case 3 => 1.00
    case 4 => 1.25
    case 5 => 1.50
    case _ => 1.0
  }

  /** Annual savings tiers: more than 1, 5, 10, 20 and 50 million pesos. */
  function FactorAhorro(ahorro: int): (r: real)
    ensures 1.0 <= r <= 1.4
    ensures ahorro <= 1000000 ==> r == 1.0
  {
    if ahorro > 50000000 then 1.40
    else if ahorro > 20000000 then 1.30
    else if ahorro > 10000000 then 1.20
    else if ahorro > 5000000 then 1.15
    else if ahorro > 1000000 then 1.08
    else 1.0
  }

  /** Reach tiers: more than 20, 50, 100 and 500 users overall. */
  function FactorUsuariosTotales(usuarios: int): (r: real)
    ensures 1.0 <= r <= 1.25
    ensures usuarios <= 20 ==> r == 1.0
  {
    if usuarios > 500 then 1.25
    else if usuarios > 100 then 1.15
    else if usuarios > 50 then 1.08
    else if usuarios > 20 then 1.04
    else 1.0
  }

  /** Return-on-investment tiers, only when both savings and investment are positive. */
  function FactorRoi(ahorro: int, inversion: int): (r: real)
    ensures 1.0 <= r <= 1.3
    ensures r != 1.0 ==> ahorro > 0 && inversion > 0 && ahorro as real / inversion as real > 0.5
  {
    if ahorro > 0 && inversion > 0 then
      var roi := ahorro as real / inversion as real;
      if roi > 2.0 then 1.30
      else if roi > 1.0 then 1.20
      else if roi > 0.5 then 1.10
      else 1.0
    else 1.0
  }

  /** Sector premium: public, financial and health. */
  function FactorSectorNegocio(sector: string): (r: real)
    ensures 1.0 <= r <= 1.18
  {
    if sector == "publico" then 1.12
    else if sector == "financiero" then 1.18
    else if sector == "salud" then 1.15
    else 1.0
  }

  /**
   * The development-time adjustment of a running factor: a project built in
   * under three months earns 5% only when the factor already exceeds 1.2,
   * one that took more than two years loses 5%, and an unknown time
   * (zero or less) changes nothing.
   */
  function AjusteEficiencia(factor: real, meses: real): (r: real)
    ensures factor >= 0.0 ==> factor * 0.95 <= r <= factor * 1.05
    ensures factor >= 0.0 && r > factor ==> 0.0 < meses < 3.0 && factor > 1.2
    ensures factor >= 0.0 && r < factor ==> meses > 24.0
  {
    if meses > 0.0 then
      if meses < 3.0 && factor > 1.2 then factor * 1.05
      else if meses > 24.0 then factor * 0.95
      else factor
    else factor
  }

  /** The business factor of a questionnaire. */
  function FactorNegocio(p: Perfil): real
  {
    Min(AjusteEficiencia(Producto5(FactorCriticidad(p.criticidadNegocio), FactorAhorro(p.ahorroAnualCop),
      FactorUsuariosTotales(p.usuariosTotales), FactorRoi(p.ahorroAnualCop, p.inversionOriginalCop),
      FactorSectorNegocio(p.sector)), p.tiempoDesarrolloMeses), 3.5)
  }

  /** The business factor computed as the source does, one multiplication at a time. */
  method CalcularFactorNegocio(p: Perfil) returns (r: real)
    ensures r == FactorNegocio(p)
    ensures 0.7125 <= r <= 3.5
  {
    var criticidad := FactorCriticidad(p.criticidadNegocio);
    var factor := criticidad;
    ghost var conCriticidad := factor;

    // A tier that leaves the factor unchanged multiplies by 1.0.
    var ahorroAnual := p.ahorroAnualCop;
    var porAhorro := 1.0;
    if ahorroAnual > 50000000 {
      porAhorro := 1.40;
    } else if ahorroAnual > 20000000 {
      porAhorro := 1.30;
    } else if ahorroAnual > 10000000 {
      porAhorro := 1.20;
    } else if ahorroAnual > 5000000 {
      porAhorro := 1.15;
    } else if ahorroAnual > 1000000 {
      porAhorro := 1.08;
    }
    factor := factor * porAhorro;
    ghost var conAhorro := factor;

    var usuariosTotales := p.usuariosTotales;
    var porUsuarios := 1.0;
    if usuariosTotales > 500 {
      porUsuarios := 1.25;
    } else if usuariosTotales > 100 {
      porUsuarios := 1.15;
    } else if usuariosTotales > 50 {
      porUsuarios := 1.08;
    } else if usuariosTotales > 20 {
      porUsuarios := 1.04;
    }
    factor := factor * porUsuarios;
    ghost var conUsuarios := factor;

    var inversionOriginal := p.inversionOriginalCop;
    var porRoi := 1.0;
    if ahorroAnual > 0 && inversionOriginal > 0 {
      var roiAnual := ahorroAnual as real / inversionOriginal as real;
      if roiAnual > 2.0 {
        porRoi := 1.30;
      } else if roiAnual > 1.0 {
        porRoi := 1.20;
      } else if roiAnual > 0.5 {
        porRoi := 1.10;
      }
    }
    factor := factor * porRoi;
    ghost var conRoi := factor;

    var sector := p.sector;
    var porSector := 1.0;
    if sector == "publico" {
      porSector := 1.12;
    } else if sector == "financiero" {
      porSector := 1.18;
    } else if sector == "salud" {
      porSector := 1.15;
    }
    factor := factor * porSector;
    ghost var conSector := factor;
    assert porAhorro == FactorAhorro(ahorroAnual);
    assert porUsuarios == FactorUsuariosTotales(usuariosTotales);
    assert porRoi == FactorRoi(ahorroAnual, inversionOriginal);
    assert porSector == FactorSectorNegocio(sector);
    Acumular5(criticidad, porAhorro, porUsuarios, porRoi, porSector, conCriticidad, conAhorro, conUsuarios, conRoi, conSector);

    var tiempoDesarrollo := p.tiempoDesarrolloMeses;
    if tiempoDesarrollo > 0.0 {
      if tiempoDesarrollo < 3.0 && factor > 1.2 {
        factor := factor * 1.05;
      } else if tiempoDesarrollo > 24.0 {
        factor := factor * 0.95;
      }
    }
    assert factor == AjusteEficiencia(conSector, tiempoDesarrollo);
    FactorNegocioAcotado(p);
    r := Min(factor, 3.5);
  }

  /** The factor always lies in [0.7125, 3.5]: criticality 1 with a long development is the floor. */
  lemma FactorNegocioAcotado(p: Perfil)
    ensures 0.7125 <= FactorNegocio(p) <= 3.5
  {
    var x := Producto5(FactorCriticidad(p.criticidadNegocio), FactorAhorro(p.ahorroAnualCop),
      FactorUsuariosTotales(p.usuariosTotales), FactorRoi(p.ahorroAnualCop, p.inversionOriginalCop),
      FactorSectorNegocio(p.sector));
    Producto5AlMenos(FactorCriticidad(p.criticidadNegocio), FactorAhorro(p.ahorroAnualCop),
      FactorUsuariosTotales(p.usuariosTotales), FactorRoi(p.ahorroAnualCop, p.inversionOriginalCop),
      FactorSectorNegocio(p.sector), 0.75);
    MulLe(0.75, x, 0.95);
    MulLe(0.75, x, 1.05);
  }

  /** On the normalised range 1..5, a higher criticality never has a lower multiplier. */
  lemma FactorCriticidadMonotono(c1: int, c2: int)
    requires 1 <= c1 <= c2 <= 5
    ensures FactorCriticidad(c1) <= FactorCriticidad(c2)
  {
  }

  /** The development-time adjustment keeps the order of two running factors. */
  lemma AjusteEficienciaMonotono(x: real, y: real, meses: real)
    requires 0.0 <= x <= y
    ensures AjusteEficiencia(x, meses) <= AjusteEficiencia(y, meses)
  {
    MulLe(x, y, 1.05);
    MulLe(x, y, 0.95);
  }

  /** With everything else fixed, a more critical system is never worth less. */
  lemma NegocioMonotonoEnCriticidad(p: Perfil, c1: int, c2: int)
    requires 1 <= c1 <= c2 <= 5
    ensures FactorNegocio(p.(criticidadNegocio := c1)) <= FactorNegocio(p.(criticidadNegocio := c2))
  {
    FactorCriticidadMonotono(c1, c2);
    var a, u, roi, s := FactorAhorro(p.ahorroAnualCop), FactorUsuariosTotales(p.usuariosTotales),
      FactorRoi(p.ahorroAnualCop, p.inversionOriginalCop), FactorSectorNegocio(p.sector);
    var k1, k2 := FactorCriticidad(c1), FactorCriticidad(c2);
    Producto5Monotono(k1, a, u, roi, s, k2, a, u, roi, s);
    Producto5AlMenos(k1, a, u, roi, s, 0.0);
    AjusteEficienciaMonotono(Producto5(k1, a, u, roi, s), Producto5(k2, a, u, roi, s), p.tiempoDesarrolloMeses);
  }

  /** More savings never lower the savings tier. */
  lemma FactorAhorroMonotono(a1: int, a2: int)
    requires a1 <= a2
    ensures FactorAhorro(a1) <= FactorAhorro(a2)
  {
  }

  /** With the investment fixed, more savings never lower the return-on-investment tier. */
  lemma FactorRoiMonotono(a1: int, a2: int, inversion: int)
    requires a1 <= a2
    ensures FactorRoi(a1, inversion) <= FactorRoi(a2, inversion)
  {
    if a1 > 0 && inversion > 0 {
      DivMonotona(a1 as real, a2 as real, inversion as real);
    }
  }

  /** Dividing by the same positive number keeps an inequality. */
  lemma DivMonotona(x: real, y: real, d: real)
    requires x <= y && d > 0.0
    ensures x / d <= y / d
  {
    MulLe(x, y, 1.0 / d);
  }

  /** With everything else fixed, larger annual savings never lower the business factor. */
  lemma NegocioMonotonoEnAhorro(p: Perfil, a1: int, a2: int)
    requires a1 <= a2
    ensures FactorNegocio(p.(ahorroAnualCop := a1)) <= FactorNegocio(p.(ahorroAnualCop := a2))
  {
    FactorAhorroMonotono(a1, a2);
    FactorRoiMonotono(a1, a2, p.inversionOriginalCop);
    var k, u, s := FactorCriticidad(p.criticidadNegocio), FactorUsuariosTotales(p.usuariosTotales), FactorSectorNegocio(p.sector);
    var f1, f2 := FactorAhorro(a1), FactorAhorro(a2);
    var r1, r2 := FactorRoi(a1, p.inversionOriginalCop), FactorRoi(a2, p.inversionOriginalCop);
    Producto5Monotono(k, f1, u, r1, s, k, f2, u, r2, s);
    Producto5AlMenos(k, f1, u, r1, s, 0.0);
    AjusteEficienciaMonotono(Producto5(k, f1, u, r1, s), Producto5(k, f2, u, r2, s), p.tiempoDesarrolloMeses);
  }
}
