/**
 * The two adjustments that shape the final range: the valuation factor
 * (`_calcular_factor_valoracion`), which scales the value for the valuation
 * stance, the development context, low-cost technologies and missing data,
 * with a floor of 0.4; and the uncertainty margin
 * (`_calcular_margen_incertidumbre`), the half-width of the range, between
 * 10% and 45%.
 */
module Ajuste {
  import opened Reales
  import opened Texto
  import opened Perfil

  /** Multiplier for the valuation stance: conservative 0.85, optimistic 1.15. */
  function PorPostura(tipo: string): (r: real)
    ensures 0.85 <= r <= 1.15
  {
    if tipo == "conservadora" then 0.85 else if tipo == "optimista" then 1.15 else 1.0
  }

  /**
   * Discount for a low-cost technology, tested on the lower-cased tag in this
   * order: a tag containing "access" gets 0.7, otherwise one containing "excel"
   * 0.6, otherwise one containing "vb_net" 0.8.
   */
  function PorTecnologiaBarata(tec: string): (r: real)
    ensures 0.6 <= r <= 1.0
  {
    var t := Lower(tec);
    if Contains(t, "access") then 0.7
    else if Contains(t, "excel") then 0.6
    else if Contains(t, "vb_net") then 0.8
    else 1.0
  }

  /** Multiplier 0.9 for a "no" answer to a "do you know it?" question. */
  function PorDatoFaltante(respuesta: Json): (r: real)
    ensures NoConoce(respuesta) <==> r == 0.9
    ensures !NoConoce(respuesta) ==> r == 1.0
  {
    if NoConoce(respuesta) then 0.9 else 1.0
  }

  /** The product of the ten adjustments, before the floor. */
  function FactorValoracionSinPiso(p: Perfil): real
    requires p.tecnologia.Some?
  {
    Producto10(PorPostura(p.tipoValoracion),
      PorContexto(DesarrolloInterno, p.contexto, 0.9),
      PorContexto(TiempoParcial, p.contexto, 0.85),
      PorContexto(AprendizajeTecnologia, p.contexto, 1.2),
      PorContexto(SinMetodologia, p.contexto, 0.8),
      PorContexto(UrgenciaTiempo, p.contexto, 1.1),
      PorContexto(PrototipoIterativo, p.contexto, 0.95),
      PorTecnologiaBarata(p.tecnologia.value),
      PorDatoFaltante(p.conoceTiempoDesarrollo),
      PorDatoFaltante(p.conoceInversion))
  }

  /** The valuation factor: never below 40% of the value. */
  function FactorValoracion(p: Perfil): real
    requires p.tecnologia.Some?
  {
    Max(0.4, FactorValoracionSinPiso(p))
  }

  /** The valuation factor computed as the source does, one adjustment at a time. */
  method CalcularFactorValoracion(p: Perfil) returns (r: real)
    requires p.tecnologia.Some?
    ensures r == FactorValoracion(p)
    ensures 0.4 <= r <= 1.518
  {
    var tipoValoracion := p.tipoValoracion;
    var porPostura := 1.0;
    if tipoValoracion == "conservadora" {
      porPostura := 0.85;
    } else if tipoValoracion == "optimista" {
      porPostura := 1.15;
    }
    var factor := 1.0 * porPostura;
    ghost var conPostura := factor;

    var contexto := p.contexto;
    factor := AplicarContexto(factor, DesarrolloInterno, contexto, 0.9);
    ghost var conInterno := factor;
    factor := AplicarContexto(factor, TiempoParcial, contexto, 0.85);
    ghost var conParcial := factor;
    factor := AplicarContexto(factor, AprendizajeTecnologia, contexto, 1.2);
    ghost var conAprendizaje := factor;
    factor := AplicarContexto(factor, SinMetodologia, contexto, 0.8);
    ghost var conSinMetodologia := factor;
    factor := AplicarContexto(factor, UrgenciaTiempo, contexto, 1.1);
    ghost var conUrgencia := factor;
    factor := AplicarContexto(factor, PrototipoIterativo, contexto, 0.95);
    ghost var conPrototipo := factor;

    var tecnologia := Lower(p.tecnologia.value);
    var porTecnologia := 1.0;
    if Contains(tecnologia, "access") {
      porTecnologia := 0.7;
    } else if Contains(tecnologia, "excel") {
      porTecnologia := 0.6;
    } else if Contains(tecnologia, "vb_net") {
      porTecnologia := 0.8;
    }
    factor := factor * porTecnologia;
    ghost var conTecnologia := factor;

    var porTiempo := if NoConoce(p.conoceTiempoDesarrollo) then 0.9 else 1.0;
    factor := factor * porTiempo;
    ghost var conTiempo := factor;
    var porInversion := if NoConoce(p.conoceInversion) then 0.9 else 1.0;
    factor := factor * porInversion;
    ghost var conInversion := factor;

    assert porPostura == PorPostura(tipoValoracion);
    assert porTecnologia == PorTecnologiaBarata(p.tecnologia.value);
    Acumular10(porPostura,
      PorContexto(DesarrolloInterno, contexto, 0.9),
      PorContexto(TiempoParcial, contexto, 0.85),
      PorContexto(AprendizajeTecnologia, contexto, 1.2),
      PorContexto(SinMetodologia, contexto, 0.8),
      PorContexto(UrgenciaTiempo, contexto, 1.1),
      PorContexto(PrototipoIterativo, contexto, 0.95),
      porTecnologia, porTiempo, porInversion,
      conPostura, conInterno, conParcial, conAprendizaje, conSinMetodologia, conUrgencia, conPrototipo, conTecnologia, conTiempo, conInversion);
    FactorValoracionAcotado(p);
    r := Max(0.4, factor);
  }

  /** Each context adjustment lies between its multiplier and 1. */
  lemma ContextoAcotado(contexto: set<Contexto>)
    ensures 0.9 <= PorContexto(DesarrolloInterno, contexto, 0.9) <= 1.0
    ensures 0.85 <= PorContexto(TiempoParcial, contexto, 0.85) <= 1.0
    ensures 1.0 <= PorContexto(AprendizajeTecnologia, contexto, 1.2) <= 1.2
    ensures 0.8 <= PorContexto(SinMetodologia, contexto, 0.8) <= 1.0
    ensures 1.0 <= PorContexto(UrgenciaTiempo, contexto, 1.1) <= 1.1
    ensures 0.95 <= PorContexto(PrototipoIterativo, contexto, 0.95) <= 1.0
  {
  }

  /**
   * The factor lies in [0.4, 1.518]: only an optimistic stance (1.15), a
   * learning curve (1.2) and urgency (1.1) raise it.
   */
  lemma FactorValoracionAcotado(p: Perfil)
    requires p.tecnologia.Some?
    ensures 0.4 <= FactorValoracion(p) <= 1.518
  {
    ContextoAcotado(p.contexto);
    Producto10Monotono(PorPostura(p.tipoValoracion),
      PorContexto(DesarrolloInterno, p.contexto, 0.9),
      PorContexto(TiempoParcial, p.contexto, 0.85),
      PorContexto(AprendizajeTecnologia, p.contexto, 1.2),
      PorContexto(SinMetodologia, p.contexto, 0.8),
      PorContexto(UrgenciaTiempo, p.contexto, 1.1),
      PorContexto(PrototipoIterativo, p.contexto, 0.95),
      PorTecnologiaBarata(p.tecnologia.value),
      PorDatoFaltante(p.conoceTiempoDesarrollo),
      PorDatoFaltante(p.conoceInversion),
      1.15, 1.0, 1.0, 1.2, 1.0, 1.1, 1.0, 1.0, 1.0, 1.0);
    assert Producto10(1.15, 1.0, 1.0, 1.2, 1.0, 1.1, 1.0, 1.0, 1.0, 1.0) == 1.518;
  }

  /**
   * "access" takes precedence: a tag whose lower-cased form contains it gets
   * 0.7 even when it also contains "excel" or "vb_net"; the discount applies
   * exactly when one of the three substrings occurs.
   */
  lemma TecnologiaBarataPrecedencia(tec: string)
    ensures Contains(Lower(tec), "access") ==> PorTecnologiaBarata(tec) == 0.7
    ensures PorTecnologiaBarata(tec) < 1.0 <==>
      Contains(Lower(tec), "access") || Contains(Lower(tec), "excel") || Contains(Lower(tec), "vb_net")
  {
  }

  /** Answering "no" to "do you know the development time?" never raises the factor. */
  lemma NoConocerTiempoNoSube(p: Perfil)
    requires p.tecnologia.Some?
    ensures FactorValoracion(p.(conoceTiempoDesarrollo := JStr("no"))) <= FactorValoracion(p)
  {
    ContextoAcotado(p.contexto);
    var postura, tec := PorPostura(p.tipoValoracion), PorTecnologiaBarata(p.tecnologia.value);
    var interno, parcial := PorContexto(DesarrolloInterno, p.contexto, 0.9), PorContexto(TiempoParcial, p.contexto, 0.85);
    var aprendizaje, sinMetodologia := PorContexto(AprendizajeTecnologia, p.contexto, 1.2), PorContexto(SinMetodologia, p.contexto, 0.8);
    var urgencia, prototipo := PorContexto(UrgenciaTiempo, p.contexto, 1.1), PorContexto(PrototipoIterativo, p.contexto, 0.95);
    var inversion := PorDatoFaltante(p.conoceInversion);
    Producto10Monotono(
      postura, interno, parcial, aprendizaje, sinMetodologia, urgencia, prototipo, tec, 0.9, inversion,
      postura, interno, parcial, aprendizaje, sinMetodologia, urgencia, prototipo, tec, PorDatoFaltante(p.conoceTiempoDesarrollo), inversion);
  }

  /** Answering "no" to "do you know the investment?" never raises the factor. */
  lemma NoConocerInversionNoSube(p: Perfil)
    requires p.tecnologia.Some?
    ensures FactorValoracion(p.(conoceInversion := JStr("no"))) <= FactorValoracion(p)
  {
    ContextoAcotado(p.contexto);
    var postura, tec := PorPostura(p.tipoValoracion), PorTecnologiaBarata(p.tecnologia.value);
    var interno, parcial := PorContexto(DesarrolloInterno, p.contexto, 0.9), PorContexto(TiempoParcial, p.contexto, 0.85);
    var aprendizaje, sinMetodologia := PorContexto(AprendizajeTecnologia, p.contexto, 1.2), PorContexto(SinMetodologia, p.contexto, 0.8);
    var urgencia, prototipo := PorContexto(UrgenciaTiempo, p.contexto, 1.1), PorContexto(PrototipoIterativo, p.contexto, 0.95);
    var tiempo := PorDatoFaltante(p.conoceTiempoDesarrollo);
    Producto10Monotono(
      postura, interno, parcial, aprendizaje, sinMetodologia, urgencia, prototipo, tec, tiempo, 0.9,
      postura, interno, parcial, aprendizaje, sinMetodologia, urgencia, prototipo, tec, tiempo, PorDatoFaltante(p.conoceInversion));
  }

  // ---------------------------------------------------------------------------
  // Uncertainty margin
  // ---------------------------------------------------------------------------

  /** The substrings that mark a basic, more predictable technology. */
  const TecnologiasBasicas: seq<string> := ["access", "excel", "vba"]

  /** Some basic-technology marker occurs in the lower-cased tag. */
  predicate EsTecnologiaBasica(tec: string)
  {
    exists i :: 0 <= i < |TecnologiasBasicas| && Contains(Lower(tec), TecnologiasBasicas[i])
  }

  /** The margin before the limits: 20%, plus 10 and 8 points for an unknown time
      and investment, plus 12 for low or minus 5 for high certainty, then 20% less
      for a basic technology. */
  function MargenSinLimites(p: Perfil): real
    requires p.tecnologia.Some?
  {
    var margen := 0.20
      + (if NoConoce(p.conoceTiempoDesarrollo) then 0.10 else 0.0)
      + (if NoConoce(p.conoceInversion) then 0.08 else 0.0)
      + (if p.nivelCerteza == "baja" then 0.12 else if p.nivelCerteza == "alta" then -0.05 else 0.0);
    if EsTecnologiaBasica(p.tecnologia.value) then margen * 0.8 else margen
  }

  /** The uncertainty margin: the raw margin clamped to [10%, 45%]. */
  function Margen(p: Perfil): real
    requires p.tecnologia.Some?
  {
    Min(0.45, Max(0.10, MargenSinLimites(p)))
  }

  /** The margin computed as the source does, with the `any` over the basic markers as a loop. */
  method CalcularMargenIncertidumbre(p: Perfil) returns (r: real)
    requires p.tecnologia.Some?
    ensures r == Margen(p)
    ensures 0.12 <= r <= 0.45
  {
    var margen := 0.20;
    if NoConoce(p.conoceTiempoDesarrollo) {
      margen := margen + 0.10;
    }
    if NoConoce(p.conoceInversion) {
      margen := margen + 0.08;
    }
    if p.nivelCerteza == "baja" {
      margen := margen + 0.12;
    } else if p.nivelCerteza == "alta" {
      margen := margen - 0.05;
    }

    var tecnologia := Lower(p.tecnologia.value);
    var basica := false;
    var i := 0;
    while i < |TecnologiasBasicas| && !basica
      invariant 0 <= i <= |TecnologiasBasicas|
      invariant basica <==> exists k :: 0 <= k < i && Contains(tecnologia, TecnologiasBasicas[k])
    {
      basica := Contains(tecnologia, TecnologiasBasicas[i]);
      i := i + 1;
    }
    if basica {
      margen := margen * 0.8;
    }
    MargenAcotado(p);
    r := Min(0.45, Max(0.10, margen));
  }

  /**
   * The margin lies in [0.12, 0.45], so the 10% floor never applies: the
   * smallest raw margin is (0.20 − 0.05) × 0.8 = 0.12.
   */
  lemma MargenAcotado(p: Perfil)
    requires p.tecnologia.Some?
    ensures 0.12 <= MargenSinLimites(p) <= 0.5
    ensures Margen(p) == Min(0.45, MargenSinLimites(p))
    ensures 0.12 <= Margen(p) <= 0.45
  {
  }

  /** Answering "no" about the development time never narrows the margin. */
  lemma NoConocerTiempoEnsancha(p: Perfil)
    requires p.tecnologia.Some?
    ensures Margen(p) <= Margen(p.(conoceTiempoDesarrollo := JStr("no")))
  {
  }

  /** Answering "no" about the investment never narrows the margin. */
  lemma NoConocerInversionEnsancha(p: Perfil)
    requires p.tecnologia.Some?
    ensures Margen(p) <= Margen(p.(conoceInversion := JStr("no")))
  {
  }

  /** Declaring low certainty never gives a narrower margin than declaring high certainty. */
  lemma CertezaBajaMasAncha(p: Perfil)
    requires p.tecnologia.Some?
    ensures Margen(p.(nivelCerteza := "alta")) <= Margen(p.(nivelCerteza := "baja"))
  {
  }
}
