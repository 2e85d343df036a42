/**
 * The confidence score (`_calcular_confianza`): the share of critical fields
 * that are present, adjusted by the declared certainty, by what the user
 * does not know or only estimated, by the development context and by the
 * valuation stance, plus a bonus for ISO/IEC 25010 scores, capped at 1.
 */
module Confianza {
  import opened Reales
  import opened Tablas
  import opened Perfil

  /**
   * How many of the five critical fields are not null.  The endpoint always
   * sets `antiguedad_anos`, `usuarios_concurrentes` and `criticidad_negocio`
   * to numbers, so only `tipo_software` and `tecnologia_principal` can be null.
   */
  function CamposCompletos(p: Perfil): (r: nat)
    ensures 3 <= r <= 5
    ensures r == 5 <==> p.tipoSoftware.Some? && p.tecnologia.Some?
  {
    3 + (if p.tipoSoftware.Some? then 1 else 0) + (if p.tecnologia.Some? then 1 else 0)
  }

  /** Multiplier for the declared certainty: high 1.1, low 0.8. */
  function PorCerteza(nivel: string): (r: real)
    ensures 0.8 <= r <= 1.1
  {
    if nivel == "alta" then 1.1 else if nivel == "baja" then 0.8 else 1.0
  }

  /**
   * Multiplier for one piece of information: `siNo` when the answer to "do you
   * know it?" is the string "no", otherwise `siEstimado` when the value was
   * only estimated, otherwise 1.
   */
  function PorInformacion(conoce: Json, estimado: bool, siNo: real, siEstimado: real): real
  {
    if NoConoce(conoce) then siNo else if estimado then siEstimado else 1.0
  }

  /** Multiplier for the valuation stance: conservative 1.05, optimistic 0.9. */
  function PorTipoValoracion(tipo: string): (r: real)
    ensures 0.9 <= r <= 1.05
  {
    if tipo == "conservadora" then 1.05 else if tipo == "optimista" then 0.9 else 1.0
  }

  /** The bonus for `n` ISO/IEC 25010 scores: 0.2 per rubric's worth of characteristics, at most 0.2. */
  function BonoIso(n: nat): (r: real)
    ensures 0.0 <= r <= 0.2
    ensures n == 0 ==> r == 0.0
    ensures n >= |PesosIso25010| ==> r == 0.2
  {
    if n > 0 then Min(0.2, n as real / |PesosIso25010| as real * 0.2) else 0.0
  }

  /** The confidence before the ISO bonus: the share of complete fields times the ten adjustments. */
  function ConfianzaAjustada(p: Perfil): real
  {
    Producto10(CamposCompletos(p) as real / 5.0,
      PorCerteza(p.nivelCerteza),
      PorInformacion(p.conoceTiempoDesarrollo, p.tiempoCalculadoPorFechas, 0.9, 0.95),
      PorInformacion(p.conoceInversion, p.inversionEsEstimada, 0.85, 0.9),
      PorInformacion(p.conoceAhorros, p.ahorrosSonEstimados, 0.9, 0.95),
      PorContexto(DesarrolloInterno, p.contexto, 1.05),
      PorContexto(SinMetodologia, p.contexto, 0.85),
      PorContexto(UrgenciaTiempo, p.contexto, 0.9),
      PorContexto(TiempoParcial, p.contexto, 0.95),
      PorTipoValoracion(p.tipoValoracion))
  }

  /** The confidence score of a questionnaire. */
  function Confianza(p: Perfil): real
  {
    Min(1.0, ConfianzaAjustada(p) + BonoIso(|p.iso25010|))
  }

  /** The confidence computed as the source does, one adjustment at a time. */
  method CalcularConfianza(p: Perfil) returns (r: real)
    ensures r == Confianza(p)
    ensures 0.2 <= r <= 1.0
  {
    var camposCompletos := 3;
    if p.tipoSoftware.Some? {
      camposCompletos := camposCompletos + 1;
    }
    if p.tecnologia.Some? {
      camposCompletos := camposCompletos + 1;
    }
    var confianza := camposCompletos as real / 5.0;
    ghost var conBase := confianza;

    confianza := AplicarCerteza(confianza, p.nivelCerteza);
    ghost var conCerteza := confianza;

    confianza := AplicarInformacion(confianza, p.conoceTiempoDesarrollo, p.tiempoCalculadoPorFechas, 0.9, 0.95);
    ghost var conTiempo := confianza;
    confianza := AplicarInformacion(confianza, p.conoceInversion, p.inversionEsEstimada, 0.85, 0.9);
    ghost var conInversion := confianza;
    confianza := AplicarInformacion(confianza, p.conoceAhorros, p.ahorrosSonEstimados, 0.9, 0.95);
    ghost var conAhorros := confianza;

    var contexto := p.contexto;
    confianza := AplicarContexto(confianza, DesarrolloInterno, contexto, 1.05);
    ghost var conInterno := confianza;
    confianza := AplicarContexto(confianza, SinMetodologia, contexto, 0.85);
    ghost var conSinMetodologia := confianza;
    confianza := AplicarContexto(confianza, UrgenciaTiempo, contexto, 0.9);
    ghost var conUrgencia := confianza;
    confianza := AplicarContexto(confianza, TiempoParcial, contexto, 0.95);
    ghost var conParcial := confianza;

    confianza := AplicarTipoValoracion(confianza, p.tipoValoracion);
    ghost var conTipo := confianza;

    Acumular10(CamposCompletos(p) as real / 5.0,
      PorCerteza(p.nivelCerteza),
      PorInformacion(p.conoceTiempoDesarrollo, p.tiempoCalculadoPorFechas, 0.9, 0.95),
      PorInformacion(p.conoceInversion, p.inversionEsEstimada, 0.85, 0.9),
      PorInformacion(p.conoceAhorros, p.ahorrosSonEstimados, 0.9, 0.95),
      PorContexto(DesarrolloInterno, p.contexto, 1.05),
      PorContexto(SinMetodologia, p.contexto, 0.85),
      PorContexto(UrgenciaTiempo, p.contexto, 0.9),
      PorContexto(TiempoParcial, p.contexto, 0.95),
      PorTipoValoracion(p.tipoValoracion),
      conBase, conCerteza, conTiempo, conInversion, conAhorros, conInterno, conSinMetodologia, conUrgencia, conParcial, conTipo);

    if |p.iso25010| > 0 {
      var caracteristicasIso := |p.iso25010|;
      var bonusIso := Min(0.2, caracteristicasIso as real / |PesosIso25010| as real * 0.2);
      confianza := confianza + bonusIso;
    }
    r := Min(1.0, confianza);
    ConfianzaFinal(p, confianza);
  }

  /** Applies the declared certainty to a running score. */
  method AplicarCerteza(confianza: real, nivel: string) returns (r: real)
    ensures r == confianza * PorCerteza(nivel)
  {
    r := confianza;
    if nivel == "alta" {
      r := r * 1.1;
    } else if nivel == "baja" {
      r := r * 0.8;
    }
  }

  /** Applies one piece of information to a running score: `siNo` for a "no", `siEstimado` for an estimate. */
  method AplicarInformacion(confianza: real, conoce: Json, estimado: bool, siNo: real, siEstimado: real) returns (r: real)
    ensures r == confianza * PorInformacion(conoce, estimado, siNo, siEstimado)
  {
    r := confianza;
    if NoConoce(conoce) {
      r := r * siNo;
    } else if estimado {
      r := r * siEstimado;
    }
  }

  /** Applies the valuation stance to a running score. */
  method AplicarTipoValoracion(confianza: real, tipo: string) returns (r: real)
    ensures r == confianza * PorTipoValoracion(tipo)
  {
    r := confianza;
    if tipo == "conservadora" {
      r := r * 1.05;
    } else if tipo == "optimista" {
      r := r * 0.9;
    }
  }

  /** The last step of the method: capping the adjusted score plus the bonus gives the score. */
  lemma ConfianzaFinal(p: Perfil, confianza: real)
    requires confianza == ConfianzaAjustada(p) + BonoIso(|p.iso25010|)
    ensures Min(1.0, confianza) == Confianza(p)
    ensures 0.2 <= Min(1.0, confianza) <= 1.0
  {
    ConfianzaAcotada(p);
  }

  /** Each adjustment lies between its smallest and its largest multiplier. */
  lemma AjustesAcotados(p: Perfil)
    ensures 0.9 <= PorInformacion(p.conoceTiempoDesarrollo, p.tiempoCalculadoPorFechas, 0.9, 0.95) <= 1.0
    ensures 0.85 <= PorInformacion(p.conoceInversion, p.inversionEsEstimada, 0.85, 0.9) <= 1.0
    ensures 0.9 <= PorInformacion(p.conoceAhorros, p.ahorrosSonEstimados, 0.9, 0.95) <= 1.0
    ensures 1.0 <= PorContexto(DesarrolloInterno, p.contexto, 1.05) <= 1.05
    ensures 0.85 <= PorContexto(SinMetodologia, p.contexto, 0.85) <= 1.0
    ensures 0.9 <= PorContexto(UrgenciaTiempo, p.contexto, 0.9) <= 1.0
    ensures 0.95 <= PorContexto(TiempoParcial, p.contexto, 0.95) <= 1.0
  {
  }

  /**
   * The score always lies in [0.2, 1]: even with both tags null, low certainty,
   * nothing known, no methodology, urgency, part-time work and an optimistic
   * stance, it stays above 0.6 × 0.8 × 0.9 × 0.85 × 0.9 × 0.85 × 0.9 × 0.95 × 0.9 ≈ 0.216.
   */
  lemma ConfianzaAcotada(p: Perfil)
    ensures 0.2 <= Confianza(p) <= 1.0
  {
    AjustesAcotados(p);
    Producto10Monotono(0.6, 0.8, 0.9, 0.85, 0.9, 1.0, 0.85, 0.9, 0.95, 0.9,
      CamposCompletos(p) as real / 5.0,
      PorCerteza(p.nivelCerteza),
      PorInformacion(p.conoceTiempoDesarrollo, p.tiempoCalculadoPorFechas, 0.9, 0.95),
      PorInformacion(p.conoceInversion, p.inversionEsEstimada, 0.85, 0.9),
      PorInformacion(p.conoceAhorros, p.ahorrosSonEstimados, 0.9, 0.95),
      PorContexto(DesarrolloInterno, p.contexto, 1.05),
      PorContexto(SinMetodologia, p.contexto, 0.85),
      PorContexto(UrgenciaTiempo, p.contexto, 0.9),
      PorContexto(TiempoParcial, p.contexto, 0.95),
      PorTipoValoracion(p.tipoValoracion));
    assert Producto10(0.6, 0.8, 0.9, 0.85, 0.9, 1.0, 0.85, 0.9, 0.95, 0.9) > 0.2;
  }

  /** Answering "no" to "do you know the development time?" never raises the confidence. */
  lemma NoConocerTiempoNoSube(p: Perfil)
    ensures Confianza(p.(conoceTiempoDesarrollo := JStr("no"))) <= Confianza(p)
  {
    var q := p.(conoceTiempoDesarrollo := JStr("no"));
    AjustesAcotados(p);
    AjustesAcotados(q);
    var base, certeza := CamposCompletos(p) as real / 5.0, PorCerteza(p.nivelCerteza);
    var inversion := PorInformacion(p.conoceInversion, p.inversionEsEstimada, 0.85, 0.9);
    var ahorros := PorInformacion(p.conoceAhorros, p.ahorrosSonEstimados, 0.9, 0.95);
    var interno, sinMetodologia := PorContexto(DesarrolloInterno, p.contexto, 1.05), PorContexto(SinMetodologia, p.contexto, 0.85);
    var urgencia, parcial := PorContexto(UrgenciaTiempo, p.contexto, 0.9), PorContexto(TiempoParcial, p.contexto, 0.95);
    var tipo := PorTipoValoracion(p.tipoValoracion);
    Producto10Monotono(
      base, certeza, 0.9, inversion, ahorros, interno, sinMetodologia, urgencia, parcial, tipo,
      base, certeza, PorInformacion(p.conoceTiempoDesarrollo, p.tiempoCalculadoPorFechas, 0.9, 0.95),
      inversion, ahorros, interno, sinMetodologia, urgencia, parcial, tipo);
  }

  /** Answering "no" to "do you know the investment?" never raises the confidence. */
  lemma NoConocerInversionNoSube(p: Perfil)
    ensures Confianza(p.(conoceInversion := JStr("no"))) <= Confianza(p)
  {
    AjustesAcotados(p);
    var base, certeza := CamposCompletos(p) as real / 5.0, PorCerteza(p.nivelCerteza);
    var tiempo := PorInformacion(p.conoceTiempoDesarrollo, p.tiempoCalculadoPorFechas, 0.9, 0.95);
    var ahorros := PorInformacion(p.conoceAhorros, p.ahorrosSonEstimados, 0.9, 0.95);
    var interno, sinMetodologia := PorContexto(DesarrolloInterno, p.contexto, 1.05), PorContexto(SinMetodologia, p.contexto, 0.85);
    var urgencia, parcial := PorContexto(UrgenciaTiempo, p.contexto, 0.9), PorContexto(TiempoParcial, p.contexto, 0.95);
    var tipo := PorTipoValoracion(p.tipoValoracion);
    Producto10Monotono(
      base, certeza, tiempo, 0.85, ahorros, interno, sinMetodologia, urgencia, parcial, tipo,
      base, certeza, tiempo, PorInformacion(p.conoceInversion, p.inversionEsEstimada, 0.85, 0.9),
      ahorros, interno, sinMetodologia, urgencia, parcial, tipo);
  }

  /** Answering "no" to "do you know the savings?" never raises the confidence. */
  lemma NoConocerAhorrosNoSube(p: Perfil)
    ensures Confianza(p.(conoceAhorros := JStr("no"))) <= Confianza(p)
  {
    AjustesAcotados(p);
    var base, certeza := CamposCompletos(p) as real / 5.0, PorCerteza(p.nivelCerteza);
    var tiempo := PorInformacion(p.conoceTiempoDesarrollo, p.tiempoCalculadoPorFechas, 0.9, 0.95);
    var inversion := PorInformacion(p.conoceInversion, p.inversionEsEstimada, 0.85, 0.9);
    var interno, sinMetodologia := PorContexto(DesarrolloInterno, p.contexto, 1.05), PorContexto(SinMetodologia, p.contexto, 0.85);
    var urgencia, parcial := PorContexto(UrgenciaTiempo, p.contexto, 0.9), PorContexto(TiempoParcial, p.contexto, 0.95);
    var tipo := PorTipoValoracion(p.tipoValoracion);
    Producto10Monotono(
      base, certeza, tiempo, inversion, 0.9, interno, sinMetodologia, urgencia, parcial, tipo,
      base, certeza, tiempo, inversion, PorInformacion(p.conoceAhorros, p.ahorrosSonEstimados, 0.9, 0.95),
      interno, sinMetodologia, urgencia, parcial, tipo);
  }

  /** More ISO/IEC 25010 scores never lower the bonus. */
  lemma BonoIsoMonotono(n1: nat, n2: nat)
    requires n1 <= n2
    ensures BonoIso(n1) <= BonoIso(n2)
  {
    if n1 > 0 {
      MulLe(n1 as real / 9.0, n2 as real / 9.0, 0.2);
    }
  }
}
