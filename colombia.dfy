/**
 * The Colombian regulatory factor (`_calcular_factor_colombia`): each
 * compliance obligation that applies multiplies a running factor by its
 * premium and records a label, in a fixed order; three or five obligations
 * earn a bonus, the Colombian market adds 5%, and the result is capped at 2.2.
 */
module Colombia {
  import opened Reales
  import opened Perfil

  /** One obligation the factor can charge for. */
  datatype Obligacion = PorNorma(n: Normativa) | SectorPublico | SectorFinanciero

  /** The multiplier of an obligation. */
  function Prima(o: Obligacion): (r: real)
    ensures 1.08 <= r <= 1.25
  {
    match o
    case PorNorma(GeneraReportesOficiales) => 1.18
    case PorNorma(RequiereAuditoriaLogs) => 1.12
    case SectorPublico => 1.15
    case SectorFinanciero => 1.25
    case PorNorma(InteroperabilidadGovCo) => 1.10
    case PorNorma(ManejaDatosPersonales) => 1.08
    case PorNorma(Decreto648) => 1.15
    case PorNorma(Iso27001) => 1.12
    case PorNorma(Sarlaft) => 1.20
    case PorNorma(Contraloria) => 1.10
  }

  /** The label the report shows for an obligation. */
  function Etiqueta(o: Obligacion): string
  {
    match o
    case PorNorma(GeneraReportesOficiales) => "Reportes oficiales para entes de control"
    case PorNorma(RequiereAuditoriaLogs) => "Logs de auditoría detallados"
    case SectorPublico => "Sector público colombiano"
    case SectorFinanciero => "Sector financiero regulado"
    case PorNorma(InteroperabilidadGovCo) => "Estándares interoperabilidad Gov.co"
    case PorNorma(ManejaDatosPersonales) => "Cumplimiento Ley Habeas Data"
    case PorNorma(Decreto648) => "Decreto 648/2017 - Auditoría Interna"
    case PorNorma(Iso27001) => "Controles ISO 27001"
    case PorNorma(Sarlaft) => "Cumplimiento SARLAFT"
    case PorNorma(Contraloria) => "Reportes Contraloría General"
  }

  /** The obligation of a flag, when the flag is set. */
  function SiNorma(n: Normativa, normativas: set<Normativa>): (r: seq<Obligacion>)
    ensures |r| <= 1
  {
    if n in normativas then [PorNorma(n)] else []
  }

  /** The sector obligation: public and financial sectors only. */
  function SegunSector(sector: string): (r: seq<Obligacion>)
    ensures |r| <= 1
  {
    if sector == "publico" then [SectorPublico]
    else if sector == "financiero" then [SectorFinanciero]
    else []
  }

  /** The obligations of a questionnaire, in the order the factor checks them. */
  function Obligaciones(p: Perfil): seq<Obligacion>
  {
    var ns := p.normativas;
    SiNorma(GeneraReportesOficiales, ns) + SiNorma(RequiereAuditoriaLogs, ns) + SegunSector(p.sector)
      + SiNorma(InteroperabilidadGovCo, ns) + SiNorma(ManejaDatosPersonales, ns) + SiNorma(Decreto648, ns)
      + SiNorma(Iso27001, ns) + SiNorma(Sarlaft, ns) + SiNorma(Contraloria, ns)
  }

  /** The labels of a list of obligations, in order. */
  function Etiquetas(os: seq<Obligacion>): (r: seq<string>)
    ensures |r| == |os|
  {
    if os == [] then [] else Etiquetas(os[..|os| - 1]) + [Etiqueta(os[|os| - 1])]
  }

  /** The compliance labels recorded for a questionnaire (`detalles_cumplimiento`). */
  function DetallesCumplimiento(p: Perfil): seq<string>
  {
    Etiquetas(Obligaciones(p))
  }

  /** The multiplier a flag check applies: its premium when set, otherwise 1. */
  function PrimaNorma(n: Normativa, normativas: set<Normativa>): real
  {
    if n in normativas then Prima(PorNorma(n)) else 1.0
  }

  /** The multiplier the sector check applies. */
  function PrimaSector(sector: string): real
  {
    if sector == "publico" then Prima(SectorPublico)
    else if sector == "financiero" then Prima(SectorFinanciero)
    else 1.0
  }

  /** The product of the multipliers of all nine checks. */
  function ProductoPrimas(p: Perfil): real
  {
    var ns := p.normativas;
    Producto9(PrimaNorma(GeneraReportesOficiales, ns), PrimaNorma(RequiereAuditoriaLogs, ns), PrimaSector(p.sector),
      PrimaNorma(InteroperabilidadGovCo, ns), PrimaNorma(ManejaDatosPersonales, ns), PrimaNorma(Decreto648, ns),
      PrimaNorma(Iso27001, ns), PrimaNorma(Sarlaft, ns), PrimaNorma(Contraloria, ns))
  }

  /** The bonus for several obligations at once: 5% from three, 8% from five. */
  function BonoCumplimientos(n: int): (r: real)
    ensures 1.0 <= r <= 1.08
  {
    if n >= 5 then 1.08 else if n >= 3 then 1.05 else 1.0
  }

  /** The factor before the cap: premiums, bonus and the 5% market adjustment. */
  function FactorColombiaSinTope(p: Perfil): real
  {
    ProductoPrimas(p) * BonoCumplimientos(|Obligaciones(p)|) * 1.05
  }

  /** The regulatory factor of a questionnaire. */
  function FactorColombia(p: Perfil): real
  {
    Min(FactorColombiaSinTope(p), 2.2)
  }

  /** Appending at most one obligation appends its label. */
  lemma EtiquetasAgregar(os: seq<Obligacion>, pieza: seq<Obligacion>)
    requires |pieza| <= 1
    ensures Etiquetas(os + pieza) == Etiquetas(os) + Etiquetas(pieza)
  {
    if pieza == [] {
      assert os + pieza == os;
    } else {
      assert (os + pieza)[..|os|] == os;
    }
  }

  /** The labels, position by position. */
  lemma {:induction false} EtiquetasEn(os: seq<Obligacion>, i: int)
    requires 0 <= i < |os|
    ensures Etiquetas(os)[i] == Etiqueta(os[i])
  {
    if i < |os| - 1 {
      EtiquetasEn(os[..|os| - 1], i);
    }
  }

  /** With the sector fixed and more flags set, a check's multiplier and obligations never shrink. */
  lemma PrimasMonotonas(p: Perfil, q: Perfil, n: Normativa)
    requires p.normativas <= q.normativas && p.sector == q.sector
    ensures 1.0 <= PrimaNorma(n, p.normativas) <= PrimaNorma(n, q.normativas)
    ensures 1.0 <= PrimaSector(p.sector) <= PrimaSector(q.sector)
    ensures |SiNorma(n, p.normativas)| <= |SiNorma(n, q.normativas)|
  {
  }

  /** With the sector fixed, more flags never mean fewer obligations. */
  lemma ObligacionesMonotonas(p: Perfil, q: Perfil)
    requires p.normativas <= q.normativas && p.sector == q.sector
    ensures |Obligaciones(p)| <= |Obligaciones(q)|
  {
    forall n: Normativa
      ensures |SiNorma(n, p.normativas)| <= |SiNorma(n, q.normativas)|
    {
      PrimasMonotonas(p, q, n);
    }
  }

  /** The product of the multipliers is at least 1, and grows when more flags are set. */
  lemma ProductoPrimasMonotono(p: Perfil, q: Perfil)
    requires p.normativas <= q.normativas && p.sector == q.sector
    ensures 1.0 <= ProductoPrimas(p) <= ProductoPrimas(q)
  {
    var ps, qs := p.normativas, q.normativas;
    PrimasMonotonas(p, q, GeneraReportesOficiales);
    PrimasMonotonas(p, q, RequiereAuditoriaLogs);
    PrimasMonotonas(p, q, InteroperabilidadGovCo);
    PrimasMonotonas(p, q, ManejaDatosPersonales);
    PrimasMonotonas(p, q, Decreto648);
    PrimasMonotonas(p, q, Iso27001);
    PrimasMonotonas(p, q, Sarlaft);
    PrimasMonotonas(p, q, Contraloria);
    Producto9Monotono(
      PrimaNorma(GeneraReportesOficiales, ps), PrimaNorma(RequiereAuditoriaLogs, ps), PrimaSector(p.sector),
      PrimaNorma(InteroperabilidadGovCo, ps), PrimaNorma(ManejaDatosPersonales, ps), PrimaNorma(Decreto648, ps),
      PrimaNorma(Iso27001, ps), PrimaNorma(Sarlaft, ps), PrimaNorma(Contraloria, ps),
      PrimaNorma(GeneraReportesOficiales, qs), PrimaNorma(RequiereAuditoriaLogs, qs), PrimaSector(q.sector),
      PrimaNorma(InteroperabilidadGovCo, qs), PrimaNorma(ManejaDatosPersonales, qs), PrimaNorma(Decreto648, qs),
      PrimaNorma(Iso27001, qs), PrimaNorma(Sarlaft, qs), PrimaNorma(Contraloria, qs));
  }

  /** A product of two factors of at least 1 is at least 1 and grows with each factor. */
  lemma ProductoMonotono(t1: real, t2: real, a1: real, a2: real, b1: real, b2: real)
    requires t1 == a1 * b1 && t2 == a2 * b2
    requires 1.0 <= a1 <= a2 && 1.0 <= b1 <= b2
    ensures 1.0 <= t1 <= t2
  {
    MulPaso(a1, a2, b1, b2);
  }

  /** The factor always lies in [1.05, 2.2]. */
  lemma FactorColombiaAcotado(p: Perfil)
    ensures 1.05 <= FactorColombia(p) <= 2.2
  {
    ProductoPrimasMonotono(p, p);
    var x, b := ProductoPrimas(p), BonoCumplimientos(|Obligaciones(p)|);
    ProductoMonotono(x * b, x * b, x, x, b, b);
    MulLe(1.0, x * b, 1.05);
  }

  /** With the sector fixed, setting more compliance flags never lowers the factor. */
  lemma FactorColombiaMonotono(p: Perfil, q: Perfil)
    requires p.normativas <= q.normativas && p.sector == q.sector
    ensures FactorColombia(p) <= FactorColombia(q)
  {
    ProductoPrimasMonotono(p, q);
    ObligacionesMonotonas(p, q);
    var x1, x2 := ProductoPrimas(p), ProductoPrimas(q);
    var b1, b2 := BonoCumplimientos(|Obligaciones(p)|), BonoCumplimientos(|Obligaciones(q)|);
    ProductoMonotono(x1 * b1, x2 * b2, x1, x2, b1, b2);
    ProductoMonotono(FactorColombiaSinTope(p), FactorColombiaSinTope(q), x1 * b1, x2 * b2, 1.05, 1.05);
  }

  /** A flag's obligation is charged exactly when the flag is set. */
  lemma ObligacionSiiNormativa(p: Perfil, n: Normativa)
    ensures PorNorma(n) in Obligaciones(p) <==> n in p.normativas
  {
    var ns := p.normativas;
    EnObligaciones(p, PorNorma(n));
    assert PorNorma(n) !in SegunSector(p.sector);
    if n in ns {
      assert PorNorma(n) in SiNorma(n, ns);
    } else {
      assert PorNorma(n) !in SiNorma(GeneraReportesOficiales, ns) && PorNorma(n) !in SiNorma(RequiereAuditoriaLogs, ns);
      assert PorNorma(n) !in SiNorma(InteroperabilidadGovCo, ns) && PorNorma(n) !in SiNorma(ManejaDatosPersonales, ns);
      assert PorNorma(n) !in SiNorma(Decreto648, ns) && PorNorma(n) !in SiNorma(Iso27001, ns);
      assert PorNorma(n) !in SiNorma(Sarlaft, ns) && PorNorma(n) !in SiNorma(Contraloria, ns);
    }
  }

  /** Membership in the obligations splits into the flags before the sector, the sector, and the flags after it. */
  lemma EnObligaciones(p: Perfil, o: Obligacion)
    ensures o in Obligaciones(p) <==>
      o in SiNorma(GeneraReportesOficiales, p.normativas) + SiNorma(RequiereAuditoriaLogs, p.normativas)
        + SiNorma(InteroperabilidadGovCo, p.normativas) + SiNorma(ManejaDatosPersonales, p.normativas)
        + SiNorma(Decreto648, p.normativas) + SiNorma(Iso27001, p.normativas) + SiNorma(Sarlaft, p.normativas)
        + SiNorma(Contraloria, p.normativas)
      || o in SegunSector(p.sector)
  {
  }

  /** The sector obligations are charged exactly for the public and financial sectors. */
  lemma ObligacionSectorSiiSector(p: Perfil)
    ensures SectorPublico in Obligaciones(p) <==> p.sector == "publico"
    ensures SectorFinanciero in Obligaciones(p) <==> p.sector == "financiero"
  {
    var ns := p.normativas;
    EnObligaciones(p, SectorPublico);
    EnObligaciones(p, SectorFinanciero);
    forall m: Normativa
      ensures SectorPublico !in SiNorma(m, ns) && SectorFinanciero !in SiNorma(m, ns)
    {
    }
  }

  /** Different obligations have different labels. */
  lemma EtiquetasDistintas(o1: Obligacion, o2: Obligacion)
    requires o1 != o2
    ensures Etiqueta(o1) != Etiqueta(o2)
  {
  }

  /** A flag's label is recorded exactly when the flag is set. */
  lemma EtiquetaSiiNormativa(p: Perfil, n: Normativa)
    ensures Etiqueta(PorNorma(n)) in DetallesCumplimiento(p) <==> n in p.normativas
  {
    ObligacionSiiNormativa(p, n);
    var os := Obligaciones(p);
    var etiquetas := Etiquetas(os);
    if n in p.normativas {
      var k :| 0 <= k < |os| && os[k] == PorNorma(n);
      EtiquetasEn(os, k);
      assert etiquetas[k] == Etiqueta(PorNorma(n));
    }
    if Etiqueta(PorNorma(n)) in etiquetas {
      var k :| 0 <= k < |os| && etiquetas[k] == Etiqueta(PorNorma(n));
      EtiquetasEn(os, k);
      if os[k] != PorNorma(n) {
        EtiquetasDistintas(os[k], PorNorma(n));
      }
    }
  }
}
