/**
 * The valuation engine `MotorValoracion`: the effort estimator and the
 * regulatory factor, which record their working in the engine's fields,
 * and `calcular_valor`, which combines every factor into an average value
 * with an uncertainty band around it.
 */
module Motor {
  import opened Wrappers
  import opened Redondeo
  import opened Reales
  import opened Tablas
  import opened Texto
  import opened Perfil
  import opened Horas
  import opened Costo
  import opened Calidad
  import opened Complejidad
  import opened Negocio
  import opened Colombia
  import opened Confianza
  import opened Ajuste

  /** The `desglose` of a valuation: every intermediate quantity. */
  datatype Desglose = Desglose(
    horasEstimadas: int,
    costoHora: real,
    valorBase: real,
    factorCalidad: real,
    factorComplejidad: real,
    factorNegocio: real,
    factorColombia: real,
    factorAjusteValoracion: real,
    margenIncertidumbre: real)

  /** A successful valuation (the stored record's identifier is not modelled). */
  datatype Valoracion = Valoracion(
    valorMinimo: int,
    valorMaximo: int,
    valorPromedio: int,
    factorConfianza: real,
    desglose: Desglose,
    metodologia: string)

  const Metodologia: string := "ISO 25010:2023 + COCOMO Adaptado + Mercado Colombia 2025"

  /** The message of the one failure a questionnaire can cause: a null technology tag cannot be lower-cased. */
  const ErrorTecnologiaNula: string := "Error en cálculo: 'NoneType' object has no attribute 'lower'"

  /** `valor_base`: the estimated hours at the hourly rate. */
  function ValorBase(horas: int, costoHora: real): real
  {
    horas as real * costoHora
  }

  /** The breakdown of a questionnaire with a technology tag. */
  function DesgloseDe(p: Perfil): Desglose
    requires p.tecnologia.Some?
  {
    var horas := HorasFinales(p);
    var costo := CostoHora(p.tecnologia.value);
    Desglose(horas, costo, ValorBase(horas, costo), FactorCalidad(p.iso25010), FactorComplejidad(p),
      FactorNegocio(p), FactorColombia(p), FactorValoracion(p), Margen(p))
  }

  /** The adjusted value: the base value times the five factors, left to right. */
  function ValorAjustado(d: Desglose): real
  {
    d.valorBase * d.factorCalidad * d.factorComplejidad * d.factorNegocio * d.factorColombia * d.factorAjusteValoracion
  }

  /** The rounded band around an adjusted value: its lower end, upper end and the value itself. */
  function Banda(valor: real, margen: real): (int, int, int)
  {
    (RoundHalfEven(valor * (1.0 - margen)), RoundHalfEven(valor * (1.0 + margen)), RoundHalfEven(valor))
  }

  /** The valuation record of a breakdown: the rounded band and average, and the confidence. */
  function ArmarValoracion(d: Desglose, confianza: real): Valoracion
  {
    var banda := Banda(ValorAjustado(d), d.margenIncertidumbre);
    Valoracion(banda.0, banda.1, banda.2, confianza, d, Metodologia)
  }

  /** `calcular_valor` on a questionnaire. */
  function Valorar(p: Perfil): Result<Valoracion, string>
  {
    if p.tecnologia.None? then Err(ErrorTecnologiaNula)
    else Ok(ArmarValoracion(DesgloseDe(p), Confianza.Confianza(p)))
  }

  /** The breakdown assembled from the values of its parts. */
  lemma DesglosePorPartes(p: Perfil, horas: int, costo: real, calidad: real, complejidad: real, negocio: real,
    colombia: real, ajuste: real, margen: real)
    requires p.tecnologia.Some?
    requires horas == HorasFinales(p) && costo == CostoHora(p.tecnologia.value)
    requires calidad == FactorCalidad(p.iso25010) && complejidad == FactorComplejidad(p) && negocio == FactorNegocio(p)
    requires colombia == FactorColombia(p) && ajuste == FactorValoracion(p) && margen == Margen(p)
    ensures DesgloseDe(p) == Desglose(horas, costo, ValorBase(horas, costo), calidad, complejidad, negocio, colombia, ajuste, margen)
  {
  }

  /** The hour increments of `_estimar_horas`: each set feature, in the fixed order, adds its hours and its log line. */
  method AjustarPorFuncionalidades(horasBase: int, funcionalidades: set<Funcionalidad>) returns (horas: int, ajustes: seq<string>)
    ensures horas == horasBase + SumaHoras(Activas(OrdenFuncionalidades, funcionalidades))
    ensures ajustes == Horas.Etiquetas(Activas(OrdenFuncionalidades, funcionalidades))
  {
    horas, ajustes := horasBase, [];
    horas, ajustes := SumarFuncionalidad(horas, ajustes, AutenticacionAvanzada, funcionalidades, horasBase, []);
    ghost var activas := [] + SiActiva(AutenticacionAvanzada, funcionalidades);
    horas, ajustes := SumarFuncionalidad(horas, ajustes, ReportesComplejos, funcionalidades, horasBase, activas);
    activas := activas + SiActiva(ReportesComplejos, funcionalidades);
    horas, ajustes := SumarFuncionalidad(horas, ajustes, IntegracionExterna, funcionalidades, horasBase, activas);
    activas := activas + SiActiva(IntegracionExterna, funcionalidades);
    horas, ajustes := SumarFuncionalidad(horas, ajustes, WorkflowAprobaciones, funcionalidades, horasBase, activas);
    activas := activas + SiActiva(WorkflowAprobaciones, funcionalidades);
    horas, ajustes := SumarFuncionalidad(horas, ajustes, DashboardEjecutivo, funcionalidades, horasBase, activas);
    activas := activas + SiActiva(DashboardEjecutivo, funcionalidades);
    horas, ajustes := SumarFuncionalidad(horas, ajustes, ApiRest, funcionalidades, horasBase, activas);
    activas := activas + SiActiva(ApiRest, funcionalidades);
    horas, ajustes := SumarFuncionalidad(horas, ajustes, Notificaciones, funcionalidades, horasBase, activas);
    activas := activas + SiActiva(Notificaciones, funcionalidades);
    horas, ajustes := SumarFuncionalidad(horas, ajustes, BackupAutomatico, funcionalidades, horasBase, activas);
    activas := activas + SiActiva(BackupAutomatico, funcionalidades);
    horas, ajustes := SumarFuncionalidad(horas, ajustes, AuditoriaLogs, funcionalidades, horasBase, activas);
    activas := activas + SiActiva(AuditoriaLogs, funcionalidades);
    assert [] + SiActiva(AutenticacionAvanzada, funcionalidades) == SiActiva(AutenticacionAvanzada, funcionalidades);
    ActivasPorFuncionalidad(funcionalidades);
  }

  /** One feature check of `_estimar_horas`: when the feature is set, its hours and its log line are added. */
  method SumarFuncionalidad(horas: int, ajustes: seq<string>, f: Funcionalidad, funcionalidades: set<Funcionalidad>,
    ghost horasBase: int, ghost activas: seq<Funcionalidad>)
    returns (nuevasHoras: int, nuevosAjustes: seq<string>)
    requires horas == horasBase + SumaHoras(activas) && ajustes == Horas.Etiquetas(activas)
    ensures nuevasHoras == horasBase + SumaHoras(activas + SiActiva(f, funcionalidades))
    ensures nuevosAjustes == Horas.Etiquetas(activas + SiActiva(f, funcionalidades))
  {
    nuevasHoras, nuevosAjustes := horas, ajustes;
    if f in funcionalidades {
      var ajuste := HorasFuncionalidad(f);
      nuevasHoras := nuevasHoras + ajuste;
      nuevosAjustes := nuevosAjustes + [EtiquetaFuncionalidad(f)];
    }
    SumarActiva(activas, f, funcionalidades);
  }

  /** The technology multiplier of `_estimar_horas`: the configured factor, overridden by the "access" test. */
  method CalcularFactorTecnologia(tecnologia: string) returns (factor: real)
    ensures factor == FactorTecnologiaHoras(tecnologia)
  {
    factor := 1.0;
    if tecnologia in FactoresTecnologia {
      factor := FactoresTecnologia[tecnologia].factor;
    }
    if Contains(Lower(tecnologia), "access") {
      factor := 0.85;
    }
    FactorTecnologiaHorasCasos(tecnologia);
  }

  /** One compliance-flag check of the regulatory factor: premium and label when the flag is set. */
  method AplicarNormativa(factor: real, detalles: seq<string>, n: Normativa, normativas: set<Normativa>,
    ghost multiplicadores: seq<real>, ghost obligaciones: seq<Obligacion>)
    returns (nuevoFactor: real, nuevosDetalles: seq<string>)
    requires factor == Producto(multiplicadores) && detalles == Colombia.Etiquetas(obligaciones)
    ensures nuevoFactor == Producto(multiplicadores + [PrimaNorma(n, normativas)])
    ensures nuevosDetalles == Colombia.Etiquetas(obligaciones + SiNorma(n, normativas))
  {
    nuevoFactor, nuevosDetalles := factor, detalles;
    if n in normativas {
      nuevoFactor := nuevoFactor * Prima(PorNorma(n));
      nuevosDetalles := nuevosDetalles + [Etiqueta(PorNorma(n))];
    }
    ProductoAgregar(multiplicadores, PrimaNorma(n, normativas));
    EtiquetasAgregar(obligaciones, SiNorma(n, normativas));
  }

  /** The sector check of the regulatory factor: public and financial sectors pay a premium and are recorded. */
  method AplicarSector(factor: real, detalles: seq<string>, sector: string,
    ghost multiplicadores: seq<real>, ghost obligaciones: seq<Obligacion>)
    returns (nuevoFactor: real, nuevosDetalles: seq<string>)
    requires factor == Producto(multiplicadores) && detalles == Colombia.Etiquetas(obligaciones)
    ensures nuevoFactor == Producto(multiplicadores + [PrimaSector(sector)])
    ensures nuevosDetalles == Colombia.Etiquetas(obligaciones + SegunSector(sector))
  {
    nuevoFactor, nuevosDetalles := factor, detalles;
    if sector == "publico" {
      nuevoFactor := nuevoFactor * 1.15;
      nuevosDetalles := nuevosDetalles + ["Sector público colombiano"];
    } else if sector == "financiero" {
      nuevoFactor := nuevoFactor * 1.25;
      nuevosDetalles := nuevosDetalles + ["Sector financiero regulado"];
    }
    ProductoAgregar(multiplicadores, PrimaSector(sector));
    EtiquetasAgregar(obligaciones, SegunSector(sector));
  }

  /** The nine checks of the regulatory factor, in order: the product of their premiums and their labels. */
  method AplicarPrimas(p: Perfil) returns (factor: real, detalles: seq<string>)
    ensures factor == ProductoPrimas(p)
    ensures detalles == DetallesCumplimiento(p)
  {
    var normativas := p.normativas;
    var sector := p.sector;
    ghost var multiplicadores: seq<real> := [];
    ghost var obligaciones: seq<Obligacion> := [];
    factor, detalles := AplicarNormativa(1.0, [], GeneraReportesOficiales, normativas, multiplicadores, obligaciones);
    multiplicadores, obligaciones := multiplicadores + [PrimaNorma(GeneraReportesOficiales, normativas)], obligaciones + SiNorma(GeneraReportesOficiales, normativas);
    factor, detalles := AplicarNormativa(factor, detalles, RequiereAuditoriaLogs, normativas, multiplicadores, obligaciones);
    multiplicadores, obligaciones := multiplicadores + [PrimaNorma(RequiereAuditoriaLogs, normativas)], obligaciones + SiNorma(RequiereAuditoriaLogs, normativas);
    factor, detalles := AplicarSector(factor, detalles, sector, multiplicadores, obligaciones);
    multiplicadores, obligaciones := multiplicadores + [PrimaSector(sector)], obligaciones + SegunSector(sector);
    factor, detalles := AplicarNormativa(factor, detalles, InteroperabilidadGovCo, normativas, multiplicadores, obligaciones);
    multiplicadores, obligaciones := multiplicadores + [PrimaNorma(InteroperabilidadGovCo, normativas)], obligaciones + SiNorma(InteroperabilidadGovCo, normativas);
    factor, detalles := AplicarNormativa(factor, detalles, ManejaDatosPersonales, normativas, multiplicadores, obligaciones);
    multiplicadores, obligaciones := multiplicadores + [PrimaNorma(ManejaDatosPersonales, normativas)], obligaciones + SiNorma(ManejaDatosPersonales, normativas);
    factor, detalles := AplicarNormativa(factor, detalles, Decreto648, normativas, multiplicadores, obligaciones);
    multiplicadores, obligaciones := multiplicadores + [PrimaNorma(Decreto648, normativas)], obligaciones + SiNorma(Decreto648, normativas);
    factor, detalles := AplicarNormativa(factor, detalles, Iso27001, normativas, multiplicadores, obligaciones);
    multiplicadores, obligaciones := multiplicadores + [PrimaNorma(Iso27001, normativas)], obligaciones + SiNorma(Iso27001, normativas);
    factor, detalles := AplicarNormativa(factor, detalles, Sarlaft, normativas, multiplicadores, obligaciones);
    multiplicadores, obligaciones := multiplicadores + [PrimaNorma(Sarlaft, normativas)], obligaciones + SiNorma(Sarlaft, normativas);
    factor, detalles := AplicarNormativa(factor, detalles, Contraloria, normativas, multiplicadores, obligaciones);
    multiplicadores, obligaciones := multiplicadores + [PrimaNorma(Contraloria, normativas)], obligaciones + SiNorma(Contraloria, normativas);
    assert [] + SiNorma(GeneraReportesOficiales, normativas) == SiNorma(GeneraReportesOficiales, normativas);
    ProductoLista9(PrimaNorma(GeneraReportesOficiales, normativas), PrimaNorma(RequiereAuditoriaLogs, normativas), PrimaSector(sector),
      PrimaNorma(InteroperabilidadGovCo, normativas), PrimaNorma(ManejaDatosPersonales, normativas),
      PrimaNorma(Decreto648, normativas), PrimaNorma(Iso27001, normativas), PrimaNorma(Sarlaft, normativas),
      PrimaNorma(Contraloria, normativas));
  }

  /**
   * The multiplier, calibration and legacy steps of `_estimar_horas` on the
   * additive hours: the technology, concurrency, data-volume and architecture
   * multipliers in turn, then the 70/30 blend with the reported months, then
   * the legacy surcharge.
   */
  method AjustarEstimacion(horas: int, factorTecnologia: real, usuariosConcurrentes: int, factorDatos: real,
    factorArquitectura: real, tiempoDesarrollo: real, enUso: bool, antiguedad: real)
    returns (estimacion: real)
    ensures estimacion == HorasEstimadas(horas,
      Producto4(factorTecnologia, FactorConcurrenciaHoras(usuariosConcurrentes), factorDatos, factorArquitectura),
      tiempoDesarrollo, enUso, antiguedad)
  {
    estimacion := horas as real * factorTecnologia;
    ghost var conTecnologia := estimacion;
    var factorConcurrencia := 1.0;
    if usuariosConcurrentes > 20 {
      factorConcurrencia := 1.15;
    } else if usuariosConcurrentes > 5 {
      factorConcurrencia := 1.08;
    }
    estimacion := estimacion * factorConcurrencia;
    ghost var conConcurrencia := estimacion;
    estimacion := estimacion * factorDatos;
    ghost var conDatos := estimacion;
    estimacion := estimacion * factorArquitectura;
    Escalar4(horas as real, factorTecnologia, factorConcurrencia, factorDatos, factorArquitectura,
      conTecnologia, conConcurrencia, conDatos, estimacion);

    if tiempoDesarrollo > 0.0 {
      var horasReales := tiempoDesarrollo * 160.0;
      estimacion := estimacion * 0.7 + horasReales * 0.3;
    }

    if enUso && antiguedad > 8.0 {
      estimacion := estimacion * 1.15;
    } else if enUso && antiguedad > 15.0 {
      estimacion := estimacion * 1.25;
    }
  }

  /** The arithmetic of `calcular_valor` once every factor is known: the base and adjusted values, the band, the record. */
  method Combinar(horasEstimadas: int, costoHora: real, factorCalidad: real, factorComplejidad: real, factorNegocio: real,
    factorColombia: real, factorAjusteValoracion: real, margenError: real, factorConfianza: real)
    returns (v: Valoracion)
    ensures v == ArmarValoracion(Desglose(horasEstimadas, costoHora, ValorBase(horasEstimadas, costoHora), factorCalidad,
      factorComplejidad, factorNegocio, factorColombia, factorAjusteValoracion, margenError), factorConfianza)
  {
    var valorBase := horasEstimadas as real * costoHora;
    var valorAjustado := valorBase * factorCalidad * factorComplejidad * factorNegocio * factorColombia * factorAjusteValoracion;
    var valorMinimo, valorMaximo, valorPromedio := RedondearBanda(valorAjustado, margenError);
    var desglose := Desglose(horasEstimadas, costoHora, valorBase, factorCalidad, factorComplejidad,
      factorNegocio, factorColombia, factorAjusteValoracion, margenError);
    assert valorAjustado == ValorAjustado(desglose);
    v := Valoracion(valorMinimo, valorMaximo, valorPromedio, factorConfianza, desglose, Metodologia);
  }

  /** The band of `calcular_valor`: the adjusted value scaled down and up by the margin, each rounded. */
  method RedondearBanda(valorAjustado: real, margenError: real) returns (minimo: int, maximo: int, promedio: int)
    ensures (minimo, maximo, promedio) == Banda(valorAjustado, margenError)
  {
    var valorMinimo := valorAjustado * (1.0 - margenError);
    var valorMaximo := valorAjustado * (1.0 + margenError);
    minimo, maximo, promedio := RoundHalfEven(valorMinimo), RoundHalfEven(valorMaximo), RoundHalfEven(valorAjustado);
  }

  /** The last steps of the regulatory factor, once the premiums and the labels are known. */
  lemma ColombiaPorEtapas(p: Perfil, producto: real, detalles: seq<string>)
    requires producto == ProductoPrimas(p) && detalles == DetallesCumplimiento(p)
    ensures FactorColombia(p) == Min(producto * BonoCumplimientos(|detalles|) * 1.05, 2.2)
  {
  }

  // ---------------------------------------------------------------------------
  // Properties of the composition
  // ---------------------------------------------------------------------------

  /** The one failure: a questionnaire fails exactly when it has no technology tag, and then with the lower-casing message. */
  lemma ValorarFallaSiiSinTecnologia(p: Perfil)
    ensures Valorar(p).Err? <==> p.tecnologia.None?
    ensures Valorar(p).Err? ==> Valorar(p).error == ErrorTecnologiaNula
  {
  }

  /** A breakdown whose parts lie within the ranges the factor computations guarantee. */
  predicate DesgloseEnRango(d: Desglose)
  {
    && d.horasEstimadas >= 34
    && 12000.0 <= d.costoHora <= 171000.0
    && d.valorBase == ValorBase(d.horasEstimadas, d.costoHora)
    && 0.3 <= d.factorCalidad <= 1.5
    && 1.0 <= d.factorComplejidad <= 2.8
    && 0.7125 <= d.factorNegocio <= 3.5
    && 1.05 <= d.factorColombia <= 2.2
    && 0.4 <= d.factorAjusteValoracion <= 1.518
    && 0.12 <= d.margenIncertidumbre <= 0.45
  }

  /** Every breakdown `calcular_valor` produces lies within those ranges. */
  lemma DesgloseDeEnRango(p: Perfil)
    requires p.tecnologia.Some?
    ensures DesgloseEnRango(DesgloseDe(p))
  {
    HorasFinalesPositivas(p);
    FactorCalidadAcotado(p.iso25010);
    FactorComplejidadAcotado(p);
    FactorNegocioAcotado(p);
    FactorColombiaAcotado(p);
    FactorValoracionAcotado(p);
    MargenAcotado(p);
  }

  /** The adjusted value of a breakdown in range is at least 34 × 12000 × 0.3 × 1 × 0.7125 × 1.05 × 0.4 = 36628.2. */
  lemma ValorAjustadoAlMenos(d: Desglose)
    requires DesgloseEnRango(d)
    ensures ValorAjustado(d) >= 36628.2
  {
    MulGe(d.horasEstimadas as real, 34.0, d.costoHora, 12000.0);
    MulGe(d.valorBase, 408000.0, d.factorCalidad, 0.3);
    MulGe(d.valorBase * d.factorCalidad, 122400.0, d.factorComplejidad, 1.0);
    MulGe(d.valorBase * d.factorCalidad * d.factorComplejidad, 122400.0, d.factorNegocio, 0.7125);
    MulGe(d.valorBase * d.factorCalidad * d.factorComplejidad * d.factorNegocio, 87210.0, d.factorColombia, 1.05);
    MulGe(d.valorBase * d.factorCalidad * d.factorComplejidad * d.factorNegocio * d.factorColombia, 91570.5,
      d.factorAjusteValoracion, 0.4);
  }

  /** Around a non-negative value with a non-negative margin, the rounded band is ordered: lower end, value, upper end. */
  lemma BandaOrdenada(valor: real, margen: real)
    requires valor >= 0.0 && margen >= 0.0
    ensures Banda(valor, margen).0 <= Banda(valor, margen).2 <= Banda(valor, margen).1
  {
    MulLe(1.0 - margen, 1.0, valor);
    MulLe(1.0, 1.0 + margen, valor);
    RoundMonotone(valor * (1.0 - margen), valor);
    RoundMonotone(valor, valor * (1.0 + margen));
  }

  /** The band is twice the margin times the value wide, up to the two roundings of its ends. */
  lemma BandaAncho(valor: real, margen: real)
    ensures 2.0 * margen * valor - 1.0 <= (Banda(valor, margen).1 - Banda(valor, margen).0) as real <= 2.0 * margen * valor + 1.0
  {
    assert valor * (1.0 + margen) - valor * (1.0 - margen) == 2.0 * margen * valor;
  }

  /** The band around a value of at least 36628.2 with a margin of at most 0.45 starts at 20146 or more. */
  lemma BandaAlMenos(valor: real, margen: real)
    requires valor >= 36628.2 && 0.0 <= margen <= 0.45
    ensures 20146 <= Banda(valor, margen).0
  {
    var minimo := valor * (1.0 - margen);
    MulGe(valor, 36628.2, 1.0 - margen, 0.55);
    RoundAtLeast(minimo, 20146);
  }

  /** The valuation record of a breakdown in range is a positive, ordered band. */
  lemma ArmarValoracionAcotada(d: Desglose, confianza: real)
    requires DesgloseEnRango(d)
    ensures var v := ArmarValoracion(d, confianza);
      && 20146 <= v.valorMinimo <= v.valorPromedio <= v.valorMaximo
  {
    ValorAjustadoAlMenos(d);
    BandaOrdenada(ValorAjustado(d), d.margenIncertidumbre);
    BandaAlMenos(ValorAjustado(d), d.margenIncertidumbre);
  }

  /**
   * Every valuation is a positive, ordered band: the lower end is at least
   * 36628.2 × 0.55 rounded (20146 COP), below the average, which is below the
   * upper end; the margin lies in [0.12, 0.45] and the confidence in [0.2, 1].
   */
  lemma ValoracionAcotada(p: Perfil)
    requires p.tecnologia.Some?
    ensures Valorar(p).Ok?
    ensures var v := Valorar(p).value;
      && 20146 <= v.valorMinimo <= v.valorPromedio <= v.valorMaximo
      && 0.12 <= v.desglose.margenIncertidumbre <= 0.45
      && 0.2 <= v.factorConfianza <= 1.0
  {
    DesgloseDeEnRango(p);
    ConfianzaAcotada(p);
    ArmarValoracionAcotada(DesgloseDe(p), Confianza.Confianza(p));
  }

  /** A larger regulatory factor, everything else equal, never lowers the rounded average. */
  lemma ArmarMonotonoEnColombia(d: Desglose, colombia: real, c1: real, c2: real)
    requires DesgloseEnRango(d) && d.factorColombia <= colombia
    ensures ArmarValoracion(d, c1).valorPromedio <= ArmarValoracion(d.(factorColombia := colombia), c2).valorPromedio
  {
    var e := d.(factorColombia := colombia);
    var parcial := d.valorBase * d.factorCalidad * d.factorComplejidad * d.factorNegocio;
    MulGe(d.horasEstimadas as real, 0.0, d.costoHora, 0.0);
    MulGe(d.valorBase, 0.0, d.factorCalidad, 0.0);
    MulGe(d.valorBase * d.factorCalidad, 0.0, d.factorComplejidad, 0.0);
    MulGe(d.valorBase * d.factorCalidad * d.factorComplejidad, 0.0, d.factorNegocio, 0.0);
    MulLe(d.factorColombia, colombia, parcial);
    MulLe(parcial * d.factorColombia, parcial * colombia, d.factorAjusteValoracion);
    RoundMonotone(ValorAjustado(d), ValorAjustado(e));
  }

  /** The regulatory flags are read only by the regulatory factor. */
  lemma DesgloseSegunNormativas(p: Perfil, normativas: set<Normativa>)
    requires p.tecnologia.Some?
    ensures DesgloseDe(p.(normativas := normativas)) == DesgloseDe(p).(factorColombia := FactorColombia(p.(normativas := normativas)))
  {
    var q := p.(normativas := normativas);
    assert HorasFinales(q) == HorasFinales(p) by {
      assert HorasSinRedondear(q) == HorasSinRedondear(p);
    }
    assert FactorComplejidad(q) == FactorComplejidad(p);
    assert FactorNegocio(q) == FactorNegocio(p);
    assert FactorValoracion(q) == FactorValoracion(p);
    assert Margen(q) == Margen(p);
  }

  /**
   * Setting more regulatory flags never lowers the average value: only the
   * regulatory factor reads the flags, and it never decreases.
   */
  lemma ValorPromedioMonotonoEnNormativas(p: Perfil, normativas: set<Normativa>)
    requires p.tecnologia.Some? && p.normativas <= normativas
    ensures Valorar(p).value.valorPromedio <= Valorar(p.(normativas := normativas)).value.valorPromedio
  {
    var q := p.(normativas := normativas);
    DesgloseDeEnRango(p);
    FactorColombiaMonotono(p, q);
    DesgloseSegunNormativas(p, normativas);
    ArmarMonotonoEnColombia(DesgloseDe(p), FactorColombia(q), Confianza.Confianza(p), Confianza.Confianza(q));
  }

  class MotorValoracion {
    /** The breakdown the last effort estimate recorded. */
    var detallesCalculoHoras: Option<DetalleHoras>
    /** The compliance labels the last regulatory factor recorded. */
    var detallesCumplimiento: Option<seq<string>>

    constructor ()
      ensures detallesCalculoHoras == None && detallesCumplimiento == None
    {
      detallesCalculoHoras := None;
      detallesCumplimiento := None;
    }

    /** `_estimar_horas`: the effort estimate, with its breakdown recorded. */
    method EstimarHoras(p: Perfil) returns (horasFinales: int)
      requires p.tecnologia.Some?
      modifies this`detallesCalculoHoras
      ensures horasFinales == HorasFinales(p)
      ensures detallesCalculoHoras == Some(DetalleHorasDe(p))
    {
      var horasBase := HorasBase(p.tipoSoftware);
      var horas, ajustes := AjustarPorFuncionalidades(horasBase, p.funcionalidades);

      var tecnologia := p.tecnologia.value;
      var factorTecnologia := CalcularFactorTecnologia(tecnologia);
      var factorDatos := FactorVolumen(p.volumenDatos);
      var factorArquitectura := FactorArquitectura(p.arquitectura);
      var antiguedad := p.antiguedadAnos;
      var enUso := p.enUsoActivo == JStr("true");
      var estimacion := AjustarEstimacion(horas, factorTecnologia, p.usuariosConcurrentes, factorDatos, factorArquitectura,
        p.tiempoDesarrolloMeses, enUso, antiguedad);
      HorasPorEtapas(p, horas, Producto4(factorTecnologia, FactorConcurrenciaHoras(p.usuariosConcurrentes), factorDatos, factorArquitectura));

      horasFinales := RoundHalfEven(estimacion);
      detallesCalculoHoras := Some(DetalleHoras(horasBase, ajustes, factorTecnologia, factorDatos, factorArquitectura,
        FactorLegacyRegistrado(enUso, antiguedad), horasFinales));
    }

    /** `_calcular_factor_colombia`: the regulatory factor, with the compliance labels recorded. */
    method CalcularFactorColombia(p: Perfil) returns (r: real)
      modifies this`detallesCumplimiento
      ensures r == FactorColombia(p)
      ensures detallesCumplimiento == Some(DetallesCumplimiento(p))
      ensures 1.05 <= r <= 2.2
    {
      var factor, detalles := AplicarPrimas(p);
      ghost var producto := factor;

      var numCumplimientos := |detalles|;
      if numCumplimientos >= 5 {
        factor := factor * 1.08;
      } else if numCumplimientos >= 3 {
        factor := factor * 1.05;
      }
      factor := factor * 1.05;

      detallesCumplimiento := Some(detalles);
      ColombiaPorEtapas(p, producto, detalles);
      FactorColombiaAcotado(p);
      r := Min(factor, 2.2);
    }

    /**
     * `calcular_valor`: every factor, the adjusted value and its band.  A
     * null technology tag fails inside the effort estimate before anything
     * is recorded.
     */
    method CalcularValor(p: Perfil) returns (r: Result<Valoracion, string>)
      modifies this`detallesCalculoHoras, this`detallesCumplimiento
      ensures r == Valorar(p)
      ensures p.tecnologia.Some? ==>
        detallesCalculoHoras == Some(DetalleHorasDe(p)) && detallesCumplimiento == Some(DetallesCumplimiento(p))
      ensures p.tecnologia.None? ==>
        detallesCalculoHoras == old(detallesCalculoHoras) && detallesCumplimiento == old(detallesCumplimiento)
    {
      if p.tecnologia.None? {
        return Err(ErrorTecnologiaNula);
      }
      var horasEstimadas := EstimarHoras(p);
      var costoHora := CostoHora(p.tecnologia.value);
      var factorCalidad := CalcularFactorCalidad(p.iso25010);
      var factorComplejidad := CalcularFactorComplejidad(p);
      var factorNegocio := CalcularFactorNegocio(p);
      var factorColombia := CalcularFactorColombia(p);
      var factorAjusteValoracion := CalcularFactorValoracion(p);
      var margenError := CalcularMargenIncertidumbre(p);
      var factorConfianza := CalcularConfianza(p);
      var valoracion := Combinar(horasEstimadas, costoHora, factorCalidad, factorComplejidad, factorNegocio,
        factorColombia, factorAjusteValoracion, margenError, factorConfianza);
      DesglosePorPartes(p, horasEstimadas, costoHora, factorCalidad, factorComplejidad, factorNegocio,
        factorColombia, factorAjusteValoracion, margenError);
      r := Ok(valoracion);
    }
  }
}
