/**
 * Specification of the effort estimator (`_estimar_horas`): base hours by
 * software category, an hour increment per implemented feature, the
 * technology / concurrency / data-volume / architecture multipliers, the
 * 70/30 blend with the reported development time and the legacy surcharge.
 * The step-by-step method itself is `Motor.MotorValoracion.EstimarHoras`.
 */
module Horas {
  import opened Wrappers
  import opened Texto
  import opened Redondeo
  import opened Tablas
  import opened Perfil
  import opened Reales

  /** Base hours by software category. */
  const TablaHorasBase: map<string, int> := map[
    "sistema_auditoria" := 140,
    "aplicativo_gestion" := 100,
    "sistema_reportes" := 80,
    "erp_basico" := 160,
    "crm_sistema" := 120,
    "aplicativo_inventarios" := 90,
    "gestion_documental" := 110,
    "sistema_contable" := 130,
    "otro" := 100
  ]

  /** Base hours; a null or unknown category gets the general average of 100. */
  function HorasBase(tipo: Option<string>): (r: int)
    ensures 80 <= r <= 160
    ensures tipo.None? || tipo.value !in TablaHorasBase ==> r == 100
  {
    if tipo.Some? then LookupOr(TablaHorasBase, tipo.value, 100) else 100
  }

  /** Hours a feature adds to the estimate. */
  function HorasFuncionalidad(f: Funcionalidad): nat
  {
    match f
    case AutenticacionAvanzada => 35
    case ReportesComplejos => 45
    case IntegracionExterna => 60
    case WorkflowAprobaciones => 70
    case DashboardEjecutivo => 40
    case ApiRest => 55
    case Notificaciones => 25
    case BackupAutomatico => 20
    case AuditoriaLogs => 30
  }

  /** The line the estimator logs in `ajustes_funcionalidades` for a feature. */
  function EtiquetaFuncionalidad(f: Funcionalidad): string
  {
    match f
    case AutenticacionAvanzada => "Autenticación avanzada: +35h"
    case ReportesComplejos => "Reportes complejos: +45h"
    case IntegracionExterna => "Integración externa: +60h"
    case WorkflowAprobaciones => "Workflows: +70h"
    case DashboardEjecutivo => "Dashboard ejecutivo: +40h"
    case ApiRest => "APIs REST: +55h"
    case Notificaciones => "Notificaciones: +25h"
    case BackupAutomatico => "Backup automático: +20h"
    case AuditoriaLogs => "Logs auditoría: +30h"
  }

  /** The order in which the estimator tests the features. */
  const OrdenFuncionalidades: seq<Funcionalidad> := [
    AutenticacionAvanzada, ReportesComplejos, IntegracionExterna,
    WorkflowAprobaciones, DashboardEjecutivo, ApiRest,
    Notificaciones, BackupAutomatico, AuditoriaLogs
  ]

  /** The elements of `orden` that are set in `fs`, in the order of `orden`. */
  function Activas(orden: seq<Funcionalidad>, fs: set<Funcionalidad>): (r: seq<Funcionalidad>)
    ensures forall f :: f in r <==> f in orden && f in fs
    ensures |r| <= |orden|
  {
    if orden == [] then []
    else
      var ultima := orden[|orden| - 1];
      var previas := Activas(orden[..|orden| - 1], fs);
      assert forall f :: f in orden <==> f in orden[..|orden| - 1] || f == ultima;
      if ultima in fs then previas + [ultima] else previas
  }

  /** Total hours added by a sequence of features. */
  function SumaHoras(s: seq<Funcionalidad>): (r: nat)
    ensures s == [] ==> r == 0
  {
    if s == [] then 0 else SumaHoras(s[..|s| - 1]) + HorasFuncionalidad(s[|s| - 1])
  }

  /** The log lines of a sequence of features. */
  function Etiquetas(s: seq<Funcionalidad>): (r: seq<string>)
    ensures |r| == |s|
  {
    if s == [] then [] else Etiquetas(s[..|s| - 1]) + [EtiquetaFuncionalidad(s[|s| - 1])]
  }

  /** Technology multiplier for the effort: the configured factor, or 1.0 for an
      unknown technology, replaced by 0.85 whenever the lower-cased tag contains "access". */
  function FactorTecnologiaHoras(tec: string): (r: real)
    ensures 0.6 <= r <= 1.9
  {
    if Contains(Lower(tec), "access") then 0.85
    else if tec in FactoresTecnologia then
      FactoresTecnologiaAcotados(tec);
      FactoresTecnologia[tec].factor
    else 1.0
  }

  /** Concurrency multiplier for the effort: flat up to 5 users, then two tiers. */
  function FactorConcurrenciaHoras(u: int): (r: real)
    ensures 1.0 <= r <= 1.15
    ensures u <= 5 ==> r == 1.0
  {
    if u > 20 then 1.15 else if u > 5 then 1.08 else 1.0
  }

  /** 70/30 blend of the model estimate with the reported months at 160 hours a month. */
  function Calibrar(h: real, meses: real): real
  {
    if meses > 0.0 then h * 0.7 + (meses * 160.0) * 0.3 else h
  }

  /** The legacy surcharge as the source writes it: the `> 15` branch comes after `> 8`. */
  function RecargoLegacy(enUso: bool, antiguedad: real): real
  {
    if enUso && antiguedad > 8.0 then 1.15
    else if enUso && antiguedad > 15.0 then 1.25
    else 1.0
  }

  /** The `factor_legacy` the estimator records in its details. */
  function FactorLegacyRegistrado(enUso: bool, antiguedad: real): real
  {
    if enUso && antiguedad > 8.0 then 1.15 else 1.0
  }

  /** Hours after the feature increments, before any multiplier. */
  function HorasAditivas(tipo: Option<string>, fs: set<Funcionalidad>): int
  {
    HorasBase(tipo) + SumaHoras(Activas(OrdenFuncionalidades, fs))
  }

  /** Product of the technology, concurrency, data-volume and architecture multipliers. */
  function MultiplicadorHoras(tec: string, usuarios: int, volumen: string, arquitectura: string): real
  {
    Producto4(FactorTecnologiaHoras(tec), FactorConcurrenciaHoras(usuarios), FactorVolumen(volumen), FactorArquitectura(arquitectura))
  }

  /** The estimate before rounding, from its stages: additive hours, the
      multipliers, the blend with the reported months, the legacy surcharge. */
  function HorasEstimadas(aditivas: int, multiplicador: real, meses: real, enUso: bool, antiguedad: real): real
  {
    Calibrar(aditivas as real * multiplicador, meses) * RecargoLegacy(enUso, antiguedad)
  }

  /** The estimate of a questionnaire before rounding. */
  function HorasSinRedondear(p: Perfil): real
    requires p.tecnologia.Some?
  {
    HorasEstimadas(
      HorasAditivas(p.tipoSoftware, p.funcionalidades),
      MultiplicadorHoras(p.tecnologia.value, p.usuariosConcurrentes, p.volumenDatos, p.arquitectura),
      p.tiempoDesarrolloMeses,
      EnUsoActivo(p),
      p.antiguedadAnos)
  }

  /** `horas_finales`: the estimate rounded to whole hours. */
  function HorasFinales(p: Perfil): int
    requires p.tecnologia.Some?
  {
    RoundHalfEven(HorasSinRedondear(p))
  }

  /** `detalles_calculo_horas`: the breakdown the estimator stores for the report. */
  datatype DetalleHoras = DetalleHoras(
    horasBase: int,
    ajustesFuncionalidades: seq<string>,
    factorTecnologia: real,
    factorDatos: real,
    factorArquitectura: real,
    factorLegacy: real,
    horasFinales: int)

  function DetalleHorasDe(p: Perfil): DetalleHoras
    requires p.tecnologia.Some?
  {
    DetalleHoras(
      HorasBase(p.tipoSoftware),
      Etiquetas(Activas(OrdenFuncionalidades, p.funcionalidades)),
      FactorTecnologiaHoras(p.tecnologia.value),
      FactorVolumen(p.volumenDatos),
      FactorArquitectura(p.arquitectura),
      FactorLegacyRegistrado(EnUsoActivo(p), p.antiguedadAnos),
      HorasFinales(p))
  }

  // ---------------------------------------------------------------------------
  // Feature increments
  // ---------------------------------------------------------------------------

  /** No feature appears twice in a sequence. */
  ghost predicate SinRepetidos(s: seq<Funcionalidad>)
  {
    forall i, j :: 0 <= i < j < |s| ==> s[i] != s[j]
  }

  /** The feature `f` alone when it is set, nothing otherwise. */
  function SiActiva(f: Funcionalidad, fs: set<Funcionalidad>): (r: seq<Funcionalidad>)
    ensures |r| <= 1
  {
    if f in fs then [f] else []
  }

  /** Filtering a sequence with one more element at its end filters that element on its own. */
  lemma AgregarActiva(previas: seq<Funcionalidad>, f: Funcionalidad, fs: set<Funcionalidad>)
    ensures Activas(previas + [f], fs) == Activas(previas, fs) + SiActiva(f, fs)
  {
    assert (previas + [f])[..|previas|] == previas;
  }

  /** The fixed order, one feature at a time. */
  lemma OrdenPorPartes()
    ensures OrdenFuncionalidades == [AutenticacionAvanzada] + [ReportesComplejos] + [IntegracionExterna]
      + [WorkflowAprobaciones] + [DashboardEjecutivo] + [ApiRest] + [Notificaciones] + [BackupAutomatico] + [AuditoriaLogs]
  {
  }

  /** The set features in the estimator's order are its nine tests, one after the other. */
  lemma ActivasPorFuncionalidad(fs: set<Funcionalidad>)
    ensures Activas(OrdenFuncionalidades, fs) ==
      SiActiva(AutenticacionAvanzada, fs) + SiActiva(ReportesComplejos, fs) + SiActiva(IntegracionExterna, fs)
      + SiActiva(WorkflowAprobaciones, fs) + SiActiva(DashboardEjecutivo, fs) + SiActiva(ApiRest, fs)
      + SiActiva(Notificaciones, fs) + SiActiva(BackupAutomatico, fs) + SiActiva(AuditoriaLogs, fs)
  {
    var o1 := [AutenticacionAvanzada];
    assert o1 == [] + [AutenticacionAvanzada];
    AgregarActiva([], AutenticacionAvanzada, fs);
    var o2 := o1 + [ReportesComplejos];
    AgregarActiva(o1, ReportesComplejos, fs);
    var o3 := o2 + [IntegracionExterna];
    AgregarActiva(o2, IntegracionExterna, fs);
    var o4 := o3 + [WorkflowAprobaciones];
    AgregarActiva(o3, WorkflowAprobaciones, fs);
    var o5 := o4 + [DashboardEjecutivo];
    AgregarActiva(o4, DashboardEjecutivo, fs);
    var o6 := o5 + [ApiRest];
    AgregarActiva(o5, ApiRest, fs);
    var o7 := o6 + [Notificaciones];
    AgregarActiva(o6, Notificaciones, fs);
    var o8 := o7 + [BackupAutomatico];
    AgregarActiva(o7, BackupAutomatico, fs);
    AgregarActiva(o8, AuditoriaLogs, fs);
    OrdenPorPartes();
  }

  /** Testing one more feature adds its hours and its log line exactly when it is set. */
  lemma SumarActiva(activas: seq<Funcionalidad>, f: Funcionalidad, fs: set<Funcionalidad>)
    ensures SumaHoras(activas + SiActiva(f, fs)) == SumaHoras(activas) + (if f in fs then HorasFuncionalidad(f) else 0)
    ensures Etiquetas(activas + SiActiva(f, fs)) == Etiquetas(activas) + (if f in fs then [EtiquetaFuncionalidad(f)] else [])
  {
    if f in fs {
      assert (activas + [f])[..|activas|] == activas;
    } else {
      assert activas + [] == activas;
    }
  }

  /** The estimate before rounding, stage by stage, once the additive hours and the multiplier are known. */
  lemma HorasPorEtapas(p: Perfil, aditivas: int, multiplicador: real)
    requires p.tecnologia.Some?
    requires aditivas == HorasAditivas(p.tipoSoftware, p.funcionalidades)
    requires multiplicador == MultiplicadorHoras(p.tecnologia.value, p.usuariosConcurrentes, p.volumenDatos, p.arquitectura)
    ensures HorasSinRedondear(p) == HorasEstimadas(aditivas, multiplicador, p.tiempoDesarrolloMeses, EnUsoActivo(p), p.antiguedadAnos)
  {
  }

  /** Setting one more feature adds exactly that feature's hours, whatever else is set. */
  lemma {:induction false} SumaHorasAgregar(orden: seq<Funcionalidad>, fs: set<Funcionalidad>, f: Funcionalidad)
    requires SinRepetidos(orden) && f in orden && f !in fs
    ensures SumaHoras(Activas(orden, fs + {f})) == SumaHoras(Activas(orden, fs)) + HorasFuncionalidad(f)
  {
    var n := |orden|;
    var previas := orden[..n - 1];
    var ultima := orden[n - 1];
    assert SinRepetidos(previas);
    var a, b := Activas(previas, fs), Activas(previas, fs + {f});
    if ultima == f {
      assert f !in previas;
      assert Activas(previas, fs + {f}) == Activas(previas, fs) by {
        ActivasSoloDependeDeOrden(previas, fs, fs + {f});
      }
      assert Activas(orden, fs + {f}) == b + [f];
      assert (b + [f])[..|b|] == b;
      assert Activas(orden, fs) == a;
    } else {
      assert f in previas;
      SumaHorasAgregar(previas, fs, f);
      if ultima in fs {
        assert Activas(orden, fs + {f}) == b + [ultima];
        assert (b + [ultima])[..|b|] == b;
        assert Activas(orden, fs) == a + [ultima];
        assert (a + [ultima])[..|a|] == a;
      } else {
        assert Activas(orden, fs + {f}) == b;
        assert Activas(orden, fs) == a;
      }
    }
  }

  /** Two feature sets that agree on the elements of `orden` select the same features. */
  lemma {:induction false} ActivasSoloDependeDeOrden(orden: seq<Funcionalidad>, fs: set<Funcionalidad>, gs: set<Funcionalidad>)
    requires forall f :: f in orden ==> (f in fs <==> f in gs)
    ensures Activas(orden, fs) == Activas(orden, gs)
  {
    if orden != [] {
      ActivasSoloDependeDeOrden(orden[..|orden| - 1], fs, gs);
    }
  }

  /** The estimator's order lists each of the nine features exactly once. */
  lemma OrdenFuncionalidadesCompleto()
    ensures SinRepetidos(OrdenFuncionalidades)
    ensures forall f :: f in OrdenFuncionalidades
  {
    forall f ensures f in OrdenFuncionalidades {
      match f
      case AutenticacionAvanzada => assert OrdenFuncionalidades[0] == f;
      case ReportesComplejos => assert OrdenFuncionalidades[1] == f;
      case IntegracionExterna => assert OrdenFuncionalidades[2] == f;
      case WorkflowAprobaciones => assert OrdenFuncionalidades[3] == f;
      case DashboardEjecutivo => assert OrdenFuncionalidades[4] == f;
      case ApiRest => assert OrdenFuncionalidades[5] == f;
      case Notificaciones => assert OrdenFuncionalidades[6] == f;
      case BackupAutomatico => assert OrdenFuncionalidades[7] == f;
      case AuditoriaLogs => assert OrdenFuncionalidades[8] == f;
    }
  }

  /** The technology multiplier of the effort, case by case: "access" in the
      lower-cased tag overrides the configured factor with 0.85. */
  lemma FactorTecnologiaHorasCasos(tec: string)
    ensures Contains(Lower(tec), "access") ==> FactorTecnologiaHoras(tec) == 0.85
    ensures !Contains(Lower(tec), "access") && tec in FactoresTecnologia ==> FactorTecnologiaHoras(tec) == FactoresTecnologia[tec].factor
    ensures !Contains(Lower(tec), "access") && tec !in FactoresTecnologia ==> FactorTecnologiaHoras(tec) == 1.0
  {
  }

  /** The log lines, position by position. */
  lemma {:induction false} EtiquetasEn(s: seq<Funcionalidad>, i: int)
    requires 0 <= i < |s|
    ensures Etiquetas(s)[i] == EtiquetaFuncionalidad(s[i])
  {
    if i < |s| - 1 {
      EtiquetasEn(s[..|s| - 1], i);
    }
  }

  /** Different features log different lines. */
  lemma EtiquetasFuncionalidadDistintas(f: Funcionalidad, g: Funcionalidad)
    requires f != g
    ensures EtiquetaFuncionalidad(f) != EtiquetaFuncionalidad(g)
  {
  }

  /** The log holds the line of a feature exactly when that feature is set. */
  lemma EtiquetaRegistradaSiiActiva(fs: set<Funcionalidad>, f: Funcionalidad)
    ensures EtiquetaFuncionalidad(f) in Etiquetas(Activas(OrdenFuncionalidades, fs)) <==> f in fs
  {
    var s := Activas(OrdenFuncionalidades, fs);
    OrdenFuncionalidadesCompleto();
    if f in fs {
      var i :| 0 <= i < |s| && s[i] == f;
      EtiquetasEn(s, i);
      assert Etiquetas(s)[i] == EtiquetaFuncionalidad(f);
    }
    if EtiquetaFuncionalidad(f) in Etiquetas(s) {
      var i :| 0 <= i < |s| && Etiquetas(s)[i] == EtiquetaFuncionalidad(f);
      EtiquetasEn(s, i);
      if s[i] != f {
        EtiquetasFuncionalidadDistintas(s[i], f);
      }
    }
  }

  // ---------------------------------------------------------------------------
  // Blend and legacy surcharge
  // ---------------------------------------------------------------------------

  /** With a reported duration the result lies between the model estimate and
      the reported hours; without one the estimate is unchanged. */
  lemma CalibrarEntreAmbos(h: real, meses: real)
    ensures meses <= 0.0 ==> Calibrar(h, meses) == h
    ensures meses > 0.0 && h <= meses * 160.0 ==> h <= Calibrar(h, meses) <= meses * 160.0
    ensures meses > 0.0 && meses * 160.0 <= h ==> meses * 160.0 <= Calibrar(h, meses) <= h
  {
  }

  /** The `> 15` branch is unreachable: the surcharge is 1.15 exactly when the
      system is in active use and older than 8 years, 1.0 otherwise, never 1.25,
      and it always equals the `factor_legacy` recorded in the details. */
  lemma RecargoLegacySoloUnoQuince(enUso: bool, antiguedad: real)
    ensures RecargoLegacy(enUso, antiguedad) == FactorLegacyRegistrado(enUso, antiguedad)
    ensures RecargoLegacy(enUso, antiguedad) == 1.15 <==> enUso && antiguedad > 8.0
    ensures RecargoLegacy(enUso, antiguedad) != 1.25
  {
  }

  /** An inactive system's age never changes its estimate. */
  lemma InactivoSinRecargo(p: Perfil, antiguedad: real)
    requires p.tecnologia.Some? && !EnUsoActivo(p)
    ensures HorasSinRedondear(p.(antiguedadAnos := antiguedad)) == HorasSinRedondear(p)
    ensures HorasFinales(p.(antiguedadAnos := antiguedad)) == HorasFinales(p)
  {
  }

  /** An active system older than 8 years costs exactly 15% more hours than
      the same system with age 0. */
  lemma ActivoAntiguoRecargo(p: Perfil)
    requires p.tecnologia.Some? && EnUsoActivo(p) && p.antiguedadAnos > 8.0
    ensures HorasSinRedondear(p) == HorasSinRedondear(p.(antiguedadAnos := 0.0)) * 1.15
  {
  }

  // ---------------------------------------------------------------------------
  // Positivity and monotonicity
  // ---------------------------------------------------------------------------

  /**
   * A management application on an Access technology (its lower-cased tag
   * contains "access") with no features, at most five users, little data, a
   * monolithic design, no reported duration and no legacy surcharge takes
   * round(100 × 0.85) = 85 hours.
   */
  lemma EjemploAccess(p: Perfil)
    requires p.tipoSoftware == Some("aplicativo_gestion")
    requires p.tecnologia.Some? && Contains(Lower(p.tecnologia.value), "access")
    requires p.funcionalidades == {} && p.usuariosConcurrentes <= 5
    requires p.volumenDatos == "pequeno" && p.arquitectura == "monolitica"
    requires p.tiempoDesarrolloMeses <= 0.0 && (!EnUsoActivo(p) || p.antiguedadAnos <= 8.0)
    ensures HorasFinales(p) == 85
  {
    AditivasSinFuncionalidades(p.tipoSoftware);
    HorasBaseGestion();
    MultiplicadorSoloTecnologia(p.tecnologia.value, p.usuariosConcurrentes);
    FactorTecnologiaHorasCasos(p.tecnologia.value);
    assert RecargoLegacy(EnUsoActivo(p), p.antiguedadAnos) == 1.0;
    assert HorasSinRedondear(p) == 85.0;
  }

  /** With no feature set, the additive hours are the base hours of the category. */
  lemma AditivasSinFuncionalidades(tipo: Option<string>)
    ensures HorasAditivas(tipo, {}) == HorasBase(tipo)
  {
    ActivasPorFuncionalidad({});
    assert Activas(OrdenFuncionalidades, {}) == [];
  }

  /** A management application starts from 100 hours. */
  lemma HorasBaseGestion()
    ensures HorasBase(Some("aplicativo_gestion")) == 100
  {
    assert "aplicativo_gestion" in TablaHorasBase;
  }

  /** At most five users, little data and a monolithic design leave only the technology multiplier. */
  lemma MultiplicadorSoloTecnologia(tec: string, usuarios: int)
    requires usuarios <= 5
    ensures MultiplicadorHoras(tec, usuarios, "pequeno", "monolitica") == FactorTecnologiaHoras(tec)
  {
    TiersNeutros();
  }

  /** The four multipliers together are at least 0.6 (the lowest technology factor). */
  lemma MultiplicadorHorasAlMenos(tec: string, usuarios: int, volumen: string, arquitectura: string)
    ensures MultiplicadorHoras(tec, usuarios, volumen, arquitectura) >= 0.6
  {
    Producto4AlMenos(FactorTecnologiaHoras(tec), FactorConcurrenciaHoras(usuarios), FactorVolumen(volumen), FactorArquitectura(arquitectura), 0.6);
  }

  /** The hours before rounding are at least 80 × 0.6 × 0.7 = 33.6, so the
      rounded estimate is a whole number of at least 34 hours. */
  lemma HorasFinalesPositivas(p: Perfil)
    requires p.tecnologia.Some?
    ensures HorasSinRedondear(p) >= 33.6
    ensures HorasFinales(p) >= 34
  {
    var a := HorasAditivas(p.tipoSoftware, p.funcionalidades);
    var m := MultiplicadorHoras(p.tecnologia.value, p.usuariosConcurrentes, p.volumenDatos, p.arquitectura);
    MultiplicadorHorasAlMenos(p.tecnologia.value, p.usuariosConcurrentes, p.volumenDatos, p.arquitectura);
    HorasEstimadasAlMenos(a, m, p.tiempoDesarrolloMeses, EnUsoActivo(p), p.antiguedadAnos);
  }

  /** Arithmetic core of `HorasFinalesPositivas`. */
  lemma HorasEstimadasAlMenos(aditivas: int, multiplicador: real, meses: real, enUso: bool, antiguedad: real)
    requires aditivas >= 80 && multiplicador >= 0.6
    ensures HorasEstimadas(aditivas, multiplicador, meses, enUso, antiguedad) >= 33.6
  {
    MulGe(aditivas as real, 80.0, multiplicador, 0.6);
    var cal := Calibrar(aditivas as real * multiplicador, meses);
    MulGe(cal, 33.6, RecargoLegacy(enUso, antiguedad), 1.0);
  }

  /** More additive hours give a strictly larger estimate, whatever the stages after them. */
  lemma HorasEstimadasCrecientes(a1: int, a2: int, multiplicador: real, meses: real, enUso: bool, antiguedad: real)
    requires a1 < a2 && multiplicador > 0.0
    ensures HorasEstimadas(a1, multiplicador, meses, enUso, antiguedad) < HorasEstimadas(a2, multiplicador, meses, enUso, antiguedad)
  {
    MulLt(a1 as real, a2 as real, multiplicador);
    var c1, c2 := Calibrar(a1 as real * multiplicador, meses), Calibrar(a2 as real * multiplicador, meses);
    assert c1 < c2;
    MulLt(c1, c2, RecargoLegacy(enUso, antiguedad));
  }

  /** Setting one more feature strictly raises the estimate before rounding and
      never lowers the rounded one. */
  lemma HorasMonotonasEnFuncionalidades(p: Perfil, f: Funcionalidad)
    requires p.tecnologia.Some? && f !in p.funcionalidades
    ensures HorasSinRedondear(p) < HorasSinRedondear(p.(funcionalidades := p.funcionalidades + {f}))
    ensures HorasFinales(p) <= HorasFinales(p.(funcionalidades := p.funcionalidades + {f}))
  {
    var q := p.(funcionalidades := p.funcionalidades + {f});
    OrdenFuncionalidadesCompleto();
    SumaHorasAgregar(OrdenFuncionalidades, p.funcionalidades, f);
    var m := MultiplicadorHoras(p.tecnologia.value, p.usuariosConcurrentes, p.volumenDatos, p.arquitectura);
    MultiplicadorHorasAlMenos(p.tecnologia.value, p.usuariosConcurrentes, p.volumenDatos, p.arquitectura);
    HorasEstimadasCrecientes(HorasAditivas(p.tipoSoftware, p.funcionalidades), HorasAditivas(q.tipoSoftware, q.funcionalidades),
      m, p.tiempoDesarrolloMeses, EnUsoActivo(p), p.antiguedadAnos);
    RoundMonotone(HorasSinRedondear(p), HorasSinRedondear(q));
  }
}
