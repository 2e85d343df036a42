/**
 * The technical-complexity factor (`_calcular_factor_complejidad`): the
 * product of an architecture, data-volume, database, concurrency,
 * integration and advanced-feature multiplier, capped at 2.8.
 */
module Complejidad {
  import opened Tablas
  import opened Reales
  import opened Perfil

  /** Multiplier by database technology. */
  const TablaBaseDatos: map<string, real> := map[
    "local" := 1.0,
    "sql_server_express" := 1.15,
    "mysql" := 1.20,
    "postgresql" := 1.25,
    "sql_server" := 1.35,
    "oracle" := 1.50,
    "nosql" := 1.30
  ]

  /** Database multiplier, 1.0 for an unknown database. */
  function FactorBaseDatos(bd: string): (r: real)
    ensures 1.0 <= r <= 1.5
    ensures bd !in TablaBaseDatos ==> r == 1.0
  {
    LookupOr(TablaBaseDatos, bd, 1.0)
  }

  /** Concurrency tier: none up to 5 users, then more than 5, at least 10, 20, 50 and 200. */
  function FactorConcurrencia(u: int): (r: real)
    ensures 1.0 <= r <= 1.5
    ensures u <= 5 ==> r == 1.0
  {
    if u >= 200 then 1.50
    else if u >= 50 then 1.35
    else if u >= 20 then 1.20
    else if u >= 10 then 1.10
    else if u > 5 then 1.05
    else 1.0
  }

  /** Integration tier: some, more than 2, more than 5, more than 10. */
  function FactorIntegraciones(n: int): (r: real)
    ensures 1.0 <= r <= 1.6
    ensures n <= 0 ==> r == 1.0
  {
    if n > 10 then 1.60
    else if n > 5 then 1.40
    else if n > 2 then 1.25
    else if n > 0 then 1.15
    else 1.0
  }

  /** Flat bumps for REST APIs, approval workflows, notifications and
      executive dashboards, applied one after the other to a running factor. */
  function AplicarFuncionalidades(factor: real, fs: set<Funcionalidad>): (r: real)
    ensures factor >= 0.0 ==> factor <= r
    ensures ApiRest !in fs && WorkflowAprobaciones !in fs && Notificaciones !in fs && DashboardEjecutivo !in fs ==> r == factor
  {
    var conApi := if ApiRest in fs then factor * 1.12 else factor;
    var conWorkflow := if WorkflowAprobaciones in fs then conApi * 1.08 else conApi;
    var conNotificaciones := if Notificaciones in fs then conWorkflow * 1.05 else conWorkflow;
    if DashboardEjecutivo in fs then conNotificaciones * 1.06 else conNotificaciones
  }

  /** The complexity factor before the cap. */
  function ComplejidadSinTope(arquitectura: string, volumen: string, bd: string, usuarios: int, integraciones: int, fs: set<Funcionalidad>): real
  {
    AplicarFuncionalidades(Producto5(FactorArquitectura(arquitectura), FactorVolumen(volumen), FactorBaseDatos(bd),
      FactorConcurrencia(usuarios), FactorIntegraciones(integraciones)), fs)
  }

  /** The complexity factor of a questionnaire. */
  function FactorComplejidad(p: Perfil): real
  {
    Min(ComplejidadSinTope(p.arquitectura, p.volumenDatos, p.baseDatosTipo,
      p.usuariosConcurrentes, p.integracionesExternas, p.funcionalidades), 2.8)
  }

  /** The complexity factor computed as the source does, one multiplication at a time. */
  method CalcularFactorComplejidad(p: Perfil) returns (r: real)
    ensures r == FactorComplejidad(p)
    ensures 1.0 <= r <= 2.8
  {
    var arquitectura, volumen, baseDatos := p.arquitectura, p.volumenDatos, p.baseDatosTipo;
    var factorArq, factorVolumen, factorBd := FactorArquitectura(arquitectura), FactorVolumen(volumen), FactorBaseDatos(baseDatos);
    var factor := factorArq;
    ghost var conArquitectura := factor;
    factor := factor * factorVolumen;
    ghost var conVolumen := factor;
    factor := factor * factorBd;
    ghost var conBaseDatos := factor;

    // A tier that leaves the factor unchanged multiplies by 1.0.
    var usuariosConcurrentes := p.usuariosConcurrentes;
    var porUsuarios := 1.0;
    if usuariosConcurrentes >= 200 {
      porUsuarios := 1.50;
    } else if usuariosConcurrentes >= 50 {
      porUsuarios := 1.35;
    } else if usuariosConcurrentes >= 20 {
      porUsuarios := 1.20;
    } else if usuariosConcurrentes >= 10 {
      porUsuarios := 1.10;
    } else if usuariosConcurrentes > 5 {
      porUsuarios := 1.05;
    }
    assert porUsuarios == FactorConcurrencia(usuariosConcurrentes);
    factor := factor * porUsuarios;
    ghost var conUsuarios := factor;

    var integraciones := p.integracionesExternas;
    var porIntegraciones := 1.0;
    if integraciones > 10 {
      porIntegraciones := 1.60;
    } else if integraciones > 5 {
      porIntegraciones := 1.40;
    } else if integraciones > 2 {
      porIntegraciones := 1.25;
    } else if integraciones > 0 {
      porIntegraciones := 1.15;
    }
    assert porIntegraciones == FactorIntegraciones(integraciones);
    factor := factor * porIntegraciones;
    ghost var conIntegraciones := factor;
    Acumular5(factorArq, factorVolumen, factorBd, porUsuarios, porIntegraciones,
      conArquitectura, conVolumen, conBaseDatos, conUsuarios, conIntegraciones);

    var funcionalidades := p.funcionalidades;
    if ApiRest in funcionalidades {
      factor := factor * 1.12;
    }
    if WorkflowAprobaciones in funcionalidades {
      factor := factor * 1.08;
    }
    if Notificaciones in funcionalidades {
      factor := factor * 1.05;
    }
    if DashboardEjecutivo in funcionalidades {
      factor := factor * 1.06;
    }
    assert factor == AplicarFuncionalidades(conIntegraciones, funcionalidades);
    ComplejidadAlMenosUno(arquitectura, volumen, baseDatos, usuariosConcurrentes, integraciones, funcionalidades);
    r := Min(factor, 2.8);
  }

  /** Every dimension is at least 1, so the product before the cap is at least 1. */
  lemma ComplejidadAlMenosUno(arquitectura: string, volumen: string, bd: string, usuarios: int, integraciones: int, fs: set<Funcionalidad>)
    ensures ComplejidadSinTope(arquitectura, volumen, bd, usuarios, integraciones, fs) >= 1.0
  {
    Producto5AlMenos(FactorArquitectura(arquitectura), FactorVolumen(volumen), FactorBaseDatos(bd),
      FactorConcurrencia(usuarios), FactorIntegraciones(integraciones), 1.0);
  }

  /** The factor always lies in [1.0, 2.8]. */
  lemma FactorComplejidadAcotado(p: Perfil)
    ensures 1.0 <= FactorComplejidad(p) <= 2.8
  {
    ComplejidadAlMenosUno(p.arquitectura, p.volumenDatos, p.baseDatosTipo,
      p.usuariosConcurrentes, p.integracionesExternas, p.funcionalidades);
  }

  /** The concurrency tier never decreases as the user count grows. */
  lemma FactorConcurrenciaMonotono(u1: int, u2: int)
    requires u1 <= u2
    ensures FactorConcurrencia(u1) <= FactorConcurrencia(u2)
  {
  }

  /** The feature bumps preserve the order of two non-negative running factors. */
  lemma {:induction false} AplicarFuncionalidadesMonotona(x: real, y: real, fs: set<Funcionalidad>)
    requires 0.0 <= x <= y
    ensures AplicarFuncionalidades(x, fs) <= AplicarFuncionalidades(y, fs)
  {
    var x1 := if ApiRest in fs then x * 1.12 else x;
    var y1 := if ApiRest in fs then y * 1.12 else y;
    MulLe(x, y, 1.12);
    var x2 := if WorkflowAprobaciones in fs then x1 * 1.08 else x1;
    var y2 := if WorkflowAprobaciones in fs then y1 * 1.08 else y1;
    MulLe(x1, y1, 1.08);
    var x3 := if Notificaciones in fs then x2 * 1.05 else x2;
    var y3 := if Notificaciones in fs then y2 * 1.05 else y2;
    MulLe(x2, y2, 1.05);
    MulLe(x3, y3, 1.06);
  }

  /** With everything else fixed, more concurrent users never lower the complexity factor. */
  lemma ComplejidadMonotonaEnUsuarios(p: Perfil, u1: int, u2: int)
    requires u1 <= u2
    ensures FactorComplejidad(p.(usuariosConcurrentes := u1)) <= FactorComplejidad(p.(usuariosConcurrentes := u2))
  {
    FactorConcurrenciaMonotono(u1, u2);
    var a, v, b := FactorArquitectura(p.arquitectura), FactorVolumen(p.volumenDatos), FactorBaseDatos(p.baseDatosTipo);
    var c1, c2 := FactorConcurrencia(u1), FactorConcurrencia(u2);
    var i := FactorIntegraciones(p.integracionesExternas);
    Producto5Monotono(a, v, b, c1, i, a, v, b, c2, i);
    Producto5AlMenos(a, v, b, c1, i, 1.0);
    AplicarFuncionalidadesMonotona(Producto5(a, v, b, c1, i), Producto5(a, v, b, c2, i), p.funcionalidades);
  }
}
