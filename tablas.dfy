/**
 * The engine's static configuration: hourly rates by cost tier, the technology
 * profiles, the ISO/IEC 25010 quality weights, and the tier tables that more
 * than one factor reads.
 */
module Tablas {

  /** Cost tier of a technology (the keys of `COSTOS_BASE`). */
  datatype Nivel = MuyBajo | Bajo | Medio | Alto | MuyAlto

  /** Base hourly rate in COP for a cost tier.  Total over the tiers, so no lookup can fail. */
  function CostoBase(n: Nivel): (r: real)
    ensures 20000.0 <= r <= 90000.0
  {
    match n
    case MuyBajo => 20000.0
    case Bajo => 30000.0
    case Medio => 45000.0
    case Alto => 65000.0
    case MuyAlto => 90000.0
  }

  /** Cost multiplier and cost tier of one technology. */
  datatype PerfilTecnologia = PerfilTecnologia(factor: real, nivel: Nivel)

  const FactoresTecnologia: map<string, PerfilTecnologia> := map[
    "access_vba" := PerfilTecnologia(0.7, Bajo),
    "vb_net" := PerfilTecnologia(0.8, Bajo),
    "excel_vba" := PerfilTecnologia(0.6, MuyBajo),
    "php_basic" := PerfilTecnologia(1.0, Medio),
    "asp_net_webforms" := PerfilTecnologia(1.1, Medio),
    "jsp_servlet" := PerfilTecnologia(1.2, Medio),
    "php_laravel" := PerfilTecnologia(1.1, Medio),
    "javascript_react" := PerfilTecnologia(1.2, Alto),
    "javascript_angular" := PerfilTecnologia(1.3, Alto),
    "python_django" := PerfilTecnologia(1.2, Alto),
    "python_flask" := PerfilTecnologia(1.1, Medio),
    "asp_net_core" := PerfilTecnologia(1.3, Alto),
    "java_spring" := PerfilTecnologia(1.4, Alto),
    "microservicios" := PerfilTecnologia(1.8, MuyAlto),
    "arquitectura_distribuida" := PerfilTecnologia(1.9, MuyAlto),
    "cloud_native" := PerfilTecnologia(1.6, MuyAlto)
  ]

  /** Every configured technology multiplier lies in [0.6, 1.9]. */
  lemma FactoresTecnologiaAcotados(t: string)
    requires t in FactoresTecnologia
    ensures 0.6 <= FactoresTecnologia[t].factor <= 1.9
  {
  }

  /**
   * ISO/IEC 25010 characteristic weights, in the order the quality factor
   * visits them (the insertion order of `PESOS_ISO25010`).  They sum to 1.
   */
  const PesosIso25010: seq<(string, real)> := [
    ("security", 0.20),
    ("functional_suitability", 0.18),
    ("reliability", 0.15),
    ("maintainability", 0.12),
    ("performance_efficiency", 0.10),
    ("usability", 0.10),
    ("compatibility", 0.08),
    ("portability", 0.04),
    ("flexibility", 0.03)
  ]

  /** `d.get(k, default)` on a table. */
  function LookupOr<K, V>(m: map<K, V>, k: K, default: V): V
  {
    if k in m then m[k] else default
  }

  /** Multiplier by data-volume tier; shared by the effort estimator and the complexity factor. */
  const TablaVolumenDatos: map<string, real> := map[
    "pequeno" := 1.0,
    "medio" := 1.12,
    "grande" := 1.25,
    "muy_grande" := 1.40
  ]

  /** Multiplier by architecture; shared by the effort estimator and the complexity factor. */
  const TablaArquitectura: map<string, real> := map[
    "monolitica" := 1.0,
    "capas" := 1.15,
    "cliente_servidor" := 1.20,
    "web_multicapa" := 1.30,
    "soa" := 1.45,
    "microservicios" := 1.70
  ]

  /** Data-volume multiplier, 1.0 for an unknown tier. */
  function FactorVolumen(v: string): (r: real)
    ensures 1.0 <= r <= 1.4
    ensures v !in TablaVolumenDatos ==> r == 1.0
  {
    LookupOr(TablaVolumenDatos, v, 1.0)
  }

  /** Architecture multiplier, 1.0 for an unknown architecture. */
  function FactorArquitectura(a: string): (r: real)
    ensures 1.0 <= r <= 1.7
    ensures a !in TablaArquitectura ==> r == 1.0
  {
    LookupOr(TablaArquitectura, a, 1.0)
  }

  /** The smallest data volume and the monolithic design are the neutral tiers. */
  lemma TiersNeutros()
    ensures FactorVolumen("pequeno") == 1.0
    ensures FactorArquitectura("monolitica") == 1.0
  {
    assert "pequeno" in TablaVolumenDatos;
    assert "monolitica" in TablaArquitectura;
  }
}
