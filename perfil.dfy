/**
 * The questionnaire as the engine receives it: the JSON object that the
 * endpoint has checked and whose numeric fields it has normalised.
 */
module Perfil {
  import opened Wrappers

  /**
   * A JSON scalar, for the fields the engine compares with a string literal
   * (`== 'true'`, `== 'no'`): a boolean `true` is not the string "true".
   */
  datatype Json = JNull | JBool(b: bool) | JNum(n: real) | JStr(s: string)

  /** Keys of the `funcionalidades` object. */
  datatype Funcionalidad =
    | AutenticacionAvanzada | ReportesComplejos | IntegracionExterna
    | WorkflowAprobaciones | DashboardEjecutivo | ApiRest
    | Notificaciones | BackupAutomatico | AuditoriaLogs

  /** Top-level compliance flags read by the regulatory factor. */
  datatype Normativa =
    | GeneraReportesOficiales | RequiereAuditoriaLogs | InteroperabilidadGovCo
    | ManejaDatosPersonales | Decreto648 | Iso27001 | Sarlaft | Contraloria

  /** Keys of the `contexto_desarrollo` object. */
  datatype Contexto =
    | DesarrolloInterno | TiempoParcial | AprendizajeTecnologia
    | SinMetodologia | UrgenciaTiempo | PrototipoIterativo

  /**
   * One questionnaire.  A flag belongs to `funcionalidades`, `normativas` or
   * `contexto` exactly when its JSON value is truthy.  A tag field that was
   * absent holds the default the engine reads it with; a null tag behaves like
   * any tag missing from the tables.  `tipoSoftware` and `tecnologia` are
   * `None` when the key is present with value null.
   */
  datatype Perfil = Perfil(
    tipoSoftware: Option<string>,
    tecnologia: Option<string>,
    funcionalidades: set<Funcionalidad>,
    arquitectura: string,
    volumenDatos: string,
    baseDatosTipo: string,
    usuariosConcurrentes: int,
    usuariosTotales: int,
    integracionesExternas: int,
    antiguedadAnos: real,
    enUsoActivo: Json,
    criticidadNegocio: int,
    sector: string,
    normativas: set<Normativa>,
    ahorroAnualCop: int,
    inversionOriginalCop: int,
    tiempoDesarrolloMeses: real,
    nivelCerteza: string,
    conoceTiempoDesarrollo: Json,
    tiempoCalculadoPorFechas: bool,
    conoceInversion: Json,
    inversionEsEstimada: bool,
    conoceAhorros: Json,
    ahorrosSonEstimados: bool,
    contexto: set<Contexto>,
    tipoValoracion: string,
    iso25010: map<string, real>)

  /** The answer to a "do you know it?" question is the string "no". */
  predicate NoConoce(respuesta: Json)
  {
    respuesta == JStr("no")
  }

  /** The multiplier `m` when the context flag `c` is set, 1 otherwise. */
  function PorContexto(c: Contexto, contexto: set<Contexto>, m: real): real
  {
    if c in contexto then m else 1.0
  }

  /** Applies one context flag to a running factor: multiplies it by `m` when the flag is set. */
  method AplicarContexto(factor: real, c: Contexto, contexto: set<Contexto>, m: real) returns (r: real)
    ensures r == factor * PorContexto(c, contexto, m)
  {
    r := factor;
    if c in contexto {
      r := r * m;
    }
  }

  /** `datos.get('en_uso_activo', 'false') == 'true'`. */
  predicate EnUsoActivo(p: Perfil)
  {
    p.enUsoActivo == JStr("true")
  }
}
