/**
 * The checks `valorar_software` (POST /api/valorar) makes before it calls the
 * engine: the three rejections with status 400, the coercion of the eight
 * numeric fields with their defaults, the two range corrections, and the
 * status 500 when the engine reports an error.
 */
module Endpoint {
  import opened Wrappers
  import opened Perfil
  import opened Motor
  import opened Horas
  import opened Colombia

  /**
   * The raw value of a numeric field.  `Vacio` is an absent key, a null, the
   * empty string or the string "None"; `Numero` is a value `float()` accepts,
   * already parsed; `NoNumerico` is any value it rejects.
   */
  datatype Campo = Vacio | Numero(x: real) | NoNumerico

  /** The request body: whether it is empty, which of the two required keys it has, the raw numeric fields, and the rest of the questionnaire. */
  datatype Solicitud = Solicitud(
    vacia: bool,
    tieneTipoSoftware: bool,
    tieneTecnologia: bool,
    usuariosConcurrentes: Campo,
    usuariosTotales: Campo,
    integracionesExternas: Campo,
    antiguedadAnos: Campo,
    criticidadNegocio: Campo,
    tiempoDesarrolloMeses: Campo,
    ahorroAnualCop: Campo,
    inversionOriginalCop: Campo,
    resto: Perfil)

  /** What the endpoint answers with (the success timestamp is not modelled). */
  datatype Cuerpo = Error(mensaje: string) | Exito(valoracion: Valoracion)

  datatype Respuesta = Respuesta(estado: int, cuerpo: Cuerpo)

  const SinDatos: string := "No se recibieron datos"
  const FaltaTipoSoftware: string := "tipo_software es requerido"
  const FaltaTecnologia: string := "tecnologia_principal es requerido"

  /** `int(x)` on a float: the integer part, rounding toward zero. */
  function Truncar(x: real): (r: int)
    ensures x >= 0.0 ==> r as real <= x < r as real + 1.0
    ensures x < 0.0 ==> r as real - 1.0 < x <= r as real
  {
    if x >= 0.0 then x.Floor else -((-x).Floor)
  }

  /** `safe_int`: the default for an empty or unparsable value, otherwise the parsed number truncated toward zero. */
  function SafeInt(v: Campo, porDefecto: int): int
  {
    match v
    case Numero(x) => Truncar(x)
    case _ => porDefecto
  }

  /** `safe_float`: the default for an empty or unparsable value, otherwise the parsed number. */
  function SafeFloat(v: Campo, porDefecto: real): real
  {
    match v
    case Numero(x) => x
    case _ => porDefecto
  }

  /** The questionnaire the engine receives: the numeric fields coerced with their defaults, then the two range corrections. */
  function Normalizar(s: Solicitud): Perfil
  {
    var usuarios := SafeInt(s.usuariosConcurrentes, 1);
    var criticidad := SafeInt(s.criticidadNegocio, 3);
    s.resto.(
      usuariosConcurrentes := if usuarios < 1 then 1 else usuarios,
      usuariosTotales := SafeInt(s.usuariosTotales, 1),
      integracionesExternas := SafeInt(s.integracionesExternas, 0),
      antiguedadAnos := SafeFloat(s.antiguedadAnos, 0.0),
      criticidadNegocio := if criticidad < 1 || criticidad > 5 then 3 else criticidad,
      tiempoDesarrolloMeses := SafeFloat(s.tiempoDesarrolloMeses, 0.0),
      ahorroAnualCop := SafeInt(s.ahorroAnualCop, 0),
      inversionOriginalCop := SafeInt(s.inversionOriginalCop, 0))
  }

  /** The response to a request. */
  function Responder(s: Solicitud): Respuesta
  {
    if s.vacia then Respuesta(400, Error(SinDatos))
    else if !s.tieneTipoSoftware then Respuesta(400, Error(FaltaTipoSoftware))
    else if !s.tieneTecnologia then Respuesta(400, Error(FaltaTecnologia))
    else
      match Motor.Valorar(Normalizar(s))
      case Err(e) => Respuesta(500, Error(e))
      case Ok(v) => Respuesta(200, Exito(v))
  }

  /**
   * `valorar_software` on the shared engine: the checks, the normalisation,
   * and one valuation.  A 200 leaves the engine holding the details of this
   * request; a 400 or 500 leaves its details as they were.
   */
  method ValorarSoftware(motor: MotorValoracion, s: Solicitud) returns (r: Respuesta)
    modifies motor`detallesCalculoHoras, motor`detallesCumplimiento
    ensures r == Responder(s)
    ensures r.estado == 200 ==>
      motor.detallesCalculoHoras == Some(DetalleHorasDe(Normalizar(s))) &&
      motor.detallesCumplimiento == Some(DetallesCumplimiento(Normalizar(s)))
    ensures r.estado != 200 ==>
      motor.detallesCalculoHoras == old(motor.detallesCalculoHoras) &&
      motor.detallesCumplimiento == old(motor.detallesCumplimiento)
  {
    if s.vacia {
      return Respuesta(400, Error(SinDatos));
    }
    if !s.tieneTipoSoftware {
      return Respuesta(400, Error(FaltaTipoSoftware));
    }
    if !s.tieneTecnologia {
      return Respuesta(400, Error(FaltaTecnologia));
    }
    var datos := Normalizar(s);
    var resultado := motor.CalcularValor(datos);
    if resultado.Err? {
      return Respuesta(500, Error(resultado.error));
    }
    r := Respuesta(200, Exito(resultado.value));
  }

  // ---------------------------------------------------------------------------
  // Properties
  // ---------------------------------------------------------------------------

  /** Truncation keeps the sign and never moves a number by a whole unit: `int(2.7) == 2`, `int(-2.7) == -2`. */
  lemma TruncarEjemplos()
    ensures Truncar(2.7) == 2 && Truncar(-2.7) == -2 && Truncar(-0.5) == 0
  {
  }

  /** After normalisation there is at least one concurrent user and the criticality lies in 1..5. */
  lemma NormalizarEnRango(s: Solicitud)
    ensures Normalizar(s).usuariosConcurrentes >= 1
    ensures 1 <= Normalizar(s).criticidadNegocio <= 5
  {
  }

  /** A value already in range passes through the corrections unchanged; an empty value takes the field's default. */
  lemma NormalizarConserva(s: Solicitud)
    ensures s.usuariosConcurrentes.Numero? && Truncar(s.usuariosConcurrentes.x) >= 1 ==>
      Normalizar(s).usuariosConcurrentes == Truncar(s.usuariosConcurrentes.x)
    ensures s.criticidadNegocio.Numero? && 1 <= Truncar(s.criticidadNegocio.x) <= 5 ==>
      Normalizar(s).criticidadNegocio == Truncar(s.criticidadNegocio.x)
    ensures s.usuariosConcurrentes.Vacio? ==> Normalizar(s).usuariosConcurrentes == 1
    ensures s.criticidadNegocio.Vacio? ==> Normalizar(s).criticidadNegocio == 3
    ensures s.integracionesExternas.Vacio? ==> Normalizar(s).integracionesExternas == 0
    ensures s.tiempoDesarrolloMeses.NoNumerico? ==> Normalizar(s).tiempoDesarrolloMeses == 0.0
  {
  }

  /** Normalisation touches only the eight numeric fields. */
  lemma NormalizarSoloNumericos(s: Solicitud)
    ensures var p := Normalizar(s);
      && p.tipoSoftware == s.resto.tipoSoftware && p.tecnologia == s.resto.tecnologia
      && p.funcionalidades == s.resto.funcionalidades && p.normativas == s.resto.normativas
      && p.contexto == s.resto.contexto && p.iso25010 == s.resto.iso25010
      && p.sector == s.resto.sector && p.tipoValoracion == s.resto.tipoValoracion
      && p.enUsoActivo == s.resto.enUsoActivo
  {
  }

  /** Status 400 exactly for an empty body or a missing required key, with the first failing check's message. */
  lemma RechazoSiiFaltanDatos(s: Solicitud)
    ensures Responder(s).estado == 400 <==> s.vacia || !s.tieneTipoSoftware || !s.tieneTecnologia
    ensures s.vacia ==> Responder(s).cuerpo == Error(SinDatos)
    ensures !s.vacia && !s.tieneTipoSoftware ==> Responder(s).cuerpo == Error(FaltaTipoSoftware)
    ensures !s.vacia && s.tieneTipoSoftware && !s.tieneTecnologia ==> Responder(s).cuerpo == Error(FaltaTecnologia)
  {
  }

  /**
   * A request that passes the checks is answered 500 exactly when its
   * technology is null, and otherwise 200 with a positive, ordered band.
   */
  lemma AceptadaSegunTecnologia(s: Solicitud)
    requires !s.vacia && s.tieneTipoSoftware && s.tieneTecnologia
    ensures Responder(s).estado == 500 <==> s.resto.tecnologia.None?
    ensures Responder(s).estado == 500 ==> Responder(s).cuerpo == Error(ErrorTecnologiaNula)
    ensures Responder(s).estado == 200 ==>
      && Responder(s).cuerpo.Exito?
      && 20146 <= Responder(s).cuerpo.valoracion.valorMinimo
      && Responder(s).cuerpo.valoracion.valorMinimo <= Responder(s).cuerpo.valoracion.valorPromedio
      && Responder(s).cuerpo.valoracion.valorPromedio <= Responder(s).cuerpo.valoracion.valorMaximo
  {
    var p := Normalizar(s);
    NormalizarSoloNumericos(s);
    ValorarFallaSiiSinTecnologia(p);
    if p.tecnologia.Some? {
      ValoracionAcotada(p);
    }
  }
}
