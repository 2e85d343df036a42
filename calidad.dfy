/**
 * The ISO/IEC 25010 quality factor (`_calcular_factor_calidad`): a
 * weight-normalised mean, over the characteristics that were scored, of a
 * linear map of each score, with an extra penalty for weak security, clamped
 * into [0.3, 1.5].  Scores are not range-checked.
 */
module Calidad {
  import opened Tablas
  import opened Reales

  /** A characteristic's term: 1 maps to 0.3 and each further point adds 0.25;
      security scored 2 or less is multiplied by a further 0.8. */
  function Termino(nombre: string, valor: real): real
  {
    var lineal := 0.3 + (valor - 1.0) * 0.25;
    if nombre == "security" && valor <= 2.0 then lineal * 0.8 else lineal
  }

  /** Weighted sum of the terms of the characteristics in `pesos` that `s` scores. */
  function SumaPonderada(pesos: seq<(string, real)>, s: map<string, real>): real
  {
    if pesos == [] then 0.0
    else
      var (nombre, peso) := pesos[|pesos| - 1];
      SumaPonderada(pesos[..|pesos| - 1], s) + (if nombre in s then Termino(nombre, s[nombre]) * peso else 0.0)
  }

  /** Total weight of the characteristics in `pesos` that `s` scores. */
  function PesoPresente(pesos: seq<(string, real)>, s: map<string, real>): real
  {
    if pesos == [] then 0.0
    else
      var (nombre, peso) := pesos[|pesos| - 1];
      PesoPresente(pesos[..|pesos| - 1], s) + (if nombre in s then peso else 0.0)
  }

  /** `s` scores at least one characteristic of `pesos`. */
  ghost predicate Comparte(pesos: seq<(string, real)>, s: map<string, real>)
  {
    exists i :: 0 <= i < |pesos| && pesos[i].0 in s
  }

  /** The quality factor: neutral 1.0 for no scores or no scored rubric
      characteristic, otherwise the clamped weighted mean. */
  function FactorCalidad(s: map<string, real>): real
  {
    if |s| == 0 then 1.0
    else
      var peso := PesoPresente(PesosIso25010, s);
      if peso > 0.0 then Max(0.3, Min(1.5, SumaPonderada(PesosIso25010, s) / peso)) else 1.0
  }

  /** The quality factor computed as the source does, one rubric entry at a time. */
  method CalcularFactorCalidad(respuestasIso: map<string, real>) returns (r: real)
    ensures r == FactorCalidad(respuestasIso)
    ensures 0.3 <= r <= 1.5
    ensures !Comparte(PesosIso25010, respuestasIso) ==> r == 1.0
  {
    PesoPresentePositivo(PesosIso25010, respuestasIso);
    if |respuestasIso| == 0 {
      return 1.0;
    }
    var puntuacionTotal := 0.0;
    var pesoTotal := 0.0;
    var i := 0;
    while i < |PesosIso25010|
      invariant 0 <= i <= |PesosIso25010|
      invariant puntuacionTotal == SumaPonderada(PesosIso25010[..i], respuestasIso)
      invariant pesoTotal == PesoPresente(PesosIso25010[..i], respuestasIso)
    {
      puntuacionTotal, pesoTotal := SumarCaracteristica(puntuacionTotal, pesoTotal, PesosIso25010, i, respuestasIso);
      i := i + 1;
    }
    assert PesosIso25010[..i] == PesosIso25010;
    if pesoTotal > 0.0 {
      var factorFinal := puntuacionTotal / pesoTotal;
      r := Max(0.3, Min(1.5, factorFinal));
    } else {
      r := 1.0;
    }
  }

  /** One rubric entry of the loop: a scored characteristic adds its weighted term and its weight. */
  method SumarCaracteristica(puntuacion: real, pesoAcumulado: real, pesos: seq<(string, real)>, i: int,
    respuestasIso: map<string, real>)
    returns (nuevaPuntuacion: real, nuevoPeso: real)
    requires 0 <= i < |pesos|
    requires puntuacion == SumaPonderada(pesos[..i], respuestasIso) && pesoAcumulado == PesoPresente(pesos[..i], respuestasIso)
    ensures nuevaPuntuacion == SumaPonderada(pesos[..i + 1], respuestasIso)
    ensures nuevoPeso == PesoPresente(pesos[..i + 1], respuestasIso)
  {
    nuevaPuntuacion, nuevoPeso := puntuacion, pesoAcumulado;
    var (caracteristica, peso) := pesos[i];
    if caracteristica in respuestasIso {
      var valor := respuestasIso[caracteristica];
      var factorCaracteristica := 0.3 + (valor - 1.0) * 0.25;
      if caracteristica == "security" && valor <= 2.0 {
        factorCaracteristica := factorCaracteristica * 0.8;
      }
      nuevaPuntuacion := nuevaPuntuacion + factorCaracteristica * peso;
      nuevoPeso := nuevoPeso + peso;
    }
    assert pesos[..i + 1][..i] == pesos[..i];
  }

  /** The quality factor always lies in [0.3, 1.5], and is the neutral 1.0 when no rubric characteristic is scored. */
  lemma FactorCalidadAcotado(s: map<string, real>)
    ensures 0.3 <= FactorCalidad(s) <= 1.5
    ensures !Comparte(PesosIso25010, s) ==> FactorCalidad(s) == 1.0
  {
    PesoPresentePositivo(PesosIso25010, s);
  }

  /** Every weight is positive. */
  ghost predicate PesosPositivos(pesos: seq<(string, real)>)
  {
    forall i :: 0 <= i < |pesos| ==> pesos[i].1 > 0.0
  }

  /** With positive weights, the scored weight is positive exactly when some
      characteristic of the rubric was scored. */
  lemma {:induction false} PesoPresentePositivo(pesos: seq<(string, real)>, s: map<string, real>)
    requires PesosPositivos(pesos)
    ensures PesoPresente(pesos, s) >= 0.0
    ensures PesoPresente(pesos, s) > 0.0 <==> Comparte(pesos, s)
  {
    if pesos != [] {
      var previas := pesos[..|pesos| - 1];
      PesoPresentePositivo(previas, s);
      if Comparte(pesos, s) && !Comparte(previas, s) {
        var i :| 0 <= i < |pesos| && pesos[i].0 in s;
        assert i == |pesos| - 1;
      }
      if Comparte(previas, s) {
        var i :| 0 <= i < |previas| && previas[i].0 in s;
        assert pesos[i].0 in s;
      }
    }
  }

  /** When some rubric characteristic is scored, the factor is the clamped
      weight-normalised mean of the scored terms. */
  lemma CalidadMediaPonderada(s: map<string, real>)
    requires Comparte(PesosIso25010, s)
    ensures PesoPresente(PesosIso25010, s) > 0.0
    ensures FactorCalidad(s) == Max(0.3, Min(1.5, SumaPonderada(PesosIso25010, s) / PesoPresente(PesosIso25010, s)))
  {
    PesoPresentePositivo(PesosIso25010, s);
    var i :| 0 <= i < |PesosIso25010| && PesosIso25010[i].0 in s;
    assert |s| != 0;
  }

  /** If every scored term lies in [lo, hi], the weighted sum lies between lo
      and hi times the scored weight. */
  lemma {:induction false} SumaPonderadaAcotada(pesos: seq<(string, real)>, s: map<string, real>, lo: real, hi: real)
    requires PesosPositivos(pesos)
    requires forall i :: 0 <= i < |pesos| && pesos[i].0 in s ==> lo <= Termino(pesos[i].0, s[pesos[i].0]) <= hi
    ensures lo * PesoPresente(pesos, s) <= SumaPonderada(pesos, s) <= hi * PesoPresente(pesos, s)
  {
    if pesos != [] {
      var previas := pesos[..|pesos| - 1];
      SumaPonderadaAcotada(previas, s, lo, hi);
      var (nombre, peso) := pesos[|pesos| - 1];
      if nombre in s {
        var t := Termino(nombre, s[nombre]);
        MulLe(lo, t, peso);
        MulLe(t, hi, peso);
      }
    }
  }

  /** Scores inside the questionnaire's 1..5 scale keep every term inside [0.24, 1.3]. */
  lemma TerminoEnEscala(nombre: string, valor: real)
    requires 1.0 <= valor <= 5.0
    ensures 0.24 <= Termino(nombre, valor) <= 1.3
  {
  }

  /** With every scored characteristic inside 1..5 the factor never exceeds
      1.3, so the upper clamp at 1.5 only acts on scores outside the scale. */
  lemma CalidadEnEscala(s: map<string, real>)
    requires forall k :: k in s ==> 1.0 <= s[k] <= 5.0
    ensures 0.3 <= FactorCalidad(s) <= 1.3
  {
    PesoPresentePositivo(PesosIso25010, s);
    var peso := PesoPresente(PesosIso25010, s);
    if |s| != 0 && peso > 0.0 {
      forall i | 0 <= i < |PesosIso25010| && PesosIso25010[i].0 in s
        ensures 0.24 <= Termino(PesosIso25010[i].0, s[PesosIso25010[i].0]) <= 1.3
      {
        TerminoEnEscala(PesosIso25010[i].0, s[PesosIso25010[i].0]);
      }
      SumaPonderadaAcotada(PesosIso25010, s, 0.24, 1.3);
      DivAcotada(SumaPonderada(PesosIso25010, s), peso, 1.3);
    }
  }

  /** Security scored 1 or 2, and nothing else scored, pulls the quality factor below neutral: to at most 0.44. */
  lemma SeguridadDeficiente(s: map<string, real>, v: real)
    requires s == map["security" := v] && 1.0 <= v <= 2.0
    ensures 0.3 <= FactorCalidad(s) <= 0.44
  {
    forall i | 1 <= i < |PesosIso25010|
      ensures PesosIso25010[i].0 !in s
    {
    }
    SoloElPrimero(PesosIso25010, s);
    var primero := PesosIso25010[..1];
    assert primero == [("security", 0.20)];
    assert primero[..0] == [];
    assert SumaPonderada(PesosIso25010, s) == Termino("security", v) * 0.20;
    assert PesoPresente(PesosIso25010, s) == 0.20;
  }

  /** When only the first rubric entry is scored, the later entries add nothing. */
  lemma {:induction false} SoloElPrimero(pesos: seq<(string, real)>, s: map<string, real>)
    requires |pesos| >= 1
    requires forall i :: 1 <= i < |pesos| ==> pesos[i].0 !in s
    ensures SumaPonderada(pesos, s) == SumaPonderada(pesos[..1], s)
    ensures PesoPresente(pesos, s) == PesoPresente(pesos[..1], s)
  {
    if |pesos| > 1 {
      var previos := pesos[..|pesos| - 1];
      assert previos[..1] == pesos[..1];
      SoloElPrimero(previos, s);
    }
  }

  /** A sum at most `hi` times a positive weight has a mean at most `hi`. */
  lemma DivAcotada(suma: real, peso: real, hi: real)
    requires peso > 0.0 && suma <= hi * peso
    ensures suma / peso <= hi
  {
  }
}
