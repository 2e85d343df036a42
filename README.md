# Software valuation engine: a Dafny model

The model covers the valuation engine `MotorValoracion` of a Flask service that prices in-house software for audit purposes in Colombia. It also covers the checks its `/api/valorar` endpoint makes before calling the engine.

For one questionnaire (`Perfil.Perfil`) the engine computes:

- the **effort** in hours (`_estimar_horas`). It starts from base hours per software category and adds an increment per implemented feature. Then come the technology, concurrency, data-volume and architecture multipliers, a 70/30 blend with a reported development time, and a legacy surcharge. The result is rounded. The estimator records its working in the engine's `detalles_calculo_horas` field.
- the **hourly rate** of the technology (`_calcular_costo_hora`).
- five factors:
  - **quality**: a weighted mean of the ISO/IEC 25010 scores, clamped to [0.3, 1.5];
  - **technical complexity**: capped at 2.8;
  - **business value**: capped at 3.5;
  - **Colombian regulatory compliance**: capped at 2.2. It records its compliance labels in `detalles_cumplimiento`;
  - **valuation adjustment**: floored at 0.4.
- the **uncertainty margin**, clamped to [10 %, 45 %].
- the **confidence score**, at most 1.

`calcular_valor` multiplies base value (hours × rate) by the five factors. It returns the rounded average, the rounded lower and upper ends of the band (value × (1 ∓ margin)), the confidence and the full breakdown.

Numbers are exact `real`s. Python's `round` is round-half-to-even (`Redondeo.RoundHalfEven`). Every stepwise computation of the source is a `method` with the source's steps. Each method is proved equal to a specification function, and the properties are proved as lemmas about those functions:

- The two computations that write the engine's fields, `_estimar_horas` and `_calcular_factor_colombia`, are methods of the class `Motor.MotorValoracion`.
- So is `calcular_valor`, which calls them.
- The stateless `_calcular_*` helpers are module-level methods.

Modules (one file each):

- `tablas.dfy`: rate tiers, technology profiles, ISO weights, volume and architecture tables.
- `texto.dfy`: `str.lower` and `in` on strings.
- `redondeo.dfy`: `round`.
- `reales.dfy`: product lemmas.
- `perfil.dfy`: the questionnaire.
- `horas.dfy`, `costo.dfy`, `calidad.dfy`, `complejidad.dfy`, `negocio.dfy`, `colombia.dfy`, `confianza.dfy`, `ajuste.dfy`: one per factor.
- `motor.dfy`: the engine class and `calcular_valor`.
- `endpoint.dfy`: `valorar_software`.

Four behaviours of `app.py` that a reader might not expect from its names and comments. The model follows the code:

- **Access technology factor.** `app.py:52` configures `access_vba` with multiplier 0.7. `app.py:289-291` then overrides the effort factor with 0.85 for any tag whose lower-cased form contains "access". The effort for Access is therefore above its configured multiplier (`Horas.FactorTecnologiaHorasCasos`).
- **Legacy surcharge.** `app.py:340-343` tests `antiguedad > 8` before `antiguedad > 15`. The 1.25 surcharge for very old systems is therefore never applied; every active system older than 8 years gets 1.15 (`Horas.RecargoLegacySoloUnoQuince`).
- **Required fields.** `app.py:860-864` only tests that the keys `tipo_software` and `tecnologia_principal` are present. A technology that is present but null reaches the engine, fails there, and is answered with status 500 (`Endpoint.AceptadaSegunTecnologia`).
- **Confidence range.** `app.py:721` caps confidence at 1.0 and applies no floor. The model proves it never falls below 0.2 anyway (`Confianza.ConfianzaAcotada`).

## Model

All source paths are relative to the repository root.

| member | source | states |
|---|---|---|
| Tablas.CostoBase | access/modelo/valoracion_sistema/backend/app.py:41-47 | every cost tier has a base rate between 20000 and 90000 COP; the lookup is total over the five tiers |
| Tablas.FactoresTecnologiaAcotados | access/modelo/valoracion_sistema/backend/app.py:50-77 | every configured technology multiplier lies in [0.6, 1.9] |
| Tablas.FactorVolumen | access/modelo/valoracion_sistema/backend/app.py:303-309 | the data-volume multiplier lies in [1.0, 1.4] and is 1.0 for a tier not in the table |
| Tablas.FactorArquitectura | access/modelo/valoracion_sistema/backend/app.py:314-322 | the architecture multiplier lies in [1.0, 1.7] and is 1.0 for an architecture not in the table |
| Tablas.TiersNeutros | access/modelo/valoracion_sistema/backend/app.py:303-322 | the small data volume and the monolithic design are the neutral multiplier 1.0 |
| Texto.LowerEn | access/modelo/valoracion_sistema/backend/app.py:290 | each character of the lower-cased tag is the lower-cased character at the same index |
| Texto.LowerIdempotent | access/modelo/valoracion_sistema/backend/app.py:290 | lower-casing twice is lower-casing once |
| Texto.ContainsSiiOcurre | access/modelo/valoracion_sistema/backend/app.py:290 | `sub in s` holds exactly when `sub` occurs at some index of `s` |
| Redondeo.RoundHalfEven | access/modelo/valoracion_sistema/backend/app.py:346 | the rounded value is within one half of the argument; an exact half goes to the even neighbour, anything else to the nearest integer |
| Redondeo.RoundMonotone | access/modelo/valoracion_sistema/backend/app.py:173-175 | rounding never reverses the order of two numbers |
| Redondeo.RoundAtLeast | access/modelo/valoracion_sistema/backend/app.py:173 | a number more than one half above n − 1 rounds to at least n |
| Perfil.AplicarContexto | access/modelo/valoracion_sistema/backend/app.py:737-753 | a context flag multiplies the running factor by its multiplier exactly when it is set |
| Horas.HorasBase | access/modelo/valoracion_sistema/backend/app.py:215-230 | base hours lie in [80, 160]; a null or unknown category gets 100 |
| Horas.Activas | access/modelo/valoracion_sistema/backend/app.py:234-280 | the features tested are exactly those of the fixed order that are set |
| Horas.OrdenFuncionalidadesCompleto | access/modelo/valoracion_sistema/backend/app.py:237-280 | the estimator tests each of the nine features exactly once |
| Horas.SumarActiva | access/modelo/valoracion_sistema/backend/app.py:237-280 | one more feature test adds that feature's hours and log line exactly when it is set |
| Horas.SumaHorasAgregar | access/modelo/valoracion_sistema/backend/app.py:237-280 | setting one more feature adds exactly its hour increment, whatever else is set |
| Horas.EtiquetaRegistradaSiiActiva | access/modelo/valoracion_sistema/backend/app.py:234-280 | the adjustment log holds a feature's line exactly when the feature is set |
| Horas.EtiquetasFuncionalidadDistintas | access/modelo/valoracion_sistema/backend/app.py:240-280 | different features log different lines |
| Horas.FactorTecnologiaHoras | access/modelo/valoracion_sistema/backend/app.py:283-291 | the effort technology multiplier lies in [0.6, 1.9] |
| Horas.FactorTecnologiaHorasCasos | access/modelo/valoracion_sistema/backend/app.py:283-291 | a tag whose lower-cased form contains "access" gets 0.85; otherwise a configured tag gets its multiplier and any other tag 1.0 |
| Horas.FactorConcurrenciaHoras | access/modelo/valoracion_sistema/backend/app.py:296-300 | the effort concurrency multiplier lies in [1.0, 1.15] and is flat up to 5 users |
| Horas.MultiplicadorSoloTecnologia | access/modelo/valoracion_sistema/backend/app.py:295-324 | with at most five users, small data and a monolithic design only the technology multiplier remains |
| Horas.MultiplicadorHorasAlMenos | access/modelo/valoracion_sistema/backend/app.py:283-324 | the four effort multipliers together are at least 0.6 |
| Horas.CalibrarEntreAmbos | access/modelo/valoracion_sistema/backend/app.py:328-333 | with a reported duration the blended hours lie between the model estimate and months × 160; without one the estimate is unchanged |
| Horas.RecargoLegacySoloUnoQuince | access/modelo/valoracion_sistema/backend/app.py:336-355 | the surcharge is 1.15 exactly when the system is in use and older than 8 years, never 1.25, and equals the recorded `factor_legacy` |
| Horas.InactivoSinRecargo | access/modelo/valoracion_sistema/backend/app.py:336-346 | the age of a system not in active use never changes its estimate |
| Horas.ActivoAntiguoRecargo | access/modelo/valoracion_sistema/backend/app.py:340-341 | an active system older than 8 years costs exactly 15 % more hours than the same system with no age |
| Horas.HorasPorEtapas | access/modelo/valoracion_sistema/backend/app.py:229-346 | the estimate before rounding is the additive hours times the multipliers, blended, then surcharged |
| Horas.AditivasSinFuncionalidades | access/modelo/valoracion_sistema/backend/app.py:229-280 | with no feature set the additive hours are the category's base hours |
| Horas.HorasBaseGestion | access/modelo/valoracion_sistema/backend/app.py:215-230 | a management application starts from 100 hours |
| Horas.EjemploAccess | access/modelo/valoracion_sistema/backend/app.py:215-346 | an Access management application with no features, at most five users, small data, monolithic, no reported time and no surcharge takes 85 hours |
| Horas.HorasEstimadasAlMenos | access/modelo/valoracion_sistema/backend/app.py:229-346 | at least 80 additive hours with multipliers of at least 0.6 give at least 33.6 hours |
| Horas.HorasFinalesPositivas | access/modelo/valoracion_sistema/backend/app.py:201-347 | the estimate is at least 33.6 hours before rounding and at least 34 after |
| Horas.HorasEstimadasCrecientes | access/modelo/valoracion_sistema/backend/app.py:237-346 | more additive hours give a strictly larger estimate whatever the later stages |
| Horas.HorasMonotonasEnFuncionalidades | access/modelo/valoracion_sistema/backend/app.py:237-346 | setting one more feature strictly raises the estimate and never lowers the rounded hours |
| Costo.CostoHora | access/modelo/valoracion_sistema/backend/app.py:361-369 | the hourly rate lies in [12000, 171000] COP |
| Costo.RateAcotado | access/modelo/valoracion_sistema/backend/app.py:365-366 | a tier rate times a configured multiplier stays within [12000, 171000] |
| Costo.CostoHoraCasos | access/modelo/valoracion_sistema/backend/app.py:361-369 | a configured tag pays its tier rate times its multiplier; any other tag pays the medium rate 45000 |
| Costo.CostoHoraExtremos | access/modelo/valoracion_sistema/backend/app.py:361-369 | Excel/VBA pays the lowest rate 12000 and a distributed architecture the highest, 171000 |
| Costo.CostoHoraDistingueMayusculas | access/modelo/valoracion_sistema/backend/app.py:362 | the lookup is case-sensitive: "access_vba" pays 21000, "Access_VBA" the default 45000 |
| Calidad.CalcularFactorCalidad | access/modelo/valoracion_sistema/backend/app.py:371-396 | the loop computes the clamped weighted mean; the factor lies in [0.3, 1.5] and is 1.0 when no rubric characteristic is scored |
| Calidad.SumarCaracteristica | access/modelo/valoracion_sistema/backend/app.py:379-390 | one rubric entry adds its weighted term and its weight exactly when it is scored |
| Calidad.FactorCalidadAcotado | access/modelo/valoracion_sistema/backend/app.py:371-396 | the quality factor lies in [0.3, 1.5] and is neutral when nothing in the rubric is scored |
| Calidad.PesoPresentePositivo | access/modelo/valoracion_sistema/backend/app.py:379-392 | the scored weight is positive exactly when some rubric characteristic is scored |
| Calidad.CalidadMediaPonderada | access/modelo/valoracion_sistema/backend/app.py:392-394 | with a scored characteristic the factor is the clamped weighted mean over the scored characteristics only |
| Calidad.SumaPonderadaAcotada | access/modelo/valoracion_sistema/backend/app.py:379-390 | when every scored term lies in [lo, hi], the weighted sum lies between lo and hi times the scored weight |
| Calidad.TerminoEnEscala | access/modelo/valoracion_sistema/backend/app.py:382-387 | a score on the 1..5 scale gives a term in [0.24, 1.3] |
| Calidad.CalidadEnEscala | access/modelo/valoracion_sistema/backend/app.py:371-396 | with every score on the 1..5 scale the factor never exceeds 1.3 |
| Calidad.SeguridadDeficiente | access/modelo/valoracion_sistema/backend/app.py:379-394 | a security score of 1 or 2 alone pulls the factor below neutral, to at most 0.44 |
| Calidad.SoloElPrimero | access/modelo/valoracion_sistema/backend/app.py:379-390 | rubric entries that are not scored add nothing to the sums |
| Complejidad.FactorBaseDatos | access/modelo/valoracion_sistema/backend/app.py:426-447 | the database multiplier lies in [1.0, 1.5] and is 1.0 for an unknown database |
| Complejidad.FactorConcurrencia | access/modelo/valoracion_sistema/backend/app.py:450-461 | the concurrency tier lies in [1.0, 1.5] and is 1.0 up to 5 users |
| Complejidad.FactorIntegraciones | access/modelo/valoracion_sistema/backend/app.py:464-472 | the integration tier lies in [1.0, 1.6] and is 1.0 without integrations |
| Complejidad.AplicarFuncionalidades | access/modelo/valoracion_sistema/backend/app.py:475-491 | the feature bumps never lower a non-negative factor and change nothing when none of the four features is set |
| Complejidad.CalcularFactorComplejidad | access/modelo/valoracion_sistema/backend/app.py:398-494 | the stepwise product, capped, equals the complexity factor and lies in [1.0, 2.8] |
| Complejidad.ComplejidadAlMenosUno | access/modelo/valoracion_sistema/backend/app.py:410-491 | every dimension is at least 1, so the uncapped product is at least 1 |
| Complejidad.FactorComplejidadAcotado | access/modelo/valoracion_sistema/backend/app.py:398-494 | the complexity factor lies in [1.0, 2.8] |
| Complejidad.FactorConcurrenciaMonotono | access/modelo/valoracion_sistema/backend/app.py:450-461 | the concurrency tier never decreases as users grow |
| Complejidad.AplicarFuncionalidadesMonotona | access/modelo/valoracion_sistema/backend/app.py:475-491 | the feature bumps keep the order of two non-negative factors |
| Complejidad.ComplejidadMonotonaEnUsuarios | access/modelo/valoracion_sistema/backend/app.py:398-494 | more concurrent users, all else fixed, never lower the complexity factor |
| Negocio.FactorCriticidad | access/modelo/valoracion_sistema/backend/app.py:511-520 | the criticality multiplier lies in [0.75, 1.5] |
| Negocio.FactorAhorro | access/modelo/valoracion_sistema/backend/app.py:523-534 | the savings tier lies in [1.0, 1.4] and is 1.0 up to one million pesos |
| Negocio.FactorUsuariosTotales | access/modelo/valoracion_sistema/backend/app.py:537-545 | the reach tier lies in [1.0, 1.25] and is 1.0 up to 20 users |
| Negocio.FactorRoi | access/modelo/valoracion_sistema/backend/app.py:548-556 | the ROI tier lies in [1.0, 1.3] and differs from 1.0 only for positive savings and investment with a ratio above 0.5 |
| Negocio.FactorSectorNegocio | access/modelo/valoracion_sistema/backend/app.py:559-565 | the sector premium lies in [1.0, 1.18] |
| Negocio.AjusteEficiencia | access/modelo/valoracion_sistema/backend/app.py:568-574 | the duration adjustment moves the factor by at most 5 %; up only for delivery under 3 months with a factor above 1.2, down only beyond 24 months |
| Negocio.CalcularFactorNegocio | access/modelo/valoracion_sistema/backend/app.py:496-577 | the stepwise product, capped, equals the business factor and lies in [0.7125, 3.5] |
| Negocio.FactorNegocioAcotado | access/modelo/valoracion_sistema/backend/app.py:496-577 | the business factor lies in [0.7125, 3.5] |
| Negocio.FactorCriticidadMonotono | access/modelo/valoracion_sistema/backend/app.py:513-519 | on 1..5 a higher criticality never has a lower multiplier |
| Negocio.AjusteEficienciaMonotono | access/modelo/valoracion_sistema/backend/app.py:568-574 | the duration adjustment keeps the order of two factors |
| Negocio.NegocioMonotonoEnCriticidad | access/modelo/valoracion_sistema/backend/app.py:496-577 | a more critical system, all else fixed, never has a lower business factor |
| Negocio.FactorAhorroMonotono | access/modelo/valoracion_sistema/backend/app.py:523-534 | more savings never lower the savings tier |
| Negocio.FactorRoiMonotono | access/modelo/valoracion_sistema/backend/app.py:548-556 | with the investment fixed, more savings never lower the ROI tier |
| Negocio.NegocioMonotonoEnAhorro | access/modelo/valoracion_sistema/backend/app.py:496-577 | larger savings, all else fixed, never lower the business factor |
| Colombia.Prima | access/modelo/valoracion_sistema/backend/app.py:594-643 | every obligation's premium lies in [1.08, 1.25] |
| Colombia.SegunSector | access/modelo/valoracion_sistema/backend/app.py:604-611 | the sector check charges at most one obligation |
| Colombia.BonoCumplimientos | access/modelo/valoracion_sistema/backend/app.py:645-651 | the bonus for several obligations lies in [1.0, 1.08] |
| Colombia.EtiquetasEn | access/modelo/valoracion_sistema/backend/app.py:592-643 | the recorded labels are the obligations' labels position by position |
| Colombia.PrimasMonotonas | access/modelo/valoracion_sistema/backend/app.py:594-643 | with the sector fixed and more flags set, no check's premium or obligation shrinks |
| Colombia.ObligacionesMonotonas | access/modelo/valoracion_sistema/backend/app.py:594-647 | with the sector fixed, more flags never mean fewer obligations |
| Colombia.ProductoPrimasMonotono | access/modelo/valoracion_sistema/backend/app.py:594-643 | the product of the premiums is at least 1 and grows with the flags |
| Colombia.FactorColombiaAcotado | access/modelo/valoracion_sistema/backend/app.py:579-661 | the regulatory factor lies in [1.05, 2.2] |
| Colombia.FactorColombiaMonotono | access/modelo/valoracion_sistema/backend/app.py:579-661 | with the sector fixed, setting more flags never lowers the regulatory factor |
| Colombia.ObligacionSiiNormativa | access/modelo/valoracion_sistema/backend/app.py:594-643 | a flag's obligation is charged exactly when the flag is set |
| Colombia.EnObligaciones | access/modelo/valoracion_sistema/backend/app.py:594-643 | an obligation is charged exactly when one of the flag checks or the sector check charges it |
| Colombia.ObligacionSectorSiiSector | access/modelo/valoracion_sistema/backend/app.py:604-611 | the public and financial obligations are charged exactly for those sectors |
| Colombia.EtiquetasDistintas | access/modelo/valoracion_sistema/backend/app.py:597-643 | different obligations have different labels |
| Colombia.EtiquetaSiiNormativa | access/modelo/valoracion_sistema/backend/app.py:592-658 | a flag's label is recorded exactly when the flag is set |
| Confianza.CamposCompletos | access/modelo/valoracion_sistema/backend/app.py:665-671 | between 3 and 5 critical fields are filled; 5 exactly when the category and the technology are not null |
| Confianza.PorCerteza | access/modelo/valoracion_sistema/backend/app.py:674-678 | the certainty multiplier lies in [0.8, 1.1] |
| Confianza.PorTipoValoracion | access/modelo/valoracion_sistema/backend/app.py:709-713 | the stance multiplier lies in [0.9, 1.05] |
| Confianza.BonoIso | access/modelo/valoracion_sistema/backend/app.py:715-719 | the ISO bonus lies in [0, 0.2], is 0 without scores and 0.2 from nine scores on |
| Confianza.CalcularConfianza | access/modelo/valoracion_sistema/backend/app.py:663-721 | the stepwise score equals the confidence and lies in [0.2, 1.0] |
| Confianza.AplicarCerteza | access/modelo/valoracion_sistema/backend/app.py:674-678 | applies the certainty multiplier to the running score |
| Confianza.AplicarInformacion | access/modelo/valoracion_sistema/backend/app.py:682-695 | applies the "no" or "estimated" multiplier of one piece of information |
| Confianza.AplicarTipoValoracion | access/modelo/valoracion_sistema/backend/app.py:709-713 | applies the stance multiplier to the running score |
| Confianza.ConfianzaFinal | access/modelo/valoracion_sistema/backend/app.py:715-721 | capping the adjusted score plus the bonus gives the confidence, in [0.2, 1.0] |
| Confianza.AjustesAcotados | access/modelo/valoracion_sistema/backend/app.py:680-706 | each information and context adjustment lies between its multiplier and 1 |
| Confianza.ConfianzaAcotada | access/modelo/valoracion_sistema/backend/app.py:663-721 | the confidence lies in [0.2, 1.0] |
| Confianza.NoConocerTiempoNoSube | access/modelo/valoracion_sistema/backend/app.py:682-685 | answering "no" about the development time never raises the confidence |
| Confianza.NoConocerInversionNoSube | access/modelo/valoracion_sistema/backend/app.py:687-690 | answering "no" about the investment never raises the confidence |
| Confianza.NoConocerAhorrosNoSube | access/modelo/valoracion_sistema/backend/app.py:692-695 | answering "no" about the savings never raises the confidence |
| Confianza.BonoIsoMonotono | access/modelo/valoracion_sistema/backend/app.py:715-719 | more ISO scores never lower the bonus |
| Ajuste.PorPostura | access/modelo/valoracion_sistema/backend/app.py:728-732 | the stance multiplier lies in [0.85, 1.15] |
| Ajuste.PorTecnologiaBarata | access/modelo/valoracion_sistema/backend/app.py:756-762 | the low-cost discount lies in [0.6, 1.0] |
| Ajuste.PorDatoFaltante | access/modelo/valoracion_sistema/backend/app.py:765-769 | the multiplier is 0.9 exactly for a "no" answer and 1.0 otherwise |
| Ajuste.CalcularFactorValoracion | access/modelo/valoracion_sistema/backend/app.py:723-771 | the stepwise product, floored, equals the valuation factor and lies in [0.4, 1.518] |
| Ajuste.ContextoAcotado | access/modelo/valoracion_sistema/backend/app.py:734-753 | each context adjustment lies between its multiplier and 1 |
| Ajuste.FactorValoracionAcotado | access/modelo/valoracion_sistema/backend/app.py:723-771 | the valuation factor lies in [0.4, 1.518] |
| Ajuste.TecnologiaBarataPrecedencia | access/modelo/valoracion_sistema/backend/app.py:756-762 | "access" takes precedence over "excel" and "vb_net"; the discount applies exactly when one of the three occurs |
| Ajuste.NoConocerTiempoNoSube | access/modelo/valoracion_sistema/backend/app.py:765-766 | answering "no" about the development time never raises the valuation factor |
| Ajuste.NoConocerInversionNoSube | access/modelo/valoracion_sistema/backend/app.py:768-769 | answering "no" about the investment never raises the valuation factor |
| Ajuste.CalcularMargenIncertidumbre | access/modelo/valoracion_sistema/backend/app.py:773-794 | the stepwise margin, with the `any` as a loop, equals the margin and lies in [0.12, 0.45] |
| Ajuste.MargenAcotado | access/modelo/valoracion_sistema/backend/app.py:773-794 | the raw margin lies in [0.12, 0.5], so the 10 % floor never applies and the margin lies in [0.12, 0.45] |
| Ajuste.NoConocerTiempoEnsancha | access/modelo/valoracion_sistema/backend/app.py:778-779 | answering "no" about the development time never narrows the margin |
| Ajuste.NoConocerInversionEnsancha | access/modelo/valoracion_sistema/backend/app.py:781-782 | answering "no" about the investment never narrows the margin |
| Ajuste.CertezaBajaMasAncha | access/modelo/valoracion_sistema/backend/app.py:784-787 | low certainty never gives a narrower margin than high certainty |
| Motor.DesglosePorPartes | access/modelo/valoracion_sistema/backend/app.py:140-186 | the breakdown is assembled from the values of its parts |
| Motor.AjustarPorFuncionalidades | access/modelo/valoracion_sistema/backend/app.py:234-280 | the nine feature checks add the hours of the set features and log their lines in order |
| Motor.SumarFuncionalidad | access/modelo/valoracion_sistema/backend/app.py:237-280 | one feature check adds its hours and its line exactly when the feature is set |
| Motor.CalcularFactorTecnologia | access/modelo/valoracion_sistema/backend/app.py:283-291 | the configured factor, overridden by the "access" test, is the effort technology multiplier |
| Motor.AplicarNormativa | access/modelo/valoracion_sistema/backend/app.py:595-643 | one flag check multiplies by the flag's premium and records its label exactly when the flag is set |
| Motor.AplicarSector | access/modelo/valoracion_sistema/backend/app.py:604-611 | the sector check multiplies by the sector premium and records its label for the public and financial sectors |
| Motor.AplicarPrimas | access/modelo/valoracion_sistema/backend/app.py:591-643 | the nine checks give the product of their premiums and the compliance labels in order |
| Motor.AjustarEstimacion | access/modelo/valoracion_sistema/backend/app.py:293-343 | the multipliers, the calibration and the legacy surcharge give the staged estimate |
| Motor.Combinar | access/modelo/valoracion_sistema/backend/app.py:160-189 | the base value, the adjusted value and the rounded band form the valuation record of the breakdown |
| Motor.RedondearBanda | access/modelo/valoracion_sistema/backend/app.py:166-175 | the band ends and the average are the rounded value × (1 − margin), value × (1 + margin) and value |
| Motor.ColombiaPorEtapas | access/modelo/valoracion_sistema/backend/app.py:645-661 | the bonus, the 5 % market factor and the cap applied to the premiums give the regulatory factor |
| Motor.ValorarFallaSiiSinTecnologia | access/modelo/valoracion_sistema/backend/app.py:138-199 | a valuation fails exactly when the technology is null, with the lower-casing error message |
| Motor.DesgloseDeEnRango | access/modelo/valoracion_sistema/backend/app.py:140-186 | every breakdown has at least 34 hours, a rate in [12000, 171000] and each factor within its proved range |
| Motor.ValorAjustadoAlMenos | access/modelo/valoracion_sistema/backend/app.py:161-162 | an adjusted value from a breakdown in range is at least 36628.2 |
| Motor.BandaOrdenada | access/modelo/valoracion_sistema/backend/app.py:166-175 | for a non-negative value and margin, lower end ≤ average ≤ upper end |
| Motor.BandaAncho | access/modelo/valoracion_sistema/backend/app.py:166-175 | the band is twice the margin times the value wide, within one unit of rounding |
| Motor.BandaAlMenos | access/modelo/valoracion_sistema/backend/app.py:166-173 | a value of at least 36628.2 with a margin of at most 0.45 has a lower end of at least 20146 |
| Motor.ArmarValoracionAcotada | access/modelo/valoracion_sistema/backend/app.py:160-189 | the record of a breakdown in range has 20146 ≤ minimum ≤ average ≤ maximum |
| Motor.ValoracionAcotada | access/modelo/valoracion_sistema/backend/app.py:132-199 | a questionnaire with a technology is valued with 20146 ≤ minimum ≤ average ≤ maximum, a margin in [0.12, 0.45] and a confidence in [0.2, 1.0] |
| Motor.ArmarMonotonoEnColombia | access/modelo/valoracion_sistema/backend/app.py:160-175 | a larger regulatory factor, all else equal, never lowers the rounded average |
| Motor.DesgloseSegunNormativas | access/modelo/valoracion_sistema/backend/app.py:140-186 | the compliance flags change only the regulatory factor of the breakdown |
| Motor.ValorPromedioMonotonoEnNormativas | access/modelo/valoracion_sistema/backend/app.py:132-199 | setting more compliance flags never lowers the average value |
| Motor.MotorValoracion.constructor | access/modelo/valoracion_sistema/backend/app.py:94-95 | a new engine has recorded no details |
| Motor.MotorValoracion.EstimarHoras | access/modelo/valoracion_sistema/backend/app.py:201-359 | returns the rounded estimate and records its breakdown |
| Motor.MotorValoracion.CalcularFactorColombia | access/modelo/valoracion_sistema/backend/app.py:579-661 | returns the regulatory factor, in [1.05, 2.2], and records the compliance labels |
| Motor.MotorValoracion.CalcularValor | access/modelo/valoracion_sistema/backend/app.py:132-199 | returns the valuation of the questionnaire; with a technology it records both details, and with a null technology it fails and records nothing |
| Endpoint.Truncar | access/modelo/valoracion_sistema/backend/app.py:872 | `int(x)` is the integer within one unit of x on its side of zero (truncation toward zero) |
| Endpoint.TruncarEjemplos | access/modelo/valoracion_sistema/backend/app.py:872 | int(2.7) = 2, int(−2.7) = −2, int(−0.5) = 0 |
| Endpoint.NormalizarEnRango | access/modelo/valoracion_sistema/backend/app.py:894-898 | after normalisation there is at least one concurrent user and the criticality lies in 1..5 |
| Endpoint.NormalizarConserva | access/modelo/valoracion_sistema/backend/app.py:868-898 | an in-range value passes unchanged; an empty or unparsable value takes its field's default |
| Endpoint.NormalizarSoloNumericos | access/modelo/valoracion_sistema/backend/app.py:884-898 | normalisation changes only the eight numeric fields |
| Endpoint.RechazoSiiFaltanDatos | access/modelo/valoracion_sistema/backend/app.py:856-864 | status 400 exactly for an empty body or a missing required key, with the first failing check's message |
| Endpoint.AceptadaSegunTecnologia | access/modelo/valoracion_sistema/backend/app.py:900-910 | a request that passes the checks gets 500 exactly when its technology is null, otherwise 200 with an ordered band above 20146 |
| Endpoint.ValorarSoftware | access/modelo/valoracion_sistema/backend/app.py:850-910 | the response is `Responder(s)`; a 200 leaves the shared engine holding the hour details and compliance labels of the normalised request, and a 400 or 500 leaves both as they were |

## Left out

- **Flask, SQLite and the PDF report.** Routing, JSON parsing of the request, `init_database`, `_guardar_valoracion` with the stored record's identifier, and the other endpoints are not modelled. The success response's timestamp is not modelled either.
- **Floating point.** Arithmetic is on exact reals, so IEEE rounding of intermediate products is not captured. The rounding of the final values follows Python's round-half-to-even on the exact value.
- **Number parsing.** The endpoint's `safe_int` and `safe_float` take an already-parsed number (`Endpoint.Campo.Numero`) or a value `float()` rejects (`NoNumerico`). String-to-float parsing and `int()` of an infinity or NaN are not modelled.
- **Lower-casing.** `str.lower` is modelled on ASCII letters only.
- **Null flag objects.** `funcionalidades` or `contexto_desarrollo` sent as `null` would raise in the engine. The model takes them as sets, so a null object reads as an empty one.
- **Non-numeric ISO scores.** The ISO scores are numbers. A non-numeric score, which would raise in the quality factor, is not modelled.
- **Missing technology key.** The model takes it that the `tecnologia_principal` key is present, as the endpoint guarantees. Called directly with the key absent, `calcular_valor` raises on `datos_software['tecnologia_principal']`.
- **Other failures.** The only engine failure modelled is the null technology tag. The endpoint's catch-all `except` (status 500, "Error interno") is not modelled, nor is a body that is not JSON.
- **Ordering and mutation.** The effort estimator tests the features in a fixed order and the regulatory factor its flags in source order; both are modelled as sequences. Mutation of the request dictionary by the endpoint is modelled as the pure `Endpoint.Normalizar`.
- Motor.MotorValoracion.CalcularValor: the result has no stored-record `id`, because storage is not modelled.
- Endpoint.ValorarSoftware: the success body has no timestamp, because the clock is not modelled.
- **Concurrency.** The engine is shared by concurrent requests in the source. The model is single-threaded.
