/** The configuration page: field edits on a local copy of the configuration, the
    salary-precedence recomputation of hourly rates, saving and restoring
    (src/pages/Configuration.tsx). */
module Configuration {
  import opened DefectTypes
  import opened DefaultData
  import Simulator

  // ---------------------------------------------------------------------------------------
  // Work settings

  datatype WorkField = HorasPorDia | DiasPorMes

  /** `updateWorkSettings`: the named work setting takes the value; nothing else changes. */
  function UpdateWorkSettings(config: SystemConfig, field: WorkField, value: real): (r: SystemConfig)
    ensures field == HorasPorDia ==> r.workSettings.horasPorDia == value && r.workSettings.diasPorMes == config.workSettings.diasPorMes
    ensures field == DiasPorMes ==> r.workSettings.diasPorMes == value && r.workSettings.horasPorDia == config.workSettings.horasPorDia
    ensures r.jobRoles == config.jobRoles
    ensures r.phaseMultipliers == config.phaseMultipliers && r.impactMultipliers == config.impactMultipliers
  {
    var ws := config.workSettings;
    config.(workSettings := match field
                            case HorasPorDia => ws.(horasPorDia := value)
                            case DiasPorMes => ws.(diasPorMes := value))
  }

  // ---------------------------------------------------------------------------------------
  // Job roles

  /** The role fields the page lets the user edit, with the value typed in. */
  datatype RoleEdit =
    | SetSalarioMinimo(minimo: real)
    | SetSalarioMaximo(maximo: real)
    | SetMediaMercado(media: real)
    | SetSalarioPraticado(praticado: Option<real>)
  {
    /** Only the two salaries that feed the rate trigger a recomputation. */
    predicate Recomputes() {
      SetMediaMercado? || SetSalarioPraticado?
    }
  }

  /** `salarioPraticado || mediaMercado`: a truthy actual salary wins, otherwise the market average. */
  function SalaryToUse(role: JobRole): (r: real)
    ensures Truthy(role.salarioPraticado) ==> r == role.salarioPraticado.value
    ensures !Truthy(role.salarioPraticado) ==> r == role.mediaMercado
  {
    if Truthy(role.salarioPraticado) then role.salarioPraticado.value else role.mediaMercado
  }

  /** The hourly rate the precedence rule gives under the given work settings. */
  function PrecedenceRate(role: JobRole, ws: WorkSettings): (r: real)
    requires HoursPerMonth(ws) != 0.0
    ensures r * HoursPerMonth(ws) == SalaryToUse(role)
  {
    CostPerHour(SalaryToUse(role), ws.horasPorDia, ws.diasPorMes)
  }

  /** A role whose stored rate is what the precedence rule gives. */
  predicate RateConsistent(role: JobRole, ws: WorkSettings)
    requires HoursPerMonth(ws) != 0.0
  {
    role.custoHora == PrecedenceRate(role, ws)
  }

  /** The object spread `{ ...role, [field]: value }`: the edited field takes the value. */
  function SetField(role: JobRole, edit: RoleEdit): (r: JobRole)
    ensures r.id == role.id && r.name == role.name && r.level == role.level && r.category == role.category
    ensures r.custoHora == role.custoHora
    ensures r.salarioMinimo == (if edit.SetSalarioMinimo? then edit.minimo else role.salarioMinimo)
    ensures r.salarioMaximo == (if edit.SetSalarioMaximo? then edit.maximo else role.salarioMaximo)
    ensures r.mediaMercado == (if edit.SetMediaMercado? then edit.media else role.mediaMercado)
    ensures r.salarioPraticado == (if edit.SetSalarioPraticado? then edit.praticado else role.salarioPraticado)
  {
    match edit
    case SetSalarioMinimo(v) => role.(salarioMinimo := v)
    case SetSalarioMaximo(v) => role.(salarioMaximo := v)
    case SetMediaMercado(v) => role.(mediaMercado := v)
    case SetSalarioPraticado(v) => role.(salarioPraticado := v)
  }

  /** The per-role step of `updateJobRole`: set the field, then recompute the rate when the
      field is one of the two salaries that feed it. */
  function ApplyEdit(role: JobRole, edit: RoleEdit, ws: WorkSettings): (r: JobRole)
    requires edit.Recomputes() ==> HoursPerMonth(ws) != 0.0
    // the edited field takes the value, the others keep theirs
    ensures r.id == role.id && r.name == role.name && r.level == role.level && r.category == role.category
    ensures r.salarioMinimo == (if edit.SetSalarioMinimo? then edit.minimo else role.salarioMinimo)
    ensures r.salarioMaximo == (if edit.SetSalarioMaximo? then edit.maximo else role.salarioMaximo)
    ensures r.mediaMercado == (if edit.SetMediaMercado? then edit.media else role.mediaMercado)
    ensures r.salarioPraticado == (if edit.SetSalarioPraticado? then edit.praticado else role.salarioPraticado)
    // editing a salary that feeds the rate leaves the role consistent; the band fields leave the rate
    ensures edit.Recomputes() ==> RateConsistent(r, ws)
    ensures !edit.Recomputes() ==> r.custoHora == role.custoHora
  {
    var updated := SetField(role, edit);
    if edit.Recomputes() then updated.(custoHora := PrecedenceRate(updated, ws)) else updated
  }

  /** `updateJobRole`: every role with the id is edited, every other role is left as it was,
      and the list keeps its length and order. */
  function UpdateJobRole(config: SystemConfig, roleId: string, edit: RoleEdit): (r: SystemConfig)
    requires edit.Recomputes() ==> HoursPerMonth(config.workSettings) != 0.0
    ensures |r.jobRoles| == |config.jobRoles|
    ensures forall i :: 0 <= i < |config.jobRoles| && config.jobRoles[i].id == roleId ==>
      r.jobRoles[i] == ApplyEdit(config.jobRoles[i], edit, config.workSettings)
    ensures forall i :: 0 <= i < |config.jobRoles| && config.jobRoles[i].id != roleId ==>
      r.jobRoles[i] == config.jobRoles[i]
    ensures r.workSettings == config.workSettings
    ensures r.phaseMultipliers == config.phaseMultipliers && r.impactMultipliers == config.impactMultipliers
  {
    var roles := config.jobRoles;
    config.(jobRoles := seq(|roles|, i requires 0 <= i < |roles| =>
      if roles[i].id == roleId then ApplyEdit(roles[i], edit, config.workSettings) else roles[i]))
  }

  // ---------------------------------------------------------------------------------------
  // Phase multipliers

  /** `updatePhaseMultiplier`: the named phase's multiplier takes the value; nothing else changes. */
  function UpdatePhaseMultiplier(config: SystemConfig, phase: Phase, value: real): (r: SystemConfig)
    ensures r.phaseMultipliers.At(phase) == value
    ensures forall q :: q != phase ==> r.phaseMultipliers.At(q) == config.phaseMultipliers.At(q)
    ensures r.workSettings == config.workSettings && r.jobRoles == config.jobRoles
    ensures r.impactMultipliers == config.impactMultipliers
  {
    config.(phaseMultipliers := config.phaseMultipliers.With(phase, value))
  }

  // ---------------------------------------------------------------------------------------
  // Saving

  /** The configuration `saveConfiguration` stores: every role's rate recomputed by the
      precedence rule under the current work settings. */
  function RecomputeRates(config: SystemConfig): (r: SystemConfig)
    requires HoursPerMonth(config.workSettings) != 0.0
    ensures |r.jobRoles| == |config.jobRoles|
    ensures forall i :: 0 <= i < |r.jobRoles| ==>
      r.jobRoles[i] == config.jobRoles[i].(custoHora := PrecedenceRate(config.jobRoles[i], config.workSettings))
    ensures r.workSettings == config.workSettings
    ensures RatesConsistent(r)
    ensures r.phaseMultipliers == config.phaseMultipliers && r.impactMultipliers == config.impactMultipliers
  {
    var roles := config.jobRoles;
    var ws := config.workSettings;
    var r := config.(jobRoles := seq(|roles|, i requires 0 <= i < |roles| =>
      roles[i].(custoHora := PrecedenceRate(roles[i], ws))));
    assert forall i :: 0 <= i < |r.jobRoles| ==> SalaryToUse(r.jobRoles[i]) == SalaryToUse(roles[i]);
    r
  }

  /** Every stored rate is the precedence-rule rate. */
  predicate RatesConsistent(config: SystemConfig)
    requires HoursPerMonth(config.workSettings) != 0.0
  {
    forall i :: 0 <= i < |config.jobRoles| ==> RateConsistent(config.jobRoles[i], config.workSettings)
  }

  /** A configuration whose rates are already consistent is stored unchanged. */
  lemma RecomputeConsistentIsIdentity(config: SystemConfig)
    requires HoursPerMonth(config.workSettings) != 0.0
    requires RatesConsistent(config)
    ensures RecomputeRates(config) == config
  {
    var r := RecomputeRates(config);
    assert r.jobRoles == config.jobRoles by {
      forall i | 0 <= i < |r.jobRoles| ensures r.jobRoles[i] == config.jobRoles[i] {
        assert RateConsistent(config.jobRoles[i], config.workSettings);
      }
    }
  }

  /** Saving twice stores the same configuration as saving once. */
  lemma RecomputeRatesIdempotent(config: SystemConfig)
    requires HoursPerMonth(config.workSettings) != 0.0
    ensures RecomputeRates(RecomputeRates(config)) == RecomputeRates(config)
  {
    RecomputeConsistentIsIdentity(RecomputeRates(config));
  }

  /** After saving, the rate a simulator line captures for any role is the precedence-rule rate:
      the actual salary's rate when it is truthy, and the recomputed market-average rate otherwise. */
  lemma SavedRatesMatchSimulator(config: SystemConfig, i: nat)
    requires HoursPerMonth(config.workSettings) != 0.0
    requires i < |config.jobRoles|
    ensures var saved := RecomputeRates(config);
      Simulator.RateFor(saved.jobRoles[i], saved.workSettings) == PrecedenceRate(config.jobRoles[i], config.workSettings)
  {
  }

  /** Editing a salary that feeds the rate leaves every role consistent that was consistent before. */
  lemma EditKeepsRatesConsistent(config: SystemConfig, roleId: string, edit: RoleEdit)
    requires HoursPerMonth(config.workSettings) != 0.0
    requires RatesConsistent(config) && edit.Recomputes()
    ensures RatesConsistent(UpdateJobRole(config, roleId, edit))
  {
  }

  /** Editing a band field of a consistent configuration keeps it consistent too, since the
      band does not feed the rate. */
  lemma BandEditKeepsRatesConsistent(config: SystemConfig, roleId: string, edit: RoleEdit)
    requires HoursPerMonth(config.workSettings) != 0.0
    requires RatesConsistent(config) && !edit.Recomputes()
    ensures RatesConsistent(UpdateJobRole(config, roleId, edit))
  {
    var r := UpdateJobRole(config, roleId, edit);
    forall i | 0 <= i < |r.jobRoles| ensures RateConsistent(r.jobRoles[i], r.workSettings) {
      var before := config.jobRoles[i];
      assert RateConsistent(before, config.workSettings);
      assert SalaryToUse(r.jobRoles[i]) == SalaryToUse(before);
    }
  }

  // ---------------------------------------------------------------------------------------
  // The numeric inputs

  /** `parseInt(text) || fallback` for the work settings: a missing parse (NaN) or 0 gives the
      fallback, any other whole number is taken as typed. */
  function WholeOr(parsed: Option<int>, fallback: real): (r: real)
    ensures parsed.Some? && parsed.value != 0 ==> r == parsed.value as real
    ensures parsed.None? || parsed.value == 0 ==> r == fallback
    ensures fallback != 0.0 ==> r != 0.0
  {
    if parsed.Some? && parsed.value != 0 then parsed.value as real else fallback
  }

  /** `parseFloat(text) || fallback` for the phase multipliers. Negative values pass through. */
  function NumberOr(parsed: Option<real>, fallback: real): (r: real)
    ensures Truthy(parsed) ==> r == parsed.value
    ensures !Truthy(parsed) ==> r == fallback
    ensures fallback != 0.0 ==> r != 0.0
  {
    if Truthy(parsed) then parsed.value else fallback
  }

  /** The fallback of each work-settings field: 8 hours a day and 22 days a month. */
  function WorkFallback(field: WorkField): (r: real)
    ensures field == HorasPorDia ==> r == DefaultWorkSettings.horasPorDia
    ensures field == DiasPorMes ==> r == DefaultWorkSettings.diasPorMes
    ensures r > 0.0
  {
    match field
    case HorasPorDia => 8.0
    case DiasPorMes => 22.0
  }

  /** The fallback of each phase multiplier: 1, 5, 10 and 30. */
  function PhaseFallback(phase: Phase): (r: real)
    ensures r == DefaultPhaseMultipliers.At(phase)
    ensures r > 0.0
  {
    match phase
    case Desenvolvimento => 1.0
    case Teste => 5.0
    case Homologacao => 10.0
    case Producao => 30.0
  }

  /** Each fallback is the corresponding default, so none of them is 0. */
  lemma FallbacksAreDefaults()
    ensures WorkFallback(HorasPorDia) == DefaultWorkSettings.horasPorDia
    ensures WorkFallback(DiasPorMes) == DefaultWorkSettings.diasPorMes
    ensures forall p :: PhaseFallback(p) == DefaultPhaseMultipliers.At(p) && PhaseFallback(p) != 0.0
  {
  }

  /** The phase inputs guard against 0 and NaN only: a negative multiplier is stored as typed. */
  lemma NegativeMultiplierAccepted()
    ensures NumberOr(Some(-2.0), PhaseFallback(Teste)) == -2.0
  {
  }

  /** Which salary a salary input edits. */
  datatype SalaryField = SalarioMinimoField | SalarioMaximoField | MediaMercadoField | SalarioPraticadoField

  /** The edit a salary input produces from its text: the three band fields take
      `parseInt(text) || 0`; the actual salary is cleared by an empty text and otherwise takes
      the parse, where a failed parse (NaN) is kept as absent, which every use reads the same way. */
  function SalaryEdit(field: SalaryField, empty: bool, parsed: Option<int>): (e: RoleEdit)
    requires empty ==> parsed.None?
    // each band input edits its own field, with the parse or 0
    ensures field == SalarioMinimoField ==> e == SetSalarioMinimo(WholeOr(parsed, 0.0))
    ensures field == SalarioMaximoField ==> e == SetSalarioMaximo(WholeOr(parsed, 0.0))
    ensures field == MediaMercadoField ==> e == SetMediaMercado(WholeOr(parsed, 0.0))
    // the actual-salary input stores a parsed number and is cleared by anything else
    ensures field == SalarioPraticadoField <==> e.SetSalarioPraticado?
    ensures field == SalarioPraticadoField && parsed.Some? ==> e.praticado == Some(parsed.value as real)
    ensures field == SalarioPraticadoField && (empty || parsed.None?) ==> e.praticado == None
  {
    var whole := WholeOr(parsed, 0.0);
    match field
    case SalarioMinimoField => SetSalarioMinimo(whole)
    case SalarioMaximoField => SetSalarioMaximo(whole)
    case MediaMercadoField => SetMediaMercado(whole)
    case SalarioPraticadoField =>
      SetSalarioPraticado(if empty then None else match parsed
                                                  case None => None
                                                  case Some(n) => Some(n as real))
  }

  lemma MulNonZero(a: real, b: real)
    requires a != 0.0 && b != 0.0
    ensures a * b != 0.0
  {
  }

  // ---------------------------------------------------------------------------------------
  // The page's state

  class ConfigurationPage {
    /** The stored configuration. */
    var config: SystemConfig
    /** The copy under edit. */
    var localConfig: SystemConfig

    /** Neither work setting is 0, so every rate division is defined. */
    ghost predicate Valid()
      reads this
    {
      localConfig.workSettings.horasPorDia != 0.0 && localConfig.workSettings.diasPorMes != 0.0
    }

    constructor (stored: SystemConfig)
      requires stored.workSettings.horasPorDia != 0.0 && stored.workSettings.diasPorMes != 0.0
      ensures Valid()
      ensures config == stored && localConfig == stored
    {
      config := stored;
      localConfig := stored;
    }

    method SetWorkSetting(field: WorkField, value: real)
      modifies this`localConfig
      ensures localConfig == UpdateWorkSettings(old(localConfig), field, value)
      ensures old(Valid()) && value != 0.0 ==> Valid()
    {
      localConfig := UpdateWorkSettings(localConfig, field, value);
    }

    /** The work-settings inputs: the parse, with its fallback, goes to `updateWorkSettings`. */
    method OnWorkSettingInput(field: WorkField, parsed: Option<int>)
      requires Valid()
      modifies this`localConfig
      ensures Valid()
      ensures localConfig == UpdateWorkSettings(old(localConfig), field, WholeOr(parsed, WorkFallback(field)))
    {
      SetWorkSetting(field, WholeOr(parsed, WorkFallback(field)));
    }

    method EditJobRole(roleId: string, edit: RoleEdit)
      requires Valid()
      modifies this`localConfig
      ensures Valid()
      ensures localConfig == UpdateJobRole(old(localConfig), roleId, edit)
    {
      MulNonZero(localConfig.workSettings.horasPorDia, localConfig.workSettings.diasPorMes);
      localConfig := UpdateJobRole(localConfig, roleId, edit);
    }

    /** The salary inputs of a role's card. */
    method OnSalaryInput(roleId: string, field: SalaryField, empty: bool, parsed: Option<int>)
      requires Valid()
      requires empty ==> parsed.None?
      modifies this`localConfig
      ensures Valid()
      ensures localConfig == UpdateJobRole(old(localConfig), roleId, SalaryEdit(field, empty, parsed))
    {
      EditJobRole(roleId, SalaryEdit(field, empty, parsed));
    }

    method SetPhaseMultiplier(phase: Phase, value: real)
      requires Valid()
      modifies this`localConfig
      ensures Valid()
      ensures localConfig == UpdatePhaseMultiplier(old(localConfig), phase, value)
    {
      localConfig := UpdatePhaseMultiplier(localConfig, phase, value);
    }

    /** The phase-multiplier inputs: the parse, with its fallback, goes to `updatePhaseMultiplier`;
        no multiplier becomes 0 this way. */
    method OnPhaseMultiplierInput(phase: Phase, parsed: Option<real>)
      requires Valid()
      modifies this`localConfig
      ensures Valid()
      ensures localConfig == UpdatePhaseMultiplier(old(localConfig), phase, NumberOr(parsed, PhaseFallback(phase)))
      ensures localConfig.phaseMultipliers.At(phase) != 0.0
    {
      SetPhaseMultiplier(phase, NumberOr(parsed, PhaseFallback(phase)));
    }

    /** `saveConfiguration`: the recomputed configuration becomes both the stored and the local one. */
    method SaveConfiguration()
      requires Valid()
      modifies this
      ensures Valid()
      ensures HoursPerMonth(old(localConfig).workSettings) != 0.0
      ensures config == RecomputeRates(old(localConfig)) && localConfig == config
    {
      MulNonZero(localConfig.workSettings.horasPorDia, localConfig.workSettings.diasPorMes);
      var updated := RecomputeRates(localConfig);
      config := updated;
      localConfig := updated;
    }

    /** `restoreDefaults`: the local copy goes back to the defaults; the stored one is kept. */
    method RestoreDefaults()
      modifies this`localConfig
      ensures Valid()
      ensures localConfig == DefaultSystemConfig
    {
      localConfig := DefaultSystemConfig;
    }
  }
}
