/** The default configuration and the hourly-rate resolver (src/lib/defaultData.ts). */
module DefaultData {
  import opened DefectTypes

  /** Hours worked in a month: the denominator of every hourly rate. */
  function HoursPerMonth(ws: WorkSettings): (r: real) {
    ws.horasPorDia * ws.diasPorMes
  }

  /** `calculateCostPerHour`: a monthly salary spread over the hours worked in a month.
      The source divides without a guard; a zero denominator is excluded here. */
  function CostPerHour(salary: real, hoursPerDay: real, daysPerMonth: real): (r: real)
    requires hoursPerDay * daysPerMonth != 0.0
    ensures r * (hoursPerDay * daysPerMonth) == salary
  {
    salary / (hoursPerDay * daysPerMonth)
  }

  /** The rate is determined by the salary: it is the unique `r` with `r * hours == salary`. */
  lemma CostPerHourUnique(salary: real, h: real, d: real, r: real)
    requires h * d != 0.0
    requires r * (h * d) == salary
    ensures r == CostPerHour(salary, h, d)
  {
    var m := h * d;
    var c := CostPerHour(salary, h, d);
    assert (r - c) * m == 0.0;
  }

  /** With a non-negative salary and positive work settings the rate is non-negative. */
  lemma CostPerHourNonNegative(salary: real, h: real, d: real)
    requires salary >= 0.0 && h > 0.0 && d > 0.0
    ensures CostPerHour(salary, h, d) >= 0.0
  {
    var m := h * d;
    assert m > 0.0;
  }

  /** The rate is linear in the salary: scaling and adding salaries scales and adds rates. */
  lemma CostPerHourLinear(a: real, s1: real, s2: real, h: real, d: real)
    requires h * d != 0.0
    ensures CostPerHour(a * s1 + s2, h, d) == a * CostPerHour(s1, h, d) + CostPerHour(s2, h, d)
  {
    var m := h * d;
    var r1, r2 := CostPerHour(s1, h, d), CostPerHour(s2, h, d);
    assert (a * r1 + r2) * m == a * (r1 * m) + r2 * m;
    CostPerHourUnique(a * s1 + s2, h, d, a * r1 + r2);
  }

  /** With positive work settings a higher salary never gives a lower rate. */
  lemma CostPerHourMonotone(s1: real, s2: real, h: real, d: real)
    requires s1 <= s2 && h > 0.0 && d > 0.0
    ensures CostPerHour(s1, h, d) <= CostPerHour(s2, h, d)
  {
    CostPerHourLinear(1.0, s2 - s1, s1, h, d);
    CostPerHourNonNegative(s2 - s1, h, d);
    assert s2 == 1.0 * (s2 - s1) + s1;
  }

  const DefaultWorkSettings := WorkSettings(8.0, 22.0)

  const DefaultPhaseMultipliers: PhaseMultipliers := PerPhase(1.0, 5.0, 10.0, 30.0)

  const DefaultImpactMultipliers := ImpactMultipliers(0.0, 1.1, 1.2, 1.3)

  const DefaultJobRoles: seq<JobRole> := [
    JobRole("dev-junior", "Desenvolvedor", Junior, Desenvolvedor, 4000.0, 6000.0, 5000.0, None, 28.41),
    JobRole("dev-pleno", "Desenvolvedor", Pleno, Desenvolvedor, 7000.0, 10000.0, 8500.0, None, 48.30),
    JobRole("dev-senior", "Desenvolvedor", Senior, Desenvolvedor, 12000.0, 18000.0, 15000.0, None, 85.23),
    JobRole("qa-junior", "QA", Junior, Qa, 3500.0, 5500.0, 4500.0, None, 25.57),
    JobRole("qa-pleno", "QA", Pleno, Qa, 6000.0, 9000.0, 7500.0, None, 42.61),
    JobRole("qa-senior", "QA", Senior, Qa, 10000.0, 15000.0, 12500.0, None, 71.02),
    JobRole("po-junior", "Product Owner", Junior, Po, 5000.0, 8000.0, 6500.0, None, 36.93),
    JobRole("po-pleno", "Product Owner", Pleno, Po, 8000.0, 12000.0, 10000.0, None, 56.82),
    JobRole("po-senior", "Product Owner", Senior, Po, 13000.0, 20000.0, 16500.0, None, 93.75),
    JobRole("suporte-junior", "Suporte", Junior, Suporte, 3000.0, 4500.0, 3750.0, None, 21.31),
    JobRole("suporte-pleno", "Suporte", Pleno, Suporte, 4500.0, 7000.0, 5750.0, None, 32.67),
    JobRole("suporte-senior", "Suporte", Senior, Suporte, 7000.0, 12000.0, 9500.0, None, 53.98)
  ]

  const DefaultSystemConfig := SystemConfig(DefaultWorkSettings, DefaultJobRoles, DefaultPhaseMultipliers, DefaultImpactMultipliers)

  /** Role ids are pairwise distinct. */
  predicate DistinctRoleIds(roles: seq<JobRole>) {
    forall i, j :: 0 <= i < j < |roles| ==> roles[i].id != roles[j].id
  }

  /** The market average lies inside the salary band. */
  predicate BandOrdered(role: JobRole) {
    role.salarioMinimo <= role.mediaMercado <= role.salarioMaximo
  }

  /** A stored rate that is the market average over the month, rounded to cents (within half a cent). */
  predicate RateRoundedFromAverage(role: JobRole, ws: WorkSettings)
    requires HoursPerMonth(ws) != 0.0
  {
    var exact := CostPerHour(role.mediaMercado, ws.horasPorDia, ws.diasPorMes);
    -0.005 <= role.custoHora - exact <= 0.005
  }

  lemma DefaultWorkSettingsValues()
    ensures DefaultWorkSettings.horasPorDia == 8.0 && DefaultWorkSettings.diasPorMes == 22.0
    ensures HoursPerMonth(DefaultWorkSettings) == 176.0
  {
  }

  /** Default phase multipliers are positive and strictly increasing: 1 < 5 < 10 < 30. */
  lemma DefaultPhaseMultipliersIncreasing()
    ensures forall p :: DefaultPhaseMultipliers.At(p) > 0.0
    ensures forall p: Phase, q: Phase :: p.Index() < q.Index() ==> DefaultPhaseMultipliers.At(p) < DefaultPhaseMultipliers.At(q)
    ensures DefaultPhaseMultipliers.NonDecreasing()
  {
  }

  /** Default impact multipliers: none is 0, every other classification is positive. */
  lemma DefaultImpactMultipliersValues()
    ensures DefaultImpactMultipliers.At(SemImpacto) == 0.0
    ensures forall i :: i != SemImpacto ==> DefaultImpactMultipliers.At(i) > 0.0
  {
  }

  /** Every default role has an ordered salary band, no salary override, and ids are distinct. */
  lemma DefaultRolesWellFormed()
    ensures |DefaultJobRoles| == 12
    ensures forall i :: 0 <= i < |DefaultJobRoles| ==> BandOrdered(DefaultJobRoles[i])
    ensures forall i :: 0 <= i < |DefaultJobRoles| ==> DefaultJobRoles[i].salarioPraticado == None
    ensures DistinctRoleIds(DefaultJobRoles)
  {
  }

  /** Each stored default rate is the market average over 8 * 22 hours, rounded to two decimals. */
  lemma DefaultRatesRounded()
    ensures forall i :: 0 <= i < |DefaultJobRoles| ==> RateRoundedFromAverage(DefaultJobRoles[i], DefaultWorkSettings)
  {
  }
}
