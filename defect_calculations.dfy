/** The defect cost engine, `calculateDefectCosts` (src/lib/defectCalculations.ts). */
module DefectCalculations {
  import opened DefectTypes
  import opened Folds

  /** The partial defect the caller passes in: every field may be missing. */
  datatype DefectInput = DefectInput(
    titulo: Option<string>,
    horasTotais: Option<real>,
    severidade: Option<Severity>,
    percepcaoImpacto: Option<Impact>,
    ambienteEncontrado: Option<Phase>,
    modulo: Option<string>,
    horasPorCargo: Option<seq<DefectHours>>)

  const EmptyInput := DefectInput(None, None, None, None, None, None, None)

  /** The cost of one line of effort. */
  function EntryCost(h: DefectHours): (r: real) {
    h.hours * h.custoHora
  }

  /** Lines whose hours and rate are both non-negative. */
  predicate NonNegativeEntries(hs: seq<DefectHours>) {
    forall i :: 0 <= i < |hs| ==> hs[i].hours >= 0.0 && hs[i].custoHora >= 0.0
  }

  /** `custoBase`: the `reduce` over the role-hours lines, starting at 0. */
  function TechnicalCost(hs: seq<DefectHours>): (r: real)
    ensures hs == [] ==> r == 0.0
  {
    Sum(EntryCost, hs)
  }

  /** Non-negative hours at non-negative rates cost a non-negative amount. */
  lemma TechnicalCostNonNegative(hs: seq<DefectHours>)
    requires NonNegativeEntries(hs)
    ensures TechnicalCost(hs) >= 0.0
  {
    forall i | 0 <= i < |hs| ensures EntryCost(hs[i]) >= 0.0 {
      MulNonNegative(hs[i].hours, hs[i].custoHora);
    }
    SumNonNegative(EntryCost, hs);
  }

  lemma MulNonNegative(a: real, b: real)
    requires a >= 0.0 && b >= 0.0
    ensures a * b >= 0.0
  {
  }

  /** Adding a line adds exactly that line's cost. */
  lemma TechnicalCostAppend(hs: seq<DefectHours>, h: DefectHours)
    ensures TechnicalCost(hs + [h]) == TechnicalCost(hs) + h.hours * h.custoHora
  {
    SumAppend(EntryCost, hs, [h]);
    SumSingleton(EntryCost, h);
  }

  /** `economias`: filled field by field, one key per phase earlier than the one where the
      defect was found; each value is the technical cost minus that phase's projected cost. */
  function Savings(found: Phase, custoTecnico: real, custoPorFase: PerPhase): (r: map<Phase, real>)
    ensures r.Keys == EarlierPhases(found)
    ensures forall q :: q in r ==> r[q] == custoTecnico - custoPorFase.At(q)
  {
    var e: map<Phase, real> := map[];
    if found == Teste then
      e[Desenvolvimento := custoTecnico - custoPorFase.desenvolvimento]
    else if found == Homologacao then
      e[Desenvolvimento := custoTecnico - custoPorFase.desenvolvimento]
       [Teste := custoTecnico - custoPorFase.teste]
    else if found == Producao then
      e[Desenvolvimento := custoTecnico - custoPorFase.desenvolvimento]
       [Teste := custoTecnico - custoPorFase.teste]
       [Homologacao := custoTecnico - custoPorFase.homologacao]
    else
      e
  }

  /** `custoPorFase`: the technical cost projected onto each phase by that phase's multiplier. */
  function PhaseCosts(c: real, pm: PhaseMultipliers): (r: PerPhase)
    ensures forall p :: r.At(p) == c * pm.At(p)
  {
    PerPhase(c * pm.desenvolvimento, c * pm.teste, c * pm.homologacao, c * pm.producao)
  }

  /** `custoComImpacto`: zero without impact, whatever the no-impact multiplier says;
      otherwise the technical cost scaled by the impact's multiplier. */
  function ImpactCost(c: real, impact: Impact, im: ImpactMultipliers): (r: real)
    ensures impact == SemImpacto ==> r == 0.0
    ensures impact != SemImpacto ==> r == c * im.At(impact)
  {
    if impact == SemImpacto then 0.0 else c * im.At(impact)
  }

  /** `economiaPotencial`: how much more the defect costs where it was found than it would
      have cost in development, floored at zero. */
  function PotentialSaving(costs: PerPhase, found: Phase): (r: real)
    ensures r >= 0.0 && r >= costs.At(found) - costs.desenvolvimento
    ensures r == 0.0 || r == costs.At(found) - costs.desenvolvimento
    ensures found == Desenvolvimento ==> r == 0.0
  {
    Max(0.0, costs.At(found) - costs.desenvolvimento)
  }

  /** `calculateDefectCosts`: missing fields take their defaults and the cost breakdown is derived
      from the role-hours lines, the phase multipliers and the impact multipliers. */
  function CalculateDefectCosts(input: DefectInput, pm: PhaseMultipliers, im: ImpactMultipliers): (r: DefectData)
    // supplied fields are copied, missing ones take the defaults
    ensures r.titulo == input.titulo.GetOr("")
    ensures r.horasTotais == input.horasTotais.GetOr(0.0)
    ensures r.severidade == input.severidade.GetOr(Media)
    ensures r.percepcaoImpacto == input.percepcaoImpacto.GetOr(SemImpacto)
    ensures r.ambienteEncontrado == input.ambienteEncontrado.GetOr(Desenvolvimento)
    ensures r.modulo == input.modulo.GetOr("")
    ensures r.horasPorCargo == input.horasPorCargo.GetOr([])
    // the technical cost is the hours-times-rate sum over the lines, and the paid cost is the same figure
    ensures r.custoTecnico == TechnicalCost(r.horasPorCargo)
    ensures r.custoPago == r.custoTecnico
    // the phase projections, the impact cost, the savings and the potential saving all derive
    // from the technical cost alone
    ensures r.custoPorFase == PhaseCosts(r.custoTecnico, pm)
    ensures r.custoComImpacto == ImpactCost(r.custoTecnico, r.percepcaoImpacto, im)
    ensures r.economias == Savings(r.ambienteEncontrado, r.custoTecnico, r.custoPorFase)
    ensures r.economiaPotencial == PotentialSaving(r.custoPorFase, r.ambienteEncontrado)
  {
    var titulo := input.titulo.GetOr("");
    var horasTotais := input.horasTotais.GetOr(0.0);
    var severidade := input.severidade.GetOr(Media);
    var percepcaoImpacto := input.percepcaoImpacto.GetOr(SemImpacto);
    var ambienteEncontrado := input.ambienteEncontrado.GetOr(Desenvolvimento);
    var modulo := input.modulo.GetOr("");
    var horasPorCargo := input.horasPorCargo.GetOr([]);

    var custoBase := TechnicalCost(horasPorCargo);
    var custoTecnico := custoBase;
    var custoPago := custoTecnico;
    var custoPorFase := PhaseCosts(custoBase, pm);
    var custoComImpacto := ImpactCost(custoTecnico, percepcaoImpacto, im);
    var economias := Savings(ambienteEncontrado, custoTecnico, custoPorFase);
    var economiaPotencial := PotentialSaving(custoPorFase, ambienteEncontrado);
    DefectData(titulo, horasTotais, severidade, percepcaoImpacto, ambienteEncontrado, modulo, horasPorCargo,
               custoTecnico, custoPago, custoComImpacto, custoPorFase, economias, economiaPotencial)
  }

  lemma MulMonotone(c: real, a: real, b: real)
    requires c >= 0.0 && a <= b
    ensures c * a <= c * b
  {
    assert c * b - c * a == c * (b - a);
  }

  /** A non-decreasing table never has a phase below development. */
  lemma AtLeastDevelopment(pm: PhaseMultipliers, p: Phase)
    requires pm.NonDecreasing()
    ensures pm.At(p) >= pm.desenvolvimento
  {
  }

  /** Scaling non-decreasing multipliers by a non-negative cost keeps them non-decreasing. */
  lemma PhaseCostsMonotone(c: real, pm: PhaseMultipliers)
    requires c >= 0.0 && pm.NonDecreasing()
    ensures PhaseCosts(c, pm).NonDecreasing()
  {
    var r := PhaseCosts(c, pm);
    assert r == PerPhase(c * pm.desenvolvimento, c * pm.teste, c * pm.homologacao, c * pm.producao);
    MulMonotone(c, pm.desenvolvimento, pm.teste);
    MulMonotone(c, pm.teste, pm.homologacao);
    MulMonotone(c, pm.homologacao, pm.producao);
  }

  /** Under the same conditions the floor never applies: the potential saving is the cost
      times the gap between the found phase's multiplier and the development multiplier. */
  lemma PotentialSavingClosedForm(c: real, pm: PhaseMultipliers, found: Phase)
    requires c >= 0.0 && pm.NonDecreasing()
    ensures PotentialSaving(PhaseCosts(c, pm), found) == c * (pm.At(found) - pm.desenvolvimento)
  {
    var costs := PhaseCosts(c, pm);
    var gap := pm.At(found) - pm.desenvolvimento;
    AtLeastDevelopment(pm, found);
    assert costs.At(found) - costs.desenvolvimento == c * gap;
    MulNonNegative(c, gap);
  }

  /** A cost that is scaled by a multiplier of at least 1 is never less than the cost. */
  lemma ScaledLoss(c: real, m: real)
    requires c >= 0.0 && m >= 1.0
    ensures c - c * m <= 0.0
  {
    MulMonotone(c, 1.0, m);
  }

  /** When the development multiplier is at least 1 and the cost is non-negative, every
      recorded saving is at most zero: the map reports how much MORE each earlier phase's
      projection is than the technical cost, with the sign of a loss. */
  lemma SavingsNeverPositive(c: real, pm: PhaseMultipliers, found: Phase)
    requires c >= 0.0 && pm.NonDecreasing() && pm.desenvolvimento >= 1.0
    ensures var e := Savings(found, c, PhaseCosts(c, pm));
      forall q :: q in e ==> e[q] <= 0.0
  {
    var costs := PhaseCosts(c, pm);
    var e := Savings(found, c, costs);
    forall q | q in e ensures e[q] <= 0.0 {
      AtLeastDevelopment(pm, q);
      assert e[q] == c - c * pm.At(q);
      ScaledLoss(c, pm.At(q));
    }
  }

  /** A calculated defect with non-negative lines has a non-negative technical cost. */
  lemma CalculatedTechnicalCostNonNegative(input: DefectInput, pm: PhaseMultipliers, im: ImpactMultipliers)
    requires NonNegativeEntries(input.horasPorCargo.GetOr([]))
    ensures CalculateDefectCosts(input, pm, im).custoTecnico >= 0.0
  {
    TechnicalCostNonNegative(input.horasPorCargo.GetOr([]));
  }

  /** With non-negative lines and non-decreasing multipliers, the calculated projection never
      falls from development to test to staging to production. */
  lemma CalculatedPhaseCostsMonotone(input: DefectInput, pm: PhaseMultipliers, im: ImpactMultipliers)
    requires NonNegativeEntries(input.horasPorCargo.GetOr([]))
    requires pm.NonDecreasing()
    ensures CalculateDefectCosts(input, pm, im).custoPorFase.NonDecreasing()
  {
    var c := TechnicalCost(input.horasPorCargo.GetOr([]));
    TechnicalCostNonNegative(input.horasPorCargo.GetOr([]));
    PhaseCostsMonotone(c, pm);
  }

  /** Under the same conditions the floor at zero never applies to a calculated defect: its
      potential saving is the projection where it was found less the development projection. */
  lemma CalculatedPotentialSaving(input: DefectInput, pm: PhaseMultipliers, im: ImpactMultipliers)
    requires NonNegativeEntries(input.horasPorCargo.GetOr([]))
    requires pm.NonDecreasing()
    ensures var r := CalculateDefectCosts(input, pm, im);
      r.economiaPotencial == r.custoPorFase.At(r.ambienteEncontrado) - r.custoPorFase.desenvolvimento
  {
    var r := CalculateDefectCosts(input, pm, im);
    CalculatedPhaseCostsMonotone(input, pm, im);
    assert r.custoPorFase.At(r.ambienteEncontrado) >= r.custoPorFase.desenvolvimento;
  }

  /** The impact cost does not depend on the no-impact multiplier. */
  lemma ImpactCostIgnoresNoImpactMultiplier(c: real, impact: Impact, im: ImpactMultipliers, m: real)
    ensures ImpactCost(c, impact, im) == ImpactCost(c, impact, im.(semImpacto := m))
  {
  }

  /** A defect found in production with development multiplier 1 produces the three savings
      keys, and for 20 hours at 48.30 with the default multipliers the figures are 966 technical,
      28980 in production and 28014 potential saving. */
  lemma ProductionExample()
    ensures var h := DefectHours("dev-pleno", "Desenvolvedor", Pleno, 20.0, 48.30);
      var input := EmptyInput.(titulo := Some("Bug"), percepcaoImpacto := Some(Frustracao),
                               ambienteEncontrado := Some(Producao), horasPorCargo := Some([h]));
      var r := CalculateDefectCosts(input, PerPhase(1.0, 5.0, 10.0, 30.0), ImpactMultipliers(0.0, 1.1, 1.2, 1.3));
      && r.custoTecnico == 966.0
      && r.custoComImpacto == 1159.2
      && r.custoPorFase == PerPhase(966.0, 4830.0, 9660.0, 28980.0)
      && r.economias == map[Desenvolvimento := 0.0, Teste := -3864.0, Homologacao := -8694.0]
      && r.economiaPotencial == 28014.0
  {
    var h := DefectHours("dev-pleno", "Desenvolvedor", Pleno, 20.0, 48.30);
    var input := EmptyInput.(titulo := Some("Bug"), percepcaoImpacto := Some(Frustracao),
                             ambienteEncontrado := Some(Producao), horasPorCargo := Some([h]));
    var pm, im := PerPhase(1.0, 5.0, 10.0, 30.0), ImpactMultipliers(0.0, 1.1, 1.2, 1.3);
    var r := CalculateDefectCosts(input, pm, im);
    assert r.custoTecnico == 966.0 by {
      SumSingleton(EntryCost, h);
    }
    var costs := PerPhase(966.0, 4830.0, 9660.0, 28980.0);
    assert r.custoPorFase == costs;
    assert r.economias == Savings(Producao, 966.0, costs);
  }
}
