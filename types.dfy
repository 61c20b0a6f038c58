/** The records and enumerations of the defect cost calculator (src/types/defect.ts).
    Every amount of money, every multiplier and every number of hours is a `real`. */
module DefectTypes {

  /** An optional field or an optional argument: `None` is JavaScript's `undefined`. */
  datatype Option<T> = None | Some(value: T) {
    function GetOr(default: T): (r: T)
      ensures Some? ==> r == value
      ensures None? ==> r == default
    {
      match this
      case Some(v) => v
      case None => default
    }
  }

  datatype Level = Junior | Pleno | Senior

  datatype Category = Desenvolvedor | Qa | Po | Suporte

  datatype Severity = Baixa | Media | Alta | Critica {
    /** The string the record stores and the dashboard filter compares against. */
    function Key(): (k: string) {
      match this
      case Baixa => "baixa"
      case Media => "media"
      case Alta => "alta"
      case Critica => "critica"
    }
  }

  datatype Impact = SemImpacto | IrritacaoLeve | Frustracao | Reputacional

  /** The lifecycle phases, from the cheapest to the most expensive place to find a defect. */
  datatype Phase = Desenvolvimento | Teste | Homologacao | Producao {
    /** Position in the lifecycle: development is 0, production is 3. */
    function Index(): (n: nat)
      ensures n < 4
    {
      match this
      case Desenvolvimento => 0
      case Teste => 1
      case Homologacao => 2
      case Producao => 3
    }

    function Key(): (k: string) {
      match this
      case Desenvolvimento => "desenvolvimento"
      case Teste => "teste"
      case Homologacao => "homologacao"
      case Producao => "producao"
    }
  }

  const AllPhases: set<Phase> := {Desenvolvimento, Teste, Homologacao, Producao}

  /** The phases strictly earlier than `p` in the lifecycle. */
  function EarlierPhases(p: Phase): (r: set<Phase>) {
    set q | q in AllPhases && q.Index() < p.Index()
  }

  /** Different phases, and different severities, store different keys, so a filter on a key
      selects exactly one phase or one severity. */
  lemma KeysDistinct(p: Phase, q: Phase, s: Severity, t: Severity)
    ensures p.Key() == q.Key() ==> p == q
    ensures s.Key() == t.Key() ==> s == t
  {
  }

  lemma EarlierThanProduction()
    ensures EarlierPhases(Producao) == {Desenvolvimento, Teste, Homologacao}
  {
    assert Desenvolvimento.Index() < Producao.Index();
    assert Teste.Index() < Producao.Index();
    assert Homologacao.Index() < Producao.Index();
  }

  /** One number per phase: the shape shared by `PhaseMultipliers` and `custoPorFase`. */
  datatype PerPhase = PerPhase(desenvolvimento: real, teste: real, homologacao: real, producao: real) {
    function At(p: Phase): (r: real) {
      match p
      case Desenvolvimento => desenvolvimento
      case Teste => teste
      case Homologacao => homologacao
      case Producao => producao
    }

    /** The object spread `{ ...this, [p]: v }`. */
    function With(p: Phase, v: real): (r: PerPhase)
      ensures r.At(p) == v
      ensures forall q :: q != p ==> r.At(q) == At(q)
    {
      match p
      case Desenvolvimento => this.(desenvolvimento := v)
      case Teste => this.(teste := v)
      case Homologacao => this.(homologacao := v)
      case Producao => this.(producao := v)
    }

    /** Field-wise sum, as the dashboard accumulates phase totals. */
    function Plus(o: PerPhase): (r: PerPhase)
      ensures forall p :: r.At(p) == At(p) + o.At(p)
    {
      PerPhase(desenvolvimento + o.desenvolvimento, teste + o.teste,
               homologacao + o.homologacao, producao + o.producao)
    }

    /** Non-decreasing from development to production. */
    predicate NonDecreasing() {
      desenvolvimento <= teste <= homologacao <= producao
    }
  }

  const ZeroPerPhase := PerPhase(0.0, 0.0, 0.0, 0.0)

  type PhaseMultipliers = PerPhase

  datatype ImpactMultipliers = ImpactMultipliers(semImpacto: real, irritacaoLeve: real, frustracao: real, reputacional: real) {
    function At(i: Impact): (r: real) {
      match i
      case SemImpacto => semImpacto
      case IrritacaoLeve => irritacaoLeve
      case Frustracao => frustracao
      case Reputacional => reputacional
    }
  }

  datatype JobRole = JobRole(
    id: string,
    name: string,
    level: Level,
    category: Category,
    salarioMinimo: real,
    salarioMaximo: real,
    mediaMercado: real,
    salarioPraticado: Option<real>,
    custoHora: real)

  datatype WorkSettings = WorkSettings(horasPorDia: real, diasPorMes: real)

  /** One line of effort: a role, its hours and the hourly rate captured when the line was added. */
  datatype DefectHours = DefectHours(roleId: string, roleName: string, roleLevel: Level, hours: real, custoHora: real)

  /** Everything `calculateDefectCosts` returns: a defect without its id and creation time. */
  datatype DefectData = DefectData(
    titulo: string,
    horasTotais: real,
    severidade: Severity,
    percepcaoImpacto: Impact,
    ambienteEncontrado: Phase,
    modulo: string,
    horasPorCargo: seq<DefectHours>,
    custoTecnico: real,
    custoPago: real,
    custoComImpacto: real,
    custoPorFase: PerPhase,
    economias: map<Phase, real>,
    economiaPotencial: real)

  /** A saved defect: the computed record plus the id and timestamp the caller assigns. */
  datatype Defect = Defect(id: string, data: DefectData, createdAt: int)

  datatype SystemConfig = SystemConfig(
    workSettings: WorkSettings,
    jobRoles: seq<JobRole>,
    phaseMultipliers: PhaseMultipliers,
    impactMultipliers: ImpactMultipliers)

  /** JavaScript truthiness of an optional number: present and not 0. */
  predicate Truthy(x: Option<real>) {
    x.Some? && x.value != 0.0
  }
}
