/** The defect simulator page (src/pages/Simulator.tsx): the role-hours list the user edits,
    the validation that guards a simulation, and the append of the saved defect. */
module Simulator {
  import opened DefectTypes
  import opened Folds
  import opened DefaultData
  import opened DefectCalculations

  // ---------------------------------------------------------------------------------------
  // Role lookup and the rate captured for a new line

  /** `config.jobRoles.find(r => r.id === roleId)`: the first role with that id. */
  function FindRole(roles: seq<JobRole>, roleId: string): (r: Option<JobRole>)
    ensures r.None? <==> forall i :: 0 <= i < |roles| ==> roles[i].id != roleId
    ensures r.Some? ==> r.value.id == roleId && r.value in roles
    ensures r.Some? ==> exists k :: 0 <= k < |roles| && roles[k] == r.value
                                   && forall i :: 0 <= i < k ==> roles[i].id != roleId
  {
    if roles == [] then None
    else if roles[0].id == roleId then Some(roles[0])
    else
      var r := FindRole(roles[1..], roleId);
      assert r.Some? ==> exists k :: 0 <= k < |roles| - 1 && roles[1..][k] == r.value
                                   && forall i :: 0 <= i < k ==> roles[1..][i].id != roleId;
      assert r.Some? ==> exists k :: 1 <= k < |roles| && roles[k] == r.value
                                   && forall i :: 0 <= i < k ==> roles[i].id != roleId by {
        if r.Some? {
          var k :| 0 <= k < |roles| - 1 && roles[1..][k] == r.value
                   && forall i :: 0 <= i < k ==> roles[1..][i].id != roleId;
          assert roles[k + 1] == r.value;
          assert forall i :: 0 <= i < k + 1 ==> roles[i].id != roleId by {
            forall i | 0 <= i < k + 1 ensures roles[i].id != roleId {
              if i > 0 { assert roles[i] == roles[1..][i - 1]; }
            }
          }
        }
      }
      r
  }

  /** The hourly rate a new line captures: a truthy `salarioPraticado` over the month's hours,
      otherwise the role's stored `custoHora`. */
  function RateFor(role: JobRole, ws: WorkSettings): (r: real)
    requires Truthy(role.salarioPraticado) ==> HoursPerMonth(ws) != 0.0
    ensures Truthy(role.salarioPraticado) ==> r == CostPerHour(role.salarioPraticado.value, ws.horasPorDia, ws.diasPorMes)
    ensures !Truthy(role.salarioPraticado) ==> r == role.custoHora
  {
    if Truthy(role.salarioPraticado) then role.salarioPraticado.value / (ws.horasPorDia * ws.diasPorMes)
    else role.custoHora
  }

  /** The line appended for a role that is not yet in the list: one hour at the captured rate. */
  function NewEntry(role: JobRole, ws: WorkSettings): (h: DefectHours)
    requires Truthy(role.salarioPraticado) ==> HoursPerMonth(ws) != 0.0
    ensures h.roleId == role.id && h.roleName == role.name && h.roleLevel == role.level
    ensures h.hours == 1.0
    ensures h.custoHora == RateFor(role, ws)
  {
    DefectHours(role.id, role.name, role.level, 1.0, RateFor(role, ws))
  }

  // ---------------------------------------------------------------------------------------
  // The role-hours list and its transitions

  /** `horasPorCargo.find(h => h.roleId === roleId)` finds a line. */
  function HasRole(hs: seq<DefectHours>, roleId: string): (r: bool)
    ensures r <==> exists h :: h in hs && h.roleId == roleId
  {
    exists i :: 0 <= i < |hs| && hs[i].roleId == roleId
  }

  /** Adding the role appends a new line whose rate is the actual salary over the month's hours:
      the only case in which `addRoleHours` divides. */
  predicate AddDivides(config: SystemConfig, hs: seq<DefectHours>, roleId: string) {
    && FindRole(config.jobRoles, roleId).Some?
    && !HasRole(hs, roleId)
    && Truthy(FindRole(config.jobRoles, roleId).value.salarioPraticado)
  }

  /** No role occurs on two lines. */
  predicate DistinctRoles(hs: seq<DefectHours>) {
    forall i, j :: 0 <= i < j < |hs| ==> hs[i].roleId != hs[j].roleId
  }

  /** `hs.map(h => h.roleId === roleId ? { ...h, hours } : h)`, the body of `updateRoleHours`. */
  function UpdateRole(hs: seq<DefectHours>, roleId: string, hours: real): (r: seq<DefectHours>)
    ensures |r| == |hs|
    ensures forall i :: 0 <= i < |hs| ==>
              r[i].roleId == hs[i].roleId && r[i].custoHora == hs[i].custoHora
              && r[i].roleName == hs[i].roleName && r[i].roleLevel == hs[i].roleLevel
    ensures forall i :: 0 <= i < |hs| && hs[i].roleId == roleId ==> r[i].hours == hours
    ensures forall i :: 0 <= i < |hs| && hs[i].roleId != roleId ==> r[i] == hs[i]
  {
    seq(|hs|, i requires 0 <= i < |hs| => if hs[i].roleId == roleId then hs[i].(hours := hours) else hs[i])
  }

  /** The increment branch of `addRoleHours`: one more hour on the role's line(s). */
  function IncrementRole(hs: seq<DefectHours>, roleId: string): (r: seq<DefectHours>)
    ensures |r| == |hs|
    ensures forall i :: 0 <= i < |hs| ==>
              r[i].roleId == hs[i].roleId && r[i].custoHora == hs[i].custoHora
              && r[i].roleName == hs[i].roleName && r[i].roleLevel == hs[i].roleLevel
    ensures forall i :: 0 <= i < |hs| && hs[i].roleId == roleId ==> r[i].hours == hs[i].hours + 1.0
    ensures forall i :: 0 <= i < |hs| && hs[i].roleId != roleId ==> r[i] == hs[i]
  {
    seq(|hs|, i requires 0 <= i < |hs| => if hs[i].roleId == roleId then hs[i].(hours := hs[i].hours + 1.0) else hs[i])
  }

  /** `addRoleHours`: an unknown role changes nothing, a role already listed gets one more hour,
      any other role is appended with one hour at its captured rate. */
  function AddRole(config: SystemConfig, hs: seq<DefectHours>, roleId: string): (r: seq<DefectHours>)
    requires AddDivides(config, hs, roleId) ==> HoursPerMonth(config.workSettings) != 0.0
    ensures FindRole(config.jobRoles, roleId).None? ==> r == hs
    ensures FindRole(config.jobRoles, roleId).Some? && HasRole(hs, roleId) ==>
      |r| == |hs| &&
      (forall i :: 0 <= i < |hs| && hs[i].roleId == roleId ==> r[i] == hs[i].(hours := hs[i].hours + 1.0)) &&
      (forall i :: 0 <= i < |hs| && hs[i].roleId != roleId ==> r[i] == hs[i])
    ensures FindRole(config.jobRoles, roleId).Some? && !HasRole(hs, roleId) ==>
      |r| == |hs| + 1 && r[..|hs|] == hs && r[|hs|] == NewEntry(FindRole(config.jobRoles, roleId).value, config.workSettings)
  {
    match FindRole(config.jobRoles, roleId)
    case None => hs
    case Some(role) =>
      if HasRole(hs, roleId) then IncrementRole(hs, roleId)
      else
        var r := hs + [NewEntry(role, config.workSettings)];
        assert r[..|hs|] == hs;
        r
  }

  /** `removeRoleHours`: drop every line of the role, keeping the others in order. */
  function RemoveRole(hs: seq<DefectHours>, roleId: string): (r: seq<DefectHours>)
    ensures forall h :: h in r <==> h in hs && h.roleId != roleId
    ensures !HasRole(r, roleId)
  {
    Filter((h: DefectHours) => h.roleId != roleId, hs)
  }

  /** Removing a role from a concatenation removes it from each part: the remaining order is kept. */
  lemma RemoveRoleKeepsOrder(a: seq<DefectHours>, b: seq<DefectHours>, roleId: string)
    ensures RemoveRole(a + b, roleId) == RemoveRole(a, roleId) + RemoveRole(b, roleId)
  {
    FilterAppend((h: DefectHours) => h.roleId != roleId, a, b);
  }

  /** Removing a role that is not listed changes nothing. */
  lemma RemoveAbsentRole(hs: seq<DefectHours>, roleId: string)
    requires !HasRole(hs, roleId)
    ensures RemoveRole(hs, roleId) == hs
  {
    var p := (h: DefectHours) => h.roleId != roleId;
    assert forall i :: 0 <= i < |hs| ==> p(hs[i]);
    FilterKeepsAll(p, hs);
  }

  // ---------------------------------------------------------------------------------------
  // Distinct roles are an invariant of the list

  lemma AddRoleKeepsDistinct(config: SystemConfig, hs: seq<DefectHours>, roleId: string)
    requires AddDivides(config, hs, roleId) ==> HoursPerMonth(config.workSettings) != 0.0
    requires DistinctRoles(hs)
    ensures DistinctRoles(AddRole(config, hs, roleId))
  {
    var r := AddRole(config, hs, roleId);
    if FindRole(config.jobRoles, roleId).Some? && !HasRole(hs, roleId) {
      forall i, j | 0 <= i < j < |r| ensures r[i].roleId != r[j].roleId {
        if j == |hs| {
          assert r[i] == hs[i];
        } else {
          assert r[i] == hs[i] && r[j] == hs[j];
        }
      }
    }
  }

  lemma UpdateRoleKeepsDistinct(hs: seq<DefectHours>, roleId: string, hours: real)
    requires DistinctRoles(hs)
    ensures DistinctRoles(UpdateRole(hs, roleId, hours))
  {
  }

  lemma {:induction false} RemoveRoleKeepsDistinct(hs: seq<DefectHours>, roleId: string)
    requires DistinctRoles(hs)
    ensures DistinctRoles(RemoveRole(hs, roleId))
  {
    if hs != [] {
      var tail := hs[1..];
      DistinctTail(hs);
      RemoveRoleKeepsDistinct(tail, roleId);
      var rt := RemoveRole(tail, roleId);
      assert RemoveRole(hs, roleId) == (if hs[0].roleId != roleId then [hs[0]] else []) + rt;
      if hs[0].roleId != roleId {
        forall h | h in rt ensures h.roleId != hs[0].roleId {
          HeadNotInTail(hs, h);
        }
        DistinctCons(hs[0], rt);
      } else {
        assert RemoveRole(hs, roleId) == rt;
      }
    }
  }

  lemma DistinctTail(hs: seq<DefectHours>)
    requires DistinctRoles(hs) && hs != []
    ensures DistinctRoles(hs[1..])
  {
    var tail := hs[1..];
    forall i, j | 0 <= i < j < |tail| ensures tail[i].roleId != tail[j].roleId {
      assert tail[i] == hs[i + 1] && tail[j] == hs[j + 1];
    }
  }

  lemma HeadNotInTail(hs: seq<DefectHours>, h: DefectHours)
    requires DistinctRoles(hs) && hs != [] && h in hs[1..]
    ensures h.roleId != hs[0].roleId
  {
    var m :| 0 <= m < |hs| - 1 && hs[1..][m] == h;
    assert hs[m + 1] == h;
  }

  lemma DistinctCons(x: DefectHours, rt: seq<DefectHours>)
    requires DistinctRoles(rt)
    requires forall h :: h in rt ==> h.roleId != x.roleId
    ensures DistinctRoles([x] + rt)
  {
    var r := [x] + rt;
    forall i, j | 0 <= i < j < |r| ensures r[i].roleId != r[j].roleId {
      assert r[j] == rt[j - 1];
      if i == 0 {
        assert rt[j - 1] in rt;
      } else {
        assert r[i] == rt[i - 1];
      }
    }
  }

  // ---------------------------------------------------------------------------------------
  // What each transition does to the technical cost of the list

  /** On a list with distinct roles, updating role `hs[k].roleId` replaces exactly line k. */
  lemma UpdateRoleIsPointUpdate(hs: seq<DefectHours>, k: nat, hours: real)
    requires DistinctRoles(hs) && k < |hs|
    ensures UpdateRole(hs, hs[k].roleId, hours) == hs[k := hs[k].(hours := hours)]
  {
  }

  /** Setting a role's hours replaces that line's cost in the technical cost and nothing else. */
  lemma UpdateRoleCost(hs: seq<DefectHours>, k: nat, hours: real)
    requires DistinctRoles(hs) && k < |hs|
    ensures TechnicalCost(UpdateRole(hs, hs[k].roleId, hours)) == TechnicalCost(hs) - EntryCost(hs[k]) + EntryCost(hs[k].(hours := hours))
  {
    UpdateRoleIsPointUpdate(hs, k, hours);
    SumUpdate(EntryCost, hs, k, hs[k].(hours := hours));
  }

  /** One more hour on a line costs one more hour at its rate. */
  lemma EntryCostOneMore(h: DefectHours)
    ensures EntryCost(h.(hours := h.hours + 1.0)) == EntryCost(h) + h.custoHora
  {
    var c := h.custoHora;
    assert (h.hours + 1.0) * c == h.hours * c + c;
  }

  /** Adding a role already listed is setting its hours to one more. */
  lemma AddListedRoleIsUpdate(config: SystemConfig, hs: seq<DefectHours>, k: nat)
    requires k < |hs|
    requires FindRole(config.jobRoles, hs[k].roleId).Some?
    ensures AddRole(config, hs, hs[k].roleId) == IncrementRole(hs, hs[k].roleId)
  {
    assert HasRole(hs, hs[k].roleId);
  }

  /** Adding a role already listed raises the technical cost by exactly that line's rate. */
  lemma AddListedRoleCost(config: SystemConfig, hs: seq<DefectHours>, k: nat)
    requires DistinctRoles(hs) && k < |hs|
    requires FindRole(config.jobRoles, hs[k].roleId).Some?
    ensures TechnicalCost(AddRole(config, hs, hs[k].roleId)) == TechnicalCost(hs) + hs[k].custoHora
  {
    AddListedRoleIsUpdate(config, hs, k);
    IncrementRoleCost(hs, k);
  }

  /** One more hour on a listed role raises the technical cost by exactly that line's rate. */
  lemma IncrementRoleCost(hs: seq<DefectHours>, k: nat)
    requires DistinctRoles(hs) && k < |hs|
    ensures TechnicalCost(IncrementRole(hs, hs[k].roleId)) == TechnicalCost(hs) + hs[k].custoHora
  {
    IncrementIsUpdate(hs, k);
    UpdateRoleCost(hs, k, hs[k].hours + 1.0);
    EntryCostOneMore(hs[k]);
  }

  lemma IncrementIsUpdate(hs: seq<DefectHours>, k: nat)
    requires DistinctRoles(hs) && k < |hs|
    ensures IncrementRole(hs, hs[k].roleId) == UpdateRole(hs, hs[k].roleId, hs[k].hours + 1.0)
  {
    var a, b := IncrementRole(hs, hs[k].roleId), UpdateRole(hs, hs[k].roleId, hs[k].hours + 1.0);
    forall i | 0 <= i < |hs| ensures a[i] == b[i] {
      if i != k {
        assert hs[i].roleId != hs[k].roleId;
      }
    }
  }

  /** Adding a known role that is not listed raises the technical cost by its captured rate. */
  lemma AddNewRoleCost(config: SystemConfig, hs: seq<DefectHours>, roleId: string)
    requires AddDivides(config, hs, roleId) ==> HoursPerMonth(config.workSettings) != 0.0
    requires FindRole(config.jobRoles, roleId).Some? && !HasRole(hs, roleId)
    ensures TechnicalCost(AddRole(config, hs, roleId)) == TechnicalCost(hs) + RateFor(FindRole(config.jobRoles, roleId).value, config.workSettings)
  {
    var e := NewEntry(FindRole(config.jobRoles, roleId).value, config.workSettings);
    assert AddRole(config, hs, roleId) == hs + [e];
    TechnicalCostAppend(hs, e);
  }

  /** On a list with distinct roles, removing role `hs[k].roleId` removes exactly line k. */
  lemma RemoveRoleIsPointRemoval(hs: seq<DefectHours>, k: nat)
    requires DistinctRoles(hs) && k < |hs|
    ensures RemoveRole(hs, hs[k].roleId) == hs[..k] + hs[k + 1..]
  {
    var id := hs[k].roleId;
    var a, b := hs[..k], hs[k + 1..];
    assert hs == a + [hs[k]] + b;
    forall i | 0 <= i < |a| ensures a[i].roleId != id { assert a[i] == hs[i]; }
    forall i | 0 <= i < |b| ensures b[i].roleId != id { assert b[i] == hs[k + 1 + i]; }
    FilterAround((h: DefectHours) => h.roleId != id, a, hs[k], b);
  }

  /** Removing a listed role lowers the technical cost by exactly that line's cost. */
  lemma RemoveRoleCost(hs: seq<DefectHours>, k: nat)
    requires DistinctRoles(hs) && k < |hs|
    ensures TechnicalCost(RemoveRole(hs, hs[k].roleId)) == TechnicalCost(hs) - hs[k].hours * hs[k].custoHora
  {
    var a, x, b := hs[..k], hs[k], hs[k + 1..];
    assert hs == a + [x] + b;
    RemoveRoleIsPointRemoval(hs, k);
    calc {
      TechnicalCost(RemoveRole(hs, x.roleId));
      TechnicalCost(a + b);
      { SumRemove(EntryCost, a, x, b); }
      TechnicalCost(a + [x] + b) - EntryCost(x);
    }
  }

  // ---------------------------------------------------------------------------------------
  // The hours text field

  predicate IsDigit(c: char) {
    '0' <= c <= '9'
  }

  /** `/^\d+$/`: one or more ASCII digits. */
  function IsDigits(s: string): (r: bool)
    ensures r <==> s != "" && forall c :: c in s ==> IsDigit(c)
  {
    |s| > 0 && forall i :: 0 <= i < |s| ==> IsDigit(s[i])
  }

  function DigitOf(c: char): (d: nat)
    requires IsDigit(c)
    ensures d < 10
  {
    (c as int) - ('0' as int)
  }

  /** `parseInt` of a digit string, read left to right. */
  function DigitsValue(s: string): (n: nat)
    requires forall i :: 0 <= i < |s| ==> IsDigit(s[i])
    ensures n == 0 <==> forall i :: 0 <= i < |s| ==> s[i] == '0'
  {
    if s == [] then 0
    else
      var prefix := s[..|s| - 1];
      assert forall i :: 0 <= i < |prefix| ==> prefix[i] == s[i];
      10 * DigitsValue(prefix) + DigitOf(s[|s| - 1])
  }

  /** The decimal text of a natural number, without leading zeros. */
  function DecimalText(n: nat): (s: string)
    ensures IsDigits(s)
  {
    var c := (('0' as int) + n % 10) as char;
    if n < 10 then [c] else DecimalText(n / 10) + [c]
  }

  /** The hours field's change filter: the empty text stores 0, a digit string stores its
      value, anything else is ignored (`None`). Whatever is stored is a whole number of hours. */
  function AcceptHoursInput(value: string): (r: Option<real>)
    ensures r.Some? <==> value == "" || IsDigits(value)
    ensures value == "" ==> r == Some(0.0)
    ensures r.Some? ==> r.value >= 0.0 && r.value == r.value.Floor as real
  {
    if value == "" then Some(0.0)
    else if IsDigits(value) then Some(DigitsValue(value) as real)
    else None
  }

  /** What the field shows for a stored number of hours: nothing for 0, the digits otherwise. */
  function HoursText(n: nat): (s: string)
    ensures s == "" <==> n == 0
    ensures n != 0 ==> IsDigits(s)
  {
    if n == 0 then "" else DecimalText(n)
  }

  function Pow10(k: nat): (p: nat)
    ensures p >= 1
  {
    if k == 0 then 1 else 10 * Pow10(k - 1)
  }

  /** The leading digit counts in the position its place gives it: `parseInt` is positional,
      most significant digit first. */
  lemma {:induction false} DigitsValueLeadingDigit(c: char, s: string)
    requires IsDigit(c) && forall i :: 0 <= i < |s| ==> IsDigit(s[i])
    ensures DigitsValue([c] + s) == DigitOf(c) * Pow10(|s|) + DigitsValue(s)
  {
    var t := [c] + s;
    if s == [] {
      assert t[..|t| - 1] == [];
    } else {
      var init := s[..|s| - 1];
      assert t[..|t| - 1] == [c] + init;
      assert t[|t| - 1] == s[|s| - 1];
      var last := s[|s| - 1];
      assert s[..|s| - 1] == init;
      var d, p := DigitOf(c), Pow10(|init|);
      DigitsValueLeadingDigit(c, init);
      calc {
        DigitsValue(t);
        10 * DigitsValue([c] + init) + DigitOf(last);
        10 * (d * p + DigitsValue(init)) + DigitOf(last);
        { ShiftDigit(d, p); }
        d * Pow10(|s|) + (10 * DigitsValue(init) + DigitOf(last));
        d * Pow10(|s|) + DigitsValue(s);
      }
    }
  }

  lemma ShiftDigit(d: nat, p: nat)
    ensures 10 * (d * p) == d * (10 * p)
  {
  }

  /** Concrete readings of the field: "12" stores twelve hours, and leading zeros are ignored. */
  lemma AcceptHoursInputExamples()
    ensures AcceptHoursInput("12") == Some(12.0)
    ensures AcceptHoursInput("007") == Some(7.0)
    ensures AcceptHoursInput("1a") == None
  {
    assert "12"[..1] == "1";
    assert "007"[..2] == "00" && "00"[..1] == "0";
    assert !IsDigit("1a"[1]);
  }

  lemma {:induction false} DigitsValueOfDecimalText(n: nat)
    ensures DigitsValue(DecimalText(n)) == n
  {
    var c := (('0' as int) + n % 10) as char;
    if n >= 10 {
      var s := DecimalText(n / 10) + [c];
      assert s[..|s| - 1] == DecimalText(n / 10);
      DigitsValueOfDecimalText(n / 10);
    }
  }

  /** Reading back what the field shows gives the stored number of hours. */
  lemma HoursTextRoundTrip(n: nat)
    ensures AcceptHoursInput(HoursText(n)) == Some(n as real)
  {
    if n != 0 {
      DigitsValueOfDecimalText(n);
    }
  }

  /** Every line holds a non-negative whole number of hours. */
  predicate WholeHours(hs: seq<DefectHours>) {
    forall i :: 0 <= i < |hs| ==> hs[i].hours >= 0.0 && hs[i].hours == hs[i].hours.Floor as real
  }

  lemma AddRoleKeepsWholeHours(config: SystemConfig, hs: seq<DefectHours>, roleId: string)
    requires AddDivides(config, hs, roleId) ==> HoursPerMonth(config.workSettings) != 0.0
    requires WholeHours(hs)
    ensures WholeHours(AddRole(config, hs, roleId))
  {
    var r := AddRole(config, hs, roleId);
    forall i | 0 <= i < |r| ensures r[i].hours >= 0.0 && r[i].hours == r[i].hours.Floor as real {
      if i < |hs| && r[i] != hs[i] {
        var h := hs[i].hours;
        assert h == h.Floor as real;
        assert r[i].hours == h + 1.0;
        assert (h + 1.0).Floor == h.Floor + 1;
      }
    }
  }

  lemma AcceptedInputKeepsWholeHours(hs: seq<DefectHours>, roleId: string, value: string)
    requires WholeHours(hs)
    requires AcceptHoursInput(value).Some?
    ensures WholeHours(UpdateRole(hs, roleId, AcceptHoursInput(value).value))
  {
  }

  lemma RemoveRoleKeepsWholeHours(hs: seq<DefectHours>, roleId: string)
    requires WholeHours(hs)
    ensures WholeHours(RemoveRole(hs, roleId))
  {
    var r := RemoveRole(hs, roleId);
    forall i | 0 <= i < |r| ensures r[i].hours >= 0.0 && r[i].hours == r[i].hours.Floor as real {
      assert r[i] in hs;
    }
  }

  // ---------------------------------------------------------------------------------------
  // The form and the simulation gate

  /** The form fields. An empty select is `None`; the total-hours field is its parsed value. */
  datatype FormData = FormData(
    titulo: string,
    horasTotais: Option<real>,
    severidade: Option<Severity>,
    percepcaoImpacto: Option<Impact>,
    ambienteEncontrado: Option<Phase>,
    modulo: string)

  const EmptyForm := FormData("", None, None, None, None, "")

  /** The validation and input assembly of `simulateDefect`: a title, an impact and at least one
      line are required; the defect is always taken as found in production, and the severity
      defaults to medium. */
  function SimulationInput(form: FormData, hs: seq<DefectHours>): (r: Option<DefectInput>)
    ensures r.Some? <==> form.titulo != "" && form.percepcaoImpacto.Some? && |hs| > 0
    ensures r.Some? ==> r.value.ambienteEncontrado == Some(Producao)
    ensures r.Some? ==> r.value.severidade == Some(form.severidade.GetOr(Media))
    ensures r.Some? ==> r.value.titulo == Some(form.titulo) && r.value.modulo == Some(form.modulo)
    ensures r.Some? ==> r.value.percepcaoImpacto == form.percepcaoImpacto && r.value.horasPorCargo == Some(hs)
    ensures r.Some? ==> r.value.horasTotais == form.horasTotais
  {
    if form.titulo == "" || form.percepcaoImpacto.None? then None
    else if |hs| == 0 then None
    else Some(DefectInput(Some(form.titulo), form.horasTotais, Some(form.severidade.GetOr(Media)),
                          form.percepcaoImpacto, Some(Producao), Some(form.modulo), Some(hs)))
  }

  /** A simulated defect is found in production, so it has a saving for every earlier phase,
      and (with non-negative lines and non-decreasing multipliers) its projections rise phase by
      phase and its potential saving is the production projection less the development one. */
  lemma SimulationIsInProduction(form: FormData, hs: seq<DefectHours>, pm: PhaseMultipliers, im: ImpactMultipliers)
    requires SimulationInput(form, hs).Some?
    requires NonNegativeEntries(hs) && pm.NonDecreasing()
    ensures var r := CalculateDefectCosts(SimulationInput(form, hs).value, pm, im);
      && r.ambienteEncontrado == Producao
      && r.economias.Keys == {Desenvolvimento, Teste, Homologacao}
      && r.economiaPotencial == r.custoPorFase.producao - r.custoPorFase.desenvolvimento
      && r.custoPorFase.NonDecreasing()
  {
    var input := SimulationInput(form, hs).value;
    CalculatedPhaseCostsMonotone(input, pm, im);
    CalculatedPotentialSaving(input, pm, im);
    EarlierThanProduction();
  }

  // ---------------------------------------------------------------------------------------
  // The page's state

  class SimulatorPage {
    const config: SystemConfig
    var defects: seq<Defect>
    var formData: FormData
    var horasPorCargo: seq<DefectHours>
    var calculatedResults: Option<DefectData>

    /** The role-hours list never names a role twice. */
    ghost predicate Valid()
      reads this
    {
      DistinctRoles(horasPorCargo)
    }

    /** Every line's hours were entered through the hours field or the add button. */
    ghost predicate HoursFromInput()
      reads this
    {
      WholeHours(horasPorCargo)
    }

    constructor (config: SystemConfig, defects: seq<Defect>)
      ensures Valid() && HoursFromInput()
      ensures this.config == config && this.defects == defects
      ensures formData == EmptyForm && horasPorCargo == [] && calculatedResults == None
    {
      this.config := config;
      this.defects := defects;
      formData := EmptyForm;
      horasPorCargo := [];
      calculatedResults := None;
    }

    method AddRoleHours(roleId: string)
      requires Valid()
      requires AddDivides(config, horasPorCargo, roleId) ==> HoursPerMonth(config.workSettings) != 0.0
      modifies this`horasPorCargo
      ensures Valid()
      ensures old(HoursFromInput()) ==> HoursFromInput()
      ensures horasPorCargo == AddRole(config, old(horasPorCargo), roleId)
    {
      AddRoleKeepsDistinct(config, horasPorCargo, roleId);
      if HoursFromInput() {
        AddRoleKeepsWholeHours(config, horasPorCargo, roleId);
      }
      var role := FindRole(config.jobRoles, roleId);
      if role.None? {
        return;
      }
      if HasRole(horasPorCargo, roleId) {
        horasPorCargo := IncrementRole(horasPorCargo, roleId);
      } else {
        horasPorCargo := horasPorCargo + [NewEntry(role.value, config.workSettings)];
      }
    }

    method RemoveRoleHours(roleId: string)
      requires Valid()
      modifies this`horasPorCargo
      ensures Valid()
      ensures old(HoursFromInput()) ==> HoursFromInput()
      ensures horasPorCargo == RemoveRole(old(horasPorCargo), roleId)
    {
      RemoveRoleKeepsDistinct(horasPorCargo, roleId);
      if HoursFromInput() {
        RemoveRoleKeepsWholeHours(horasPorCargo, roleId);
      }
      horasPorCargo := RemoveRole(horasPorCargo, roleId);
    }

    method UpdateRoleHours(roleId: string, hours: real)
      requires Valid()
      modifies this`horasPorCargo
      ensures Valid()
      ensures horasPorCargo == UpdateRole(old(horasPorCargo), roleId, hours)
    {
      UpdateRoleKeepsDistinct(horasPorCargo, roleId, hours);
      horasPorCargo := UpdateRole(horasPorCargo, roleId, hours);
    }

    /** The hours field's `onChange`: accepted text updates the line, other text is ignored. */
    method OnHoursInput(roleId: string, value: string)
      requires Valid()
      modifies this`horasPorCargo
      ensures Valid()
      ensures old(HoursFromInput()) ==> HoursFromInput()
      ensures horasPorCargo == match AcceptHoursInput(value)
                               case None => old(horasPorCargo)
                               case Some(h) => UpdateRole(old(horasPorCargo), roleId, h)
    {
      var accepted := AcceptHoursInput(value);
      if accepted.Some? {
        if HoursFromInput() {
          AcceptedInputKeepsWholeHours(horasPorCargo, roleId, value);
        }
        UpdateRoleHours(roleId, accepted.value);
      }
    }

    method SimulateDefect()
      modifies this`calculatedResults
      ensures calculatedResults == match SimulationInput(formData, horasPorCargo)
                                   case None => old(calculatedResults)
                                   case Some(input) => Some(CalculateDefectCosts(input, config.phaseMultipliers, config.impactMultipliers))
    {
      var input := SimulationInput(formData, horasPorCargo);
      if input.None? {
        return;
      }
      calculatedResults := Some(CalculateDefectCosts(input.value, config.phaseMultipliers, config.impactMultipliers));
    }

    /** `saveDefect`: without a result nothing happens; otherwise the defect is appended with the
        given id and timestamp, and the form, the lines and the result are cleared. */
    method SaveDefect(id: string, createdAt: int)
      requires Valid()
      modifies this
      ensures Valid()
      ensures old(HoursFromInput()) ==> HoursFromInput()
      ensures old(calculatedResults).None? ==>
        defects == old(defects) && formData == old(formData)
        && horasPorCargo == old(horasPorCargo) && calculatedResults == None
      ensures old(calculatedResults).Some? ==>
        defects == old(defects) + [Defect(id, old(calculatedResults).value, createdAt)]
        && formData == EmptyForm && horasPorCargo == [] && calculatedResults == None
    {
      if calculatedResults.None? {
        return;
      }
      defects := defects + [Defect(id, calculatedResults.value, createdAt)];
      formData := EmptyForm;
      horasPorCargo := [];
      calculatedResults := None;
    }
  }
}
