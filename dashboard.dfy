/** The dashboard's derived views and its selection state (src/pages/Dashboard.tsx). */
module Dashboard {
  import opened DefectTypes
  import opened Folds

  /** The wildcard value of every filter select. */
  const Todos := "todos"

  /** The three filter selects: a phase key, a severity key and a module name, or the wildcard. */
  datatype Filters = Filters(ambiente: string, severidade: string, modulo: string)

  const AllFilters := Filters(Todos, Todos, Todos)

  /** A defect passes when each filter is the wildcard or equals the defect's field. */
  function Matches(f: Filters, d: Defect): (r: bool)
    ensures f == AllFilters ==> r
    ensures r && f.ambiente != Todos ==> d.data.ambienteEncontrado.Key() == f.ambiente
    ensures r && f.severidade != Todos ==> d.data.severidade.Key() == f.severidade
    ensures r && f.modulo != Todos ==> d.data.modulo == f.modulo
    ensures ((f.ambiente == Todos || f.ambiente == d.data.ambienteEncontrado.Key())
          && (f.severidade == Todos || f.severidade == d.data.severidade.Key())
          && (f.modulo == Todos || f.modulo == d.data.modulo)) ==> r
  {
    && (f.ambiente == Todos || d.data.ambienteEncontrado.Key() == f.ambiente)
    && (f.severidade == Todos || d.data.severidade.Key() == f.severidade)
    && (f.modulo == Todos || d.data.modulo == f.modulo)
  }

  /** `filteredDefects`: the defects that pass all three filters, in list order. */
  function FilterDefects(ds: seq<Defect>, f: Filters): (r: seq<Defect>)
    ensures forall d :: d in r <==> d in ds && Matches(f, d)
    ensures |r| <= |ds|
  {
    Filter((d: Defect) => Matches(f, d), ds)
  }

  /** With every filter on the wildcard the list is shown whole. */
  lemma AllFiltersShowEverything(ds: seq<Defect>)
    ensures FilterDefects(ds, AllFilters) == ds
  {
    FilterKeepsAll((d: Defect) => Matches(AllFilters, d), ds);
  }

  /** Filtering keeps the list order: filtering a concatenation concatenates the filtered parts. */
  lemma FilterDefectsKeepsOrder(a: seq<Defect>, b: seq<Defect>, f: Filters)
    ensures FilterDefects(a + b, f) == FilterDefects(a, f) + FilterDefects(b, f)
  {
    FilterAppend((d: Defect) => Matches(f, d), a, b);
  }

  /** Applying the same filters to the filtered list changes nothing. */
  lemma FilterDefectsIdempotent(ds: seq<Defect>, f: Filters)
    ensures FilterDefects(FilterDefects(ds, f), f) == FilterDefects(ds, f)
  {
    FilterIdempotent((d: Defect) => Matches(f, d), ds);
  }

  // ---------------------------------------------------------------------------------------
  // The module filter's options

  predicate Distinct(s: seq<string>) {
    forall i, j :: 0 <= i < j < |s| ==> s[i] != s[j]
  }

  /** `Array.from(new Set(s))`: each value of `s` exactly once. */
  function Dedup(s: seq<string>): (r: seq<string>)
    ensures forall x :: x in r <==> x in s
    ensures Distinct(r)
  {
    if s == [] then []
    else
      var r := Dedup(s[..|s| - 1]);
      var x := s[|s| - 1];
      if x in r then r else r + [x]
  }

  /** Filtering never introduces a repeat. */
  lemma {:induction false} FilterKeepsDistinct(p: string -> bool, s: seq<string>)
    requires Distinct(s)
    ensures Distinct(Filter(p, s))
  {
    if s != [] {
      assert Distinct(s[1..]) by {
        forall i, j | 0 <= i < j < |s[1..]| ensures s[1..][i] != s[1..][j] {
          assert s[1..][i] == s[i + 1] && s[1..][j] == s[j + 1];
        }
      }
      FilterKeepsDistinct(p, s[1..]);
      assert s[0] !in s[1..];
    }
  }

  /** The module of every defect, in list order. */
  function Modules(ds: seq<Defect>): (r: seq<string>)
    ensures |r| == |ds| && forall i :: 0 <= i < |ds| ==> r[i] == ds[i].data.modulo
  {
    seq(|ds|, i requires 0 <= i < |ds| => ds[i].data.modulo)
  }

  /** `uniqueModules`: the distinct module names, without the empty one. */
  function UniqueModules(ds: seq<Defect>): (r: seq<string>)
    ensures Distinct(r)
    ensures forall m :: m in r <==> m != "" && exists i :: 0 <= i < |ds| && ds[i].data.modulo == m
  {
    var all := Dedup(Modules(ds));
    FilterKeepsDistinct((m: string) => m != "", all);
    var r := Filter((m: string) => m != "", all);
    assert forall m :: m in Modules(ds) <==> exists i :: 0 <= i < |ds| && ds[i].data.modulo == m by {
      forall m | m in Modules(ds) ensures exists i :: 0 <= i < |ds| && ds[i].data.modulo == m {
        var i :| 0 <= i < |Modules(ds)| && Modules(ds)[i] == m;
        assert ds[i].data.modulo == m;
      }
    }
    r
  }

  // ---------------------------------------------------------------------------------------
  // The selection

  /** The ids of the given defects, in order. */
  function Ids(ds: seq<Defect>): (r: seq<string>)
    ensures |r| == |ds| && forall i :: 0 <= i < |ds| ==> r[i] == ds[i].id
  {
    seq(|ds|, i requires 0 <= i < |ds| => ds[i].id)
  }

  /** `handleSelectAll`: checking selects the ids of the filtered defects, unchecking clears. */
  function SelectAll(filtered: seq<Defect>, checked: bool): (r: seq<string>)
    ensures checked ==> |r| == |filtered| && forall i :: 0 <= i < |r| ==> r[i] == filtered[i].id
    ensures !checked ==> r == []
  {
    if checked then Ids(filtered) else []
  }

  /** `handleSelectDefect`: checking appends the id (a repeat is not prevented), unchecking
      drops every occurrence of it and keeps the rest in order. */
  function SelectDefect(selected: seq<string>, id: string, checked: bool): (r: seq<string>)
    ensures checked ==> |r| == |selected| + 1 && r[..|selected|] == selected && r[|selected|] == id
    ensures !checked ==> id !in r && forall x :: x in r <==> x in selected && x != id
    ensures !checked ==> multiset(r) == multiset(selected)[id := 0]
  {
    if checked then selected + [id]
    else
      var p := (x: string) => x != id;
      FilterMultiset(p, selected);
      var r := Filter(p, selected);
      assert forall x :: multiset(r)[x] == multiset(selected)[id := 0][x];
      r
  }

  /** Unchecking works on each part of the selection separately, so the rest keeps its order. */
  lemma DeselectKeepsOrder(a: seq<string>, b: seq<string>, id: string)
    ensures SelectDefect(a + b, id, false) == SelectDefect(a, id, false) + SelectDefect(b, id, false)
  {
    FilterAppend((x: string) => x != id, a, b);
  }

  /** `isAllSelected`: a non-empty filtered list and a selection of the same length. */
  function IsAllSelected(filtered: seq<Defect>, selected: seq<string>): (r: bool)
    ensures r ==> |filtered| > 0
    ensures r ==> |selected| == |filtered|
    ensures |filtered| > 0 && multiset(selected) == multiset(Ids(filtered)) ==> r
  {
    assert |selected| == |multiset(selected)| && |Ids(filtered)| == |multiset(Ids(filtered))|;
    |filtered| > 0 && |selected| == |filtered|
  }

  /** Selecting all makes the header checkbox checked exactly when something is shown. */
  lemma SelectAllSelectsAll(filtered: seq<Defect>)
    ensures IsAllSelected(filtered, SelectAll(filtered, true)) <==> |filtered| > 0
    ensures !IsAllSelected(filtered, SelectAll(filtered, false))
  {
  }

  /** Unchecking a defect after checking it leaves the same selection as unchecking it directly. */
  lemma SelectThenDeselect(selected: seq<string>, id: string)
    ensures SelectDefect(SelectDefect(selected, id, true), id, false) == SelectDefect(selected, id, false)
  {
    var p := (x: string) => x != id;
    FilterAppend(p, selected, [id]);
    assert Filter(p, [id]) == [] by {
      assert [id][1..] == [];
    }
    assert Filter(p, selected) + [] == Filter(p, selected);
  }

  /** The header checkbox compares lengths only: it shows checked for a selection that names one
      shown defect twice and another not at all. */
  lemma AllSelectedCountsOnly()
    ensures var d := DefectData("", 0.0, Media, SemImpacto, Desenvolvimento, "", [], 0.0, 0.0, 0.0,
                                ZeroPerPhase, map[], 0.0);
      var filtered := [Defect("a", d, 0), Defect("b", d, 0)];
      var selected := SelectDefect(SelectDefect([], "a", true), "a", true);
      IsAllSelected(filtered, selected) && "b" !in selected
  {
    var s := SelectDefect(SelectDefect([], "a", true), "a", true);
    assert s == ["a", "a"];
  }

  /** The same flaw through the filters: the selection is kept when a filter changes, so after
      selecting all development defects and switching to production, the header checkbox shows
      checked while the one production defect is not selected. */
  lemma StaleSelectionLooksComplete()
    ensures var dev := DefectData("", 0.0, Media, SemImpacto, Desenvolvimento, "", [], 0.0, 0.0, 0.0,
                                  ZeroPerPhase, map[], 0.0);
      var ds := [Defect("a", dev, 0), Defect("b", dev.(ambienteEncontrado := Producao), 0)];
      var selected := SelectAll(FilterDefects(ds, Filters("desenvolvimento", Todos, Todos)), true);
      var shown := FilterDefects(ds, Filters("producao", Todos, Todos));
      IsAllSelected(shown, selected) && shown == [ds[1]] && "b" !in selected
  {
    var dev := DefectData("", 0.0, Media, SemImpacto, Desenvolvimento, "", [], 0.0, 0.0, 0.0,
                          ZeroPerPhase, map[], 0.0);
    var a, b := Defect("a", dev, 0), Defect("b", dev.(ambienteEncontrado := Producao), 0);
    var fd, fp := Filters("desenvolvimento", Todos, Todos), Filters("producao", Todos, Todos);
    assert [a, b][1..] == [b] && [b][1..] == [];
    assert Matches(fd, a) && !Matches(fd, b) && !Matches(fp, a) && Matches(fp, b);
    var pd, pp := (d: Defect) => Matches(fd, d), (d: Defect) => Matches(fp, d);
    assert Filter(pd, [b]) == [] && Filter(pp, [b]) == [b];
    assert FilterDefects([a, b], fd) == [a];
    assert FilterDefects([a, b], fp) == [b];
    assert SelectAll([a], true) == ["a"];
  }

  // ---------------------------------------------------------------------------------------
  // The totals

  function CustoPago(d: Defect): (r: real) { d.data.custoPago }

  function CustoComImpacto(d: Defect): (r: real) { d.data.custoComImpacto }

  function EconomiaPotencial(d: Defect): (r: real) { d.data.economiaPotencial }

  /** `totalCustoPago`. */
  function TotalCustoPago(ds: seq<Defect>): (r: real)
    ensures ds == [] ==> r == 0.0
  {
    Sum(CustoPago, ds)
  }

  /** `totalCustoComImpacto`. */
  function TotalCustoComImpacto(ds: seq<Defect>): (r: real)
    ensures ds == [] ==> r == 0.0
  {
    Sum(CustoComImpacto, ds)
  }

  /** `totalEconomiaPotencial`. */
  function TotalEconomiaPotencial(ds: seq<Defect>): (r: real)
    ensures ds == [] ==> r == 0.0
  {
    Sum(EconomiaPotencial, ds)
  }

  /** `totalCustoPorFase`: the field-wise accumulation of the phase projections, from all zeros. */
  function TotalCustoPorFase(ds: seq<Defect>): (r: PerPhase)
    ensures ds == [] ==> r == ZeroPerPhase
  {
    if ds == [] then ZeroPerPhase
    else TotalCustoPorFase(ds[..|ds| - 1]).Plus(ds[|ds| - 1].data.custoPorFase)
  }

  /** Each phase's total is the plain sum of that phase's projection over the defects. */
  lemma {:induction false} TotalCustoPorFaseIsSum(ds: seq<Defect>, p: Phase)
    ensures TotalCustoPorFase(ds).At(p) == Sum((d: Defect) => d.data.custoPorFase.At(p), ds)
  {
    if ds != [] {
      TotalCustoPorFaseIsSum(ds[..|ds| - 1], p);
    }
  }

  /** When every defect's projection rises phase by phase, so does the total's. */
  lemma {:induction false} TotalCustoPorFaseMonotone(ds: seq<Defect>)
    requires forall i :: 0 <= i < |ds| ==> ds[i].data.custoPorFase.NonDecreasing()
    ensures TotalCustoPorFase(ds).NonDecreasing()
  {
    if ds != [] {
      TotalCustoPorFaseMonotone(ds[..|ds| - 1]);
    }
  }

  /** Potential savings are never negative for a calculated defect, so neither is their total. */
  lemma TotalEconomiaPotencialNonNegative(ds: seq<Defect>)
    requires forall i :: 0 <= i < |ds| ==> ds[i].data.economiaPotencial >= 0.0
    ensures TotalEconomiaPotencial(ds) >= 0.0
  {
    SumNonNegative(EconomiaPotencial, ds);
  }

  /** Impact costs are never negative for a calculated defect with non-negative lines and
      multipliers, so neither is their total. */
  lemma TotalCustoComImpactoNonNegative(ds: seq<Defect>)
    requires forall i :: 0 <= i < |ds| ==> ds[i].data.custoComImpacto >= 0.0
    ensures TotalCustoComImpacto(ds) >= 0.0
  {
    SumNonNegative(CustoComImpacto, ds);
  }

  /** A stored paid cost equals the technical cost, so the paid total is the technical total. */
  lemma TotalCustoPagoIsTechnical(ds: seq<Defect>)
    requires forall i :: 0 <= i < |ds| ==> ds[i].data.custoPago == ds[i].data.custoTecnico
    ensures TotalCustoPago(ds) == Sum((d: Defect) => d.data.custoTecnico, ds)
  {
    SumCongruent(CustoPago, (d: Defect) => d.data.custoTecnico, ds);
  }

  /** Narrowing the filters can only lower a total of non-negative amounts: the shown total is
      at most the total over every defect. */
  lemma {:induction false} FilteredTotalAtMostAll(ds: seq<Defect>, f: Filters)
    requires forall i :: 0 <= i < |ds| ==> ds[i].data.custoPago >= 0.0
    ensures TotalCustoPago(FilterDefects(ds, f)) <= TotalCustoPago(ds)
  {
    if ds != [] {
      var head, tail := ds[..1], ds[1..];
      assert ds == head + tail;
      FilterDefectsKeepsOrder(head, tail, f);
      FilteredTotalAtMostAll(tail, f);
      SumAppend(CustoPago, FilterDefects(head, f), FilterDefects(tail, f));
      SumAppend(CustoPago, head, tail);
      SumSingleton(CustoPago, ds[0]);
      assert FilterDefects(head, f) == (if Matches(f, ds[0]) then [ds[0]] else []) by {
        assert head[1..] == [];
      }
      if Matches(f, ds[0]) {
        SumSingleton(CustoPago, ds[0]);
      }
    }
  }

  // ---------------------------------------------------------------------------------------
  // The page's state

  class DashboardPage {
    const defects: seq<Defect>
    var ambienteFilter: string
    var severidadeFilter: string
    var moduloFilter: string
    var selectedDefects: seq<string>

    constructor (defects: seq<Defect>)
      ensures this.defects == defects
      ensures ambienteFilter == Todos && severidadeFilter == Todos && moduloFilter == Todos
      ensures selectedDefects == []
    {
      this.defects := defects;
      ambienteFilter, severidadeFilter, moduloFilter := Todos, Todos, Todos;
      selectedDefects := [];
    }

    function CurrentFilters(): (r: Filters)
      reads this
    {
      Filters(ambienteFilter, severidadeFilter, moduloFilter)
    }

    /** The list the table, the totals and the charts are computed from. */
    function FilteredDefects(): (r: seq<Defect>)
      reads this
      ensures forall d :: d in r <==> d in defects && Matches(CurrentFilters(), d)
    {
      FilterDefects(defects, CurrentFilters())
    }

    /** The header checkbox of the table. */
    function AllSelected(): (r: bool)
      reads this
      ensures r ==> |FilteredDefects()| > 0
      ensures r ==> |selectedDefects| == |FilteredDefects()|
      ensures |FilteredDefects()| > 0 && multiset(selectedDefects) == multiset(Ids(FilteredDefects())) ==> r
    {
      IsAllSelected(FilteredDefects(), selectedDefects)
    }

    method SetAmbienteFilter(value: string)
      modifies this`ambienteFilter
      ensures ambienteFilter == value
    {
      ambienteFilter := value;
    }

    method SetSeveridadeFilter(value: string)
      modifies this`severidadeFilter
      ensures severidadeFilter == value
    {
      severidadeFilter := value;
    }

    method SetModuloFilter(value: string)
      modifies this`moduloFilter
      ensures moduloFilter == value
    {
      moduloFilter := value;
    }

    method HandleSelectAll(checked: bool)
      modifies this`selectedDefects
      ensures selectedDefects == SelectAll(FilteredDefects(), checked)
    {
      selectedDefects := SelectAll(FilteredDefects(), checked);
    }

    method HandleSelectDefect(id: string, checked: bool)
      modifies this`selectedDefects
      ensures selectedDefects == SelectDefect(old(selectedDefects), id, checked)
    {
      selectedDefects := SelectDefect(selectedDefects, id, checked);
    }
  }
}
