/**
 * The classical weekly resource optimizer: a fixed-rule generator of
 * fertilizer, irrigation and pest-action schedules for a season of `weeks`
 * weeks. Area, budget and water limit are accepted and ignored; the
 * objective value is the constant 0.75.
 */
module PlanOptimizer {
  import opened Wrappers

  datatype FertilizerEntry = FertilizerEntry(week: int, n: int, p: int, k: int)
  datatype IrrigationEntry = IrrigationEntry(week: int, mm: int)
  datatype PestAction = PestAction(week: int, action: string)

  datatype Optimization = Optimization(
    objectiveValue: real,
    fertilizerPlan: seq<FertilizerEntry>,
    irrigationPlan: seq<IrrigationEntry>,
    pestActions: seq<PestAction>)

  const ObjectiveValue: real := 0.75
  const NeemSpray: string := "Neem spray"

  /** Keyword arguments the delegation stub reads; None stands for an absent keyword. */
  datatype Keywords = Keywords(
    areaAcres: Option<real>, budget: Option<real>, waterLimit: Option<real>, weeks: Option<int>)

  /** The dose of one week: a basal or top-dress dose in weeks 1, 4, 8, 12, none otherwise. */
  function FertilizerFor(w: int): FertilizerEntry {
    if w in [1, 4, 8, 12] then FertilizerEntry(w, 30, 15, 15) else FertilizerEntry(w, 0, 0, 0)
  }

  function IrrigationFor(w: int): IrrigationEntry {
    IrrigationEntry(w, if w % 2 == 0 then 25 else 15)
  }

  /** The pest actions week `w` adds to the schedule. */
  function PestFor(w: int): seq<PestAction> {
    if w in [6, 10] then [PestAction(w, NeemSpray)] else []
  }

  /** The fertilizer plan after weeks 1..weeks have been appended. */
  function FertilizerPlan(weeks: int): (r: seq<FertilizerEntry>)
    ensures |r| == if weeks <= 0 then 0 else weeks
    ensures forall i :: 0 <= i < |r| ==> r[i].week == i + 1
    decreases weeks
  {
    if weeks <= 0 then [] else FertilizerPlan(weeks - 1) + [FertilizerFor(weeks)]
  }

  function IrrigationPlan(weeks: int): (r: seq<IrrigationEntry>)
    ensures |r| == if weeks <= 0 then 0 else weeks
    ensures forall i :: 0 <= i < |r| ==> r[i].week == i + 1
    decreases weeks
  {
    if weeks <= 0 then [] else IrrigationPlan(weeks - 1) + [IrrigationFor(weeks)]
  }

  function PestActions(weeks: int): seq<PestAction>
    decreases weeks
  {
    if weeks <= 0 then [] else PestActions(weeks - 1) + PestFor(weeks)
  }

  /** The whole result for a season of `weeks` weeks. */
  function Schedule(weeks: int): Optimization {
    Optimization(ObjectiveValue, FertilizerPlan(weeks), IrrigationPlan(weeks), PestActions(weeks))
  }

  /**
   * classical_optimize: one pass over weeks 1..weeks appending to the three
   * lists. Its result depends on `weeks` alone.
   */
  method ClassicalOptimize(areaAcres: real, budget: Option<real>, waterLimit: Option<real>, weeks: int)
    returns (r: Optimization)
    ensures r == Schedule(weeks)
  {
    var fertPlan: seq<FertilizerEntry> := [];
    var irrPlan: seq<IrrigationEntry> := [];
    var pest: seq<PestAction> := [];
    var w := 1;
    while w <= weeks
      invariant 1 <= w <= if weeks >= 0 then weeks + 1 else 1
      invariant fertPlan == FertilizerPlan(w - 1)
      invariant irrPlan == IrrigationPlan(w - 1)
      invariant pest == PestActions(w - 1)
    {
      var fert := FertilizerEntry(w, 0, 0, 0);
      if w in [1, 4, 8, 12] {
        fert := FertilizerEntry(w, 30, 15, 15);
      }
      var waterMm := if w % 2 == 0 then 25 else 15;
      fertPlan := fertPlan + [fert];
      irrPlan := irrPlan + [IrrigationEntry(w, waterMm)];
      if w in [6, 10] {
        pest := pest + [PestAction(w, NeemSpray)];
      }
      w := w + 1;
    }
    r := Optimization(ObjectiveValue, fertPlan, irrPlan, pest);
  }

  /**
   * quantum_optimize: the stub delegates to the classical path using keyword
   * arguments only (area 1.0, budget and water limit absent, 20 weeks by
   * default); positional arguments are ignored.
   */
  method QuantumOptimize<A>(positional: seq<A>, keywords: Keywords) returns (r: Optimization)
    ensures r == Schedule(keywords.weeks.GetOr(20))
  {
    r := ClassicalOptimize(keywords.areaAcres.GetOr(1.0), keywords.budget, keywords.waterLimit,
                           keywords.weeks.GetOr(20));
  }

  // ---------------------------------------------------------------------
  // Properties of the schedule

  /** Both per-week plans have one entry per week, entry i carrying week i + 1. */
  lemma ScheduleShape(weeks: int)
    requires weeks >= 0
    ensures |Schedule(weeks).fertilizerPlan| == weeks
    ensures |Schedule(weeks).irrigationPlan| == weeks
    ensures forall i :: 0 <= i < weeks ==>
      Schedule(weeks).fertilizerPlan[i].week == i + 1 && Schedule(weeks).irrigationPlan[i].week == i + 1
    ensures Schedule(weeks).objectiveValue == 0.75
  {
  }

  /** A season without weeks: three empty lists, the usual objective and no failure. */
  lemma EmptySeason(weeks: int)
    requires weeks <= 0
    ensures Schedule(weeks) == Optimization(0.75, [], [], [])
  {
  }

  /** Entry i of the fertilizer plan is the week-(i + 1) dose. */
  lemma {:induction false} FertilizerPlanAt(weeks: int, i: int)
    requires 0 <= i < weeks
    ensures FertilizerPlan(weeks)[i] == FertilizerFor(i + 1)
    decreases weeks
  {
    if i < weeks - 1 {
      FertilizerPlanAt(weeks - 1, i);
    }
  }

  lemma {:induction false} IrrigationPlanAt(weeks: int, i: int)
    requires 0 <= i < weeks
    ensures IrrigationPlan(weeks)[i] == IrrigationFor(i + 1)
    decreases weeks
  {
    if i < weeks - 1 {
      IrrigationPlanAt(weeks - 1, i);
    }
  }

  /** A full dose N30 P15 K15 exactly in weeks 1, 4, 8 and 12; nothing in any other week. */
  lemma FertilizerRule(weeks: int, i: int)
    requires 0 <= i < weeks
    ensures var e := Schedule(weeks).fertilizerPlan[i];
      (e.week in {1, 4, 8, 12} ==> e == FertilizerEntry(e.week, 30, 15, 15)) &&
      (e.week !in {1, 4, 8, 12} ==> e == FertilizerEntry(e.week, 0, 0, 0))
  {
    FertilizerPlanAt(weeks, i);
  }

  /** 25 mm in even weeks, 15 mm in odd weeks. */
  lemma IrrigationRule(weeks: int, i: int)
    requires 0 <= i < weeks
    ensures var e := Schedule(weeks).irrigationPlan[i];
      e.week == i + 1 && e.mm == (if (i + 1) % 2 == 0 then 25 else 15)
  {
    IrrigationPlanAt(weeks, i);
  }

  /** The pest actions are the neem sprays of weeks 6 and 10 that fall in the season, in order. */
  lemma {:induction false} PestActionsExactly(weeks: int)
    ensures PestActions(weeks) ==
      (if 6 <= weeks then [PestAction(6, "Neem spray")] else []) +
      (if 10 <= weeks then [PestAction(10, "Neem spray")] else [])
    decreases weeks
  {
    if weeks > 0 {
      PestActionsExactly(weeks - 1);
      PestStep(weeks);
    }
  }

  /** Week w's actions take the closed form for w - 1 weeks to the one for w weeks. */
  lemma PestStep(w: int)
    ensures
      (if 6 <= w - 1 then [PestAction(6, "Neem spray")] else []) +
      (if 10 <= w - 1 then [PestAction(10, "Neem spray")] else []) + PestFor(w) ==
      (if 6 <= w then [PestAction(6, "Neem spray")] else []) +
      (if 10 <= w then [PestAction(10, "Neem spray")] else [])
  {
    if w == 6 || w == 10 {
      assert PestFor(w) == [PestAction(w, NeemSpray)];
    } else {
      assert PestFor(w) == [];
    }
  }

  lemma {:induction false} FertilizerPrefix(n: int, m: int)
    requires 0 <= n <= m
    ensures FertilizerPlan(n) == FertilizerPlan(m)[..n]
    decreases m
  {
    if n < m {
      FertilizerPrefix(n, m - 1);
      assert FertilizerPlan(m)[..m - 1] == FertilizerPlan(m - 1);
    }
  }

  lemma {:induction false} IrrigationPrefix(n: int, m: int)
    requires 0 <= n <= m
    ensures IrrigationPlan(n) == IrrigationPlan(m)[..n]
    decreases m
  {
    if n < m {
      IrrigationPrefix(n, m - 1);
      assert IrrigationPlan(m)[..m - 1] == IrrigationPlan(m - 1);
    }
  }

  lemma PestPrefix(n: int, m: int)
    requires 0 <= n <= m
    ensures PestActions(n) <= PestActions(m)
  {
    PestActionsExactly(n);
    PestActionsExactly(m);
  }

  /** A longer season extends a shorter one: each list for n weeks is a prefix of the one for m weeks. */
  lemma SchedulePrefix(n: int, m: int)
    requires 0 <= n <= m
    ensures Schedule(n).fertilizerPlan == Schedule(m).fertilizerPlan[..n]
    ensures Schedule(n).irrigationPlan == Schedule(m).irrigationPlan[..n]
    ensures PestActions(n) <= PestActions(m)
  {
    assert Schedule(n).fertilizerPlan == FertilizerPlan(n) && Schedule(m).fertilizerPlan == FertilizerPlan(m);
    assert Schedule(n).irrigationPlan == IrrigationPlan(n) && Schedule(m).irrigationPlan == IrrigationPlan(m);
    FertilizerPrefix(n, m);
    IrrigationPrefix(n, m);
    PestPrefix(n, m);
  }
}
