/** The rollup in terms of the logs themselves: what a subtree's figures are of the calls its Runs
    recorded, which Runs a report's steps name, and when no Run is counted twice. */
module Rollups {
  import opened Values
  import opened Metering
  import opened Records
  import opened Reducer
  import opened Billing
  import opened Subtrees
  import opened Joins
  import Rows = Report
  import LogTerms
  import History

  /** A log the store holds, under its Run's id. */
  datatype Stored = Stored(scope: Scope, log: seq<Record>)

  type Logs = map<RunId, Stored>

  predicate AllAccepted(logs: Logs) {
    forall id :: id in logs ==> Accepts(Fresh(id, logs[id].scope), logs[id].log)
  }

  function FoldedStore(logs: Logs): Store
    requires AllAccepted(logs)
  {
    map id | id in logs :: After(Fresh(id, logs[id].scope), logs[id].log).state
  }

  function StepRuns(rows: seq<Row<StepId, Record>>): seq<RunId> {
    if rows == [] then [] else StepRuns(Init(rows)) + NamedIn(Last(rows))
  }

  function NamedIn(row: Row<StepId, Record>): seq<RunId> {
    if row.end.Some? then NamedBy(row.end.value) else []
  }

  function NamedBy(r: Record): seq<RunId> {
    if r.body.StepCompleted? && r.body.childRunId.Some? then [r.body.childRunId.value] else []
  }

  function NestedRuns(logs: Logs): Nested {
    map id | id in logs :: StepRuns(Joins.Rows(Rows.EventsOf(logs[id].log, Rows.StepEvent)))
  }

  /** A store of accepted logs is one the walk can rely on. */
  lemma AcceptedLawful(logs: Logs)
    requires AllAccepted(logs)
    ensures Lawful(FoldedStore(logs))
  {
    forall id | id in logs ensures Listed(FoldedStore(logs)[id].family) {
      AcceptedListed(id, logs[id].scope, logs[id].log);
    }
  }

  // ------------------------------------------------ the Runs that steps name

  /** The Runs named by completed steps, in the order the steps completed. */
  function Named(log: seq<Record>): seq<RunId> {
    if log == [] then [] else Named(Init(log)) + NamedBy(Last(log))
  }

  lemma NamesOf(rows: seq<Row<StepId, Record>>, row: Row<StepId, Record>)
    ensures StepRuns(rows + [row]) == StepRuns(rows) + NamedIn(row)
  {
    assert Init(rows + [row]) == rows;
  }

  lemma {:induction false} NamesConcat(a: seq<Row<StepId, Record>>, b: seq<Row<StepId, Record>>)
    ensures StepRuns(a + b) == StepRuns(a) + StepRuns(b)
    decreases |b|
  {
    if b == [] {
      assert a + b == a;
    } else {
      assert Init(a + b) == a + Init(b) && Last(a + b) == Last(b);
      NamesConcat(a, Init(b));
    }
  }

  lemma NamesAround(a: seq<Row<StepId, Record>>, row: Row<StepId, Record>, b: seq<Row<StepId, Record>>)
    ensures StepRuns((a + [row]) + b) == (StepRuns(a) + NamedIn(row)) + StepRuns(b)
  {
    NamesConcat(a + [row], b);
    NamesOf(a, row);
  }

  lemma Woven(a: seq<RunId>, named: seq<RunId>, b: seq<RunId>)
    ensures multiset((a + named) + b) == multiset((a + []) + b) + multiset(named)
  {
    assert a + [] == a;
  }

  lemma Around<T>(s: seq<T>, i: nat, v: T)
    requires i < |s|
    ensures s == (s[..i] + [s[i]]) + s[i + 1..]
    ensures s[i := v] == (s[..i] + [v]) + s[i + 1..]
  {
  }

  lemma EndedNames(rows: seq<Row<StepId, Record>>, i: nat, end: Record)
    requires i < |rows| && rows[i].end.None?
    ensures multiset(StepRuns(rows[i := Ended(rows[i], end)])) == multiset(StepRuns(rows)) + multiset(NamedBy(end))
  {
    var before, after := rows[..i], rows[i + 1..];
    NamesAround(before, rows[i], after);
    NamesAround(before, Ended(rows[i], end), after);
    Around(rows, i, Ended(rows[i], end));
    Woven(StepRuns(before), NamedBy(end), StepRuns(after));
  }

  lemma NamesNext(before: seq<Event<StepId, Record>>, r: Record)
    requires Paired(before + [Rows.StepEvent(r)])
    ensures multiset(StepRuns(Joins.Rows(before + [Rows.StepEvent(r)])))
            == multiset(StepRuns(Joins.Rows(before))) + multiset(NamedBy(r))
  {
    var e := Rows.StepEvent(r);
    assert Init(before + [e]) == before && Last(before + [e]) == e;
    if e.End? {
      EndNames(before, e.key, r);
    } else {
      RowsStart(before, e);
      if e.Start? {
        NamesOf(Joins.Rows(before), Row(e.key, e.start, None));
      }
    }
  }

  lemma EndNames(before: seq<Event<StepId, Record>>, key: StepId, r: Record)
    requires Paired(before) && Open(before, key)
    ensures multiset(StepRuns(Joins.Rows(before + [End(key, r)])))
            == multiset(StepRuns(Joins.Rows(before))) + multiset(NamedBy(r))
  {
    OpenRow(before, key);
    RowsEnd(before, key, r);
    EndedNames(Joins.Rows(before), LastRow(Joins.Rows(before), key), r);
  }

  lemma {:induction false} PairedNames(log: seq<Record>)
    requires Paired(Rows.EventsOf(log, Rows.StepEvent))
    ensures multiset(StepRuns(Joins.Rows(Rows.EventsOf(log, Rows.StepEvent)))) == multiset(Named(log))
  {
    if log != [] {
      Rows.EventsSnoc(log, Rows.StepEvent);
      PairedNames(Init(log));
      NamesNext(Rows.EventsOf(Init(log), Rows.StepEvent), Last(log));
    }
  }

  /** Each Run a completed step of an accepted log names is one the report goes on to, as many
      times as it was named, and it goes on to no other. */
  lemma NamedOnce(logs: Logs, id: RunId)
    requires AllAccepted(logs) && id in logs
    ensures multiset(StepsOf(NestedRuns(logs), id)) == multiset(Named(logs[id].log))
  {
    Rows.StepsPaired(id, logs[id].scope, logs[id].log);
    PairedNames(logs[id].log);
  }

  // --------------------------------------------- the figures, call by call

  /** Every call that spent something, in the logs of the listed Runs. */
  function ChargesIn(logs: Logs, ids: seq<RunId>): seq<Charge> {
    if ids == [] then []
    else ChargesIn(logs, Init(ids)) + (if Last(ids) in logs then Charges(logs[Last(ids)].log) else [])
  }

  /** Figures that stand for exactly some calls. */
  ghost predicate PartMeans(p: Part, charges: seq<Charge>) {
    p.usage == SumUsage(charges) && CountsMean(p, charges) && TotalOf(p.cost, Costs(charges))
  }

  predicate CountsMean(p: Part, charges: seq<Charge>) {
    p.unreported == Unreported(charges) && p.unpriced + |Costs(charges)| == |charges|
  }

  lemma {:induction false} CostsConcat(a: seq<Charge>, b: seq<Charge>)
    ensures Costs(a + b) == Costs(a) + Costs(b)
    ensures Unreported(a + b) == Unreported(a) + Unreported(b)
    decreases |b|
  {
    if b == [] {
      assert a + b == a;
    } else {
      assert Init(a + b) == a + Init(b) && Last(a + b) == Last(b);
      CostsConcat(a, Init(b));
    }
  }

  lemma {:induction false} UsageConcat(a: seq<Charge>, b: seq<Charge>)
    ensures SumUsage(a + b) == SumUsage(a).Plus(SumUsage(b))
    decreases |b|
  {
    if b == [] {
      assert a + b == a;
      NoUsage(SumUsage(a));
    } else {
      assert Init(a + b) == a + Init(b) && Last(a + b) == Last(b);
      UsageConcat(a, Init(b));
      UsageAssociative(SumUsage(a), SumUsage(Init(b)), Last(b).usage);
    }
  }

  lemma {:induction false} AmountsConcat(a: seq<Cost>, b: seq<Cost>)
    ensures SumAmounts(a + b) == SumAmounts(a) + SumAmounts(b)
    ensures forall k: Category :: SumIn(a + b, k) == SumIn(a, k) + SumIn(b, k)
    decreases |b|
  {
    if b == [] {
      assert a + b == a;
    } else {
      assert Init(a + b) == a + Init(b) && Last(a + b) == Last(b);
      AmountsConcat(a, Init(b));
    }
  }

  lemma EachOf(a: seq<Cost>, b: seq<Cost>)
    ensures forall i :: 0 <= i < |a| ==> (a + b)[i] == a[i]
    ensures forall i :: 0 <= i < |b| ==> (a + b)[|a| + i] == b[i]
    ensures forall i :: |a| <= i < |a + b| ==> (a + b)[i] == b[i - |a|]
  {
  }

  lemma CategoryConcat(x: Option<real>, a: seq<Cost>, y: Option<real>, b: seq<Cost>, k: Category)
    requires CategoryOf(x, a, k) && CategoryOf(y, b, k)
    ensures CategoryOf(AddOptional(x, y), a + b, k)
  {
    EachOf(a, b);
    AmountsConcat(a, b);
    if AddOptional(x, y).None? {
      if x.None? {
        var i :| 0 <= i < |a| && AmountIn(a[i], k).None?;
        assert AmountIn((a + b)[i], k).None?;
      } else {
        var i :| 0 <= i < |b| && AmountIn(b[i], k).None?;
        assert AmountIn((a + b)[|a| + i], k).None?;
      }
    }
  }

  lemma CategoriesConcat(x: Cost, a: seq<Cost>, y: Cost, b: seq<Cost>)
    requires x.currency == y.currency
    requires forall k: Category :: CategoryOf(AmountIn(x, k), a, k) && CategoryOf(AmountIn(y, k), b, k)
    ensures forall k: Category :: CategoryOf(AmountIn(x.Plus(y), k), a + b, k)
  {
    forall k: Category ensures CategoryOf(AmountIn(x.Plus(y), k), a + b, k) {
      CategoryConcat(AmountIn(x, k), a, AmountIn(y, k), b, k);
    }
  }

  lemma SourceConcat(x: CostSource, a: seq<Cost>, y: CostSource, b: seq<Cost>)
    requires a != [] && b != [] && SourceOf(x, a) && SourceOf(y, b)
    ensures SourceOf(if x == y then x else Mixed, a + b)
  {
    EachOf(a, b);
    assert (a + b)[0] == a[0] && (a + b)[|a|] == b[0];
    if forall i :: 0 <= i < |a + b| ==> (a + b)[i].source == a[0].source {
      assert forall i :: 0 <= i < |a| ==> a[i].source == (a + b)[i].source;
      assert forall i :: 0 <= i < |b| ==> b[i].source == (a + b)[|a| + i].source;
    }
  }

  lemma TotalConcatenated(x: Cost, a: seq<Cost>, y: Cost, b: seq<Cost>)
    requires a != [] && b != [] && TotalOf(Some(x), a) && TotalOf(Some(y), b) && x.currency == y.currency
    ensures TotalOf(Some(x.Plus(y)), a + b)
  {
    EachOf(a, b);
    AmountsConcat(a, b);
    CategoriesConcat(x, a, y, b);
    SourceConcat(x.source, a, y.source, b);
    ModelConcat(x.model, a, y.model, b);
  }

  lemma {:induction false} ModelConcat(x: string, a: seq<Cost>, y: string, b: seq<Cost>)
    requires a != [] && b != [] && ModelOf(x, a) && ModelOf(y, b)
    ensures ModelOf(if x == y then x else "<mixed>", a + b)
  {
    EachOf(a, b);
    var all := a + b;
    assert all[0] == a[0] && all[|a|] == b[0];
    if forall i :: 0 <= i < |all| ==> all[i].model == all[0].model {
      assert forall i :: 0 <= i < |a| ==> a[i] == all[i];
      assert forall i :: 0 <= i < |b| ==> b[i] == all[|a| + i];
    } else if x == y {
      OneModel(a, b, x);
    }
  }

  /** Two groups of costs told as one model are of it, unless that is the mark of several. */
  lemma {:induction false} OneModel(a: seq<Cost>, b: seq<Cost>, model: string)
    requires a != [] && b != [] && ModelOf(model, a) && ModelOf(model, b)
    ensures model != "<mixed>" ==> forall i :: 0 <= i < |a + b| ==> (a + b)[i].model == (a + b)[0].model
  {
    EachOf(a, b);
    if model != "<mixed>" {
      assert forall i :: 0 <= i < |a| ==> a[i].model == model;
      assert forall i :: 0 <= i < |b| ==> b[i].model == model;
    }
  }

  lemma CurrenciesMeet(x: Cost, a: seq<Cost>, y: Cost, b: seq<Cost>)
    requires a != [] && b != [] && TotalOf(Some(x), a) && TotalOf(Some(y), b)
    ensures OneCurrency(a + b) <==> x.currency == y.currency
  {
    EachOf(a, b);
    if x.currency != y.currency {
      assert (a + b)[0].currency != (a + b)[|a|].currency;
    }
  }

  /** One total for two runs of costs: there is one exactly when their currencies agree. */
  lemma CostsMeet(x: Option<Cost>, a: seq<Cost>, y: Option<Cost>, b: seq<Cost>)
    requires TotalOf(x, a) && TotalOf(y, b)
    ensures OneCurrency(a + b) <==> !(x.Some? && y.Some? && x.value.currency != y.value.currency)
    ensures OneCurrency(a + b) ==>
              TotalOf(if x.None? then y else if y.None? then x else Some(x.value.Plus(y.value)), a + b)
  {
    if a == [] {
      assert a + b == b;
    } else if b == [] {
      assert a + b == a;
    } else {
      CurrenciesMeet(x.value, a, y.value, b);
      if x.value.currency == y.value.currency {
        TotalConcatenated(x.value, a, y.value, b);
      }
    }
  }

  lemma {:induction false} JoinedCost(x: Part, a: seq<Charge>, y: Part, b: seq<Charge>)
    requires TotalOf(x.cost, Costs(a)) && TotalOf(y.cost, Costs(b))
    ensures Join(Some(x), Some(y)).Some? <==> OneCurrency(Costs(a + b))
    ensures Join(Some(x), Some(y)).Some? ==> TotalOf(Join(Some(x), Some(y)).value.cost, Costs(a + b))
  {
    CostsConcat(a, b);
    CostsMeet(x.cost, Costs(a), y.cost, Costs(b));
    JoinIs(x, y);
  }

  lemma {:induction false} JoinedCounts(x: Part, a: seq<Charge>, y: Part, b: seq<Charge>)
    requires CountsMean(x, a) && CountsMean(y, b)
    ensures Join(Some(x), Some(y)).Some? ==> CountsMean(Join(Some(x), Some(y)).value, a + b)
  {
    JoinIs(x, y);
    CostsConcat(a, b);
  }

  lemma {:induction false} JoinedUsage(x: Part, a: seq<Charge>, y: Part, b: seq<Charge>)
    requires x.usage == SumUsage(a) && y.usage == SumUsage(b)
    ensures Join(Some(x), Some(y)).Some? ==> Join(Some(x), Some(y)).value.usage == SumUsage(a + b)
  {
    JoinIs(x, y);
    UsageConcat(a, b);
  }

  /** Two sums, each of some calls, add up exactly when those calls share one currency, and
      then to the sum of all of them. */
  lemma {:induction false} JoinMeans(x: Part, a: seq<Charge>, y: Part, b: seq<Charge>)
    requires PartMeans(x, a) && PartMeans(y, b)
    ensures Join(Some(x), Some(y)).Some? <==> OneCurrency(Costs(a + b))
    ensures Join(Some(x), Some(y)).Some? ==> PartMeans(Join(Some(x), Some(y)).value, a + b)
  {
    JoinedUsage(x, a, y, b);
    JoinedCounts(x, a, y, b);
    JoinedCost(x, a, y, b);
  }

  lemma {:induction false} OwnMeans(logs: Logs, id: RunId)
    requires AllAccepted(logs) && id in logs
    ensures PartMeans(Own(FoldedStore(logs)[id]), Charges(logs[id].log))
  {
    Conserved(id, logs[id].scope, logs[id].log);
  }

  lemma FrontOneCurrency(a: seq<Cost>, b: seq<Cost>)
    requires OneCurrency(a + b)
    ensures OneCurrency(a)
  {
    EachOf(a, b);
  }

  /** The flat sum over some Runs' own figures is the sum over every call in their logs. */
  lemma {:induction false} OwnsMean(logs: Logs, ids: seq<RunId>)
    requires AllAccepted(logs) && forall r :: r in ids ==> r in logs
    ensures Total(Owns(FoldedStore(logs), ids)).Some? <==> OneCurrency(Costs(ChargesIn(logs, ids)))
    ensures Total(Owns(FoldedStore(logs), ids)).Some? ==>
              PartMeans(Total(Owns(FoldedStore(logs), ids)).value, ChargesIn(logs, ids))
  {
    if ids != [] {
      var front, id := Init(ids), Last(ids);
      var own := Own(FoldedStore(logs)[id]);
      OwnsMean(logs, front);
      OwnMeans(logs, id);
      CostsConcat(ChargesIn(logs, front), Charges(logs[id].log));
      OneMoreTotal(Owns(FoldedStore(logs), front), own);
      if Total(Owns(FoldedStore(logs), front)).Some? {
        JoinMeans(Total(Owns(FoldedStore(logs), front)).value, ChargesIn(logs, front), own, Charges(logs[id].log));
      } else if OneCurrency(Costs(ChargesIn(logs, ids))) {
        FrontOneCurrency(Costs(ChargesIn(logs, front)), Costs(Charges(logs[id].log)));
      }
    }
  }

  lemma OneMoreTotal(parts: seq<Part>, p: Part)
    ensures Total(parts + [p]) == Join(Total(parts), Some(p))
  {
    assert Init(parts + [p]) == parts;
  }

  /** Of a walk that reaches every Run, the rollup exists exactly when every call in every log of
      the tree was billed in one currency, and is then the sum over all those calls. */
  lemma {:induction false} TreeCharges(logs: Logs, id: RunId, depth: nat)
    requires AllAccepted(logs) && Lawful(FoldedStore(logs))
    requires Known(FoldedStore(logs), id, depth) && Reaches(FoldedStore(logs), id, depth)
    ensures var total := Total(Parts(FoldedStore(logs), id, depth));
            var charges := ChargesIn(logs, Tree(FoldedStore(logs), id, depth));
            && (total.Some? <==> OneCurrency(Costs(charges)))
            && (total.Some? ==> PartMeans(total.value, charges))
  {
    var store := FoldedStore(logs);
    TreeHeld(store, id, depth);
    PartsAreOwn(store, id, depth);
    OwnsMean(logs, Tree(store, id, depth));
  }

  /** `build_report` over a store of accepted logs. Its steps' Runs are those the logs name; its
      branch, when the walk reaches every Run, is what every call in the tree spent. */
  method ReportOn(logs: Logs, id: RunId, depth: nat) returns (r: Built)
    requires AllAccepted(logs)
    ensures Lawful(FoldedStore(logs))
    ensures r.Built? <==> Buildable(FoldedStore(logs), NestedRuns(logs), id, depth)
    ensures r.Built? ==>
              && Exact(FoldedStore(logs), id, depth, r.report)
              && NestedExact(FoldedStore(logs), NestedRuns(logs), id, depth, r.report.nested)
    ensures r.Built? && Reaches(FoldedStore(logs), id, depth) ==>
              var charges := ChargesIn(logs, Tree(FoldedStore(logs), id, depth));
              && PartMeans(BranchOf(r.report).sum, charges)
              && (BranchOf(r.report).costIsIncomplete <==> |Costs(charges)| < |charges|)
  {
    AcceptedLawful(logs);
    r := BuildReport(FoldedStore(logs), NestedRuns(logs), id, depth);
    if r.Built? && Reaches(FoldedStore(logs), id, depth) {
      TreeCharges(logs, id, depth);
    }
  }

  // ------------------------------------------- what a parent's log recorded

  /** The record of a child's end in its parent's log. */
  function EndRecord(log: seq<Record>, child: RunId): (r: Option<Record>)
    ensures r.Some? ==> r.value.body.SubagentFinished?
  {
    History.ChildEnd(log, child)
  }

  /** Figures of a Run that is known by its end's record alone, or not at all yet. */
  predicate FiguresOf(p: Part, end: Option<Record>)
    requires end.Some? ==> end.value.body.SubagentFinished?
  {
    && p.runs == 1
    && p.usage == (if end.Some? then end.value.body.usage else NO_USAGE)
    && p.unreported == (if end.Some? then end.value.body.unreportedUsageCalls else 0)
    && p.cost == (if end.Some? then end.value.body.cost else None)
    && p.unpriced == (if end.Some? then end.value.body.unpricedModelCalls else 0)
  }

  lemma {:induction false} ChildRecorded(logs: Logs, id: RunId, child: RunId)
    requires AllAccepted(logs) && id in logs && child in FoldedStore(logs)[id].family.children
    ensures FiguresOf(Recorded(FoldedStore(logs)[id].family.children[child]), EndRecord(logs[id].log, child))
    ensures FoldedStore(logs)[id].family.children[child].Alive() <==> EndRecord(logs[id].log, child).None?
  {
    History.StateMeans(id, logs[id].scope, logs[id].log);
    ChildIs(FoldedStore(logs)[id].family, logs[id].log, child);
  }

  lemma {:induction false} ChildIs(f: Family, log: seq<Record>, child: RunId)
    requires History.FamilyMeans(f, log) && child in f.children
    ensures FiguresOf(Recorded(f.children[child]), EndRecord(log, child))
    ensures f.children[child].Alive() <==> EndRecord(log, child).None?
  {
    assert History.ChildMeans(f.children, log, child);
  }

  /** Figures of each spawn of a log in order, by the record of that child's end. */
  ghost predicate RecordedParts(parts: seq<Part>, log: seq<Record>) {
    var spawns := LogTerms.Where(log, LogTerms.AllSpawns);
    && |parts| == |spawns|
    && forall n :: 0 <= n < |spawns| ==> FiguresOf(parts[n], EndRecord(log, log[spawns[n]].body.child))
  }

  lemma {:induction false} FamilyParts(f: Family, log: seq<Record>, parts: seq<Part>)
    requires History.FamilyMeans(f, log) && Listed(f) && |parts| == |f.order|
    requires forall i :: 0 <= i < |parts| ==> parts[i] == Recorded(f.children[f.order[i]])
    ensures RecordedParts(parts, log)
  {
    OrderIs(f, log);
    forall n | 0 <= n < |parts| ensures FiguresOf(parts[n], EndRecord(log, f.order[n])) {
      ChildIs(f, log, f.order[n]);
    }
  }

  /** Without depth the walk is the Run's own figures and, for each spawn in order, those the
      record of that child's end brought. */
  lemma {:induction false} PartsWithoutDepth(logs: Logs, id: RunId)
    requires AllAccepted(logs) && Lawful(FoldedStore(logs)) && Known(FoldedStore(logs), id, 0)
    ensures var parts := Parts(FoldedStore(logs), id, 0);
            && parts != [] && PartMeans(parts[0], Charges(logs[id].log)) && RecordedParts(parts[1..], logs[id].log)
  {
    var store := FoldedStore(logs);
    var n := |store[id].family.order|;
    History.StateMeans(id, logs[id].scope, logs[id].log);
    OwnMeans(logs, id);
    ChildPartsWithoutDepth(store, id, n);
    FamilyParts(store[id].family, logs[id].log, ChildParts(store, id, 0, n));
    assert Parts(store, id, 0)[1..] == ChildParts(store, id, 0, n);
  }

  lemma {:induction false} OrderIs(f: Family, log: seq<Record>)
    requires History.FamilyMeans(f, log)
    ensures |f.order| == |LogTerms.Where(log, LogTerms.AllSpawns)|
    ensures forall n :: 0 <= n < |f.order| ==> f.order[n] == log[LogTerms.Where(log, LogTerms.AllSpawns)[n]].body.child
  {
  }

  lemma {:induction false} ChildPartsWithoutDepth(store: Store, id: RunId, n: nat)
    requires Lawful(store) && Known(store, id, 0) && n <= |store[id].family.order|
    ensures |ChildParts(store, id, 0, n)| == n
    ensures forall i :: 0 <= i < n ==>
              ChildParts(store, id, 0, n)[i] == Recorded(store[id].family.children[store[id].family.order[i]])
  {
    if n > 0 {
      ChildPartsWithoutDepth(store, id, n - 1);
    }
  }

  // --------------------------------------------------- no Run counted twice

  /** What every admission of a child records: the Run that spawned it. */
  predicate ParentLinked(store: Store) {
    forall id, c :: id in store && c in store[id].family.order && c in store ==>
      store[c].life.admission.parentRunId == Some(id)
  }

  /** The Run `n` admissions up. */
  function Up(store: Store, id: RunId, n: nat): Option<RunId>
    decreases n
  {
    if n == 0 then Some(id)
    else if id !in store || store[id].life.admission.parentRunId.None? then None
    else Up(store, store[id].life.admission.parentRunId.value, n - 1)
  }

  /** A Run that is not its own ancestor. */
  ghost predicate NoLoop(store: Store, id: RunId) {
    forall n: nat :: n > 0 ==> Up(store, id, n) != Some(id)
  }

  lemma {:induction false} UpAdd(store: Store, id: RunId, m: nat, n: nat)
    ensures Up(store, id, m + n)
            == if Up(store, id, m).Some? then Up(store, Up(store, id, m).value, n) else None
    decreases m
  {
    if m > 0 && id in store && store[id].life.admission.parentRunId.Some? {
      UpAdd(store, store[id].life.admission.parentRunId.value, m - 1, n);
    }
  }

  /** A Run admitted without a parent is not its own ancestor. */
  lemma RootNoLoop(store: Store, id: RunId)
    requires id in store && store[id].life.admission.parentRunId.None?
    ensures NoLoop(store, id)
  {
  }

  lemma ChildNoLoop(store: Store, id: RunId, child: RunId)
    requires NoLoop(store, id) && Up(store, child, 1) == Some(id)
    ensures NoLoop(store, child)
  {
    forall n: nat | n > 0 ensures Up(store, child, n) != Some(child) {
      UpAdd(store, child, 1, n - 1);
      UpAdd(store, id, n - 1, 1);
      assert n - 1 + 1 == n;
    }
  }

  lemma ChildUp(store: Store, id: RunId, i: nat)
    requires ParentLinked(store) && id in store && i < |store[id].family.order| && store[id].family.order[i] in store
    ensures Up(store, store[id].family.order[i], 1) == Some(id)
  {
    var child := store[id].family.order[i];
    assert child in store[id].family.order;
    assert Up(store, id, 0) == Some(id);
  }

  lemma {:induction false} LinkedNoLoop(store: Store, id: RunId, i: nat, child: RunId)
    requires ParentLinked(store) && ChildrenHeld(store, id) && NoLoop(store, id)
    requires i < |store[id].family.order| && child == store[id].family.order[i]
    ensures NoLoop(store, child)
  {
    ChildUp(store, id, i);
    ChildNoLoop(store, id, child);
  }

  /** The Run is some way above. */
  ghost predicate Under(store: Store, r: RunId, id: RunId) {
    exists k: nat :: Up(store, r, k) == Some(id)
  }

  lemma {:induction false} UnderChild(store: Store, r: RunId, child: RunId, id: RunId)
    requires Under(store, r, child) && Up(store, child, 1) == Some(id)
    ensures Under(store, r, id) && (NoLoop(store, id) ==> r != id)
  {
    var k: nat :| Up(store, r, k) == Some(child);
    UpAdd(store, r, k, 1);
    assert Up(store, r, k + 1) == Some(id);
  }

  predicate ChildrenHeld(store: Store, id: RunId) {
    id in store && forall i :: 0 <= i < |store[id].family.order| ==> store[id].family.order[i] in store
  }

  /** One of the Run's first `n` children is some way above. */
  ghost predicate UnderFirst(store: Store, id: RunId, n: nat, r: RunId)
    requires id in store && n <= |store[id].family.order|
  {
    exists i :: 0 <= i < n && Under(store, r, store[id].family.order[i])
  }

  ghost predicate AllUnder(store: Store, ids: seq<RunId>, id: RunId) {
    forall r :: r in ids ==> Under(store, r, id)
  }

  ghost predicate AllUnderFirst(store: Store, id: RunId, n: nat, ids: seq<RunId>)
    requires id in store && n <= |store[id].family.order|
  {
    forall r :: r in ids ==> UnderFirst(store, id, n, r)
  }

  lemma {:induction false} FirstIsUnder(store: Store, id: RunId, n: nat, r: RunId)
    requires ParentLinked(store) && ChildrenHeld(store, id) && n <= |store[id].family.order|
    requires UnderFirst(store, id, n, r)
    ensures Under(store, r, id)
  {
    var i :| 0 <= i < n && Under(store, r, store[id].family.order[i]);
    ChildUp(store, id, i);
    UnderChild(store, r, store[id].family.order[i], id);
  }

  lemma {:induction false} TreeUnder(store: Store, id: RunId, depth: nat)
    requires ParentLinked(store) && Known(store, id, depth)
    ensures AllUnder(store, Tree(store, id, depth), id)
    decreases depth, 1, 0
  {
    assert Up(store, id, 0) == Some(id);
    if depth > 0 {
      var n := |store[id].family.order|;
      BelowUnder(store, id, depth, n);
      forall r | r in Below(store, id, depth, n) ensures Under(store, r, id) {
        FirstIsUnder(store, id, n, r);
      }
    }
  }

  lemma {:induction false} BelowUnder(store: Store, id: RunId, depth: nat, n: nat)
    requires ParentLinked(store) && Known(store, id, depth) && depth > 0 && n <= |store[id].family.order|
    ensures AllUnderFirst(store, id, n, Below(store, id, depth, n))
    decreases depth, 0, n
  {
    if n > 0 {
      BelowUnder(store, id, depth, n - 1);
      TreeUnder(store, store[id].family.order[n - 1], depth - 1);
    }
  }

  /** Nothing is under two children of one Run. */
  lemma {:induction false} UnderOne(store: Store, id: RunId, r: RunId, a: RunId, b: RunId)
    requires NoLoop(store, id) && Up(store, a, 1) == Some(id) && Up(store, b, 1) == Some(id)
    requires Under(store, r, a) && Under(store, r, b)
    ensures a == b
  {
    var j: nat :| Up(store, r, j) == Some(a);
    var k: nat :| Up(store, r, k) == Some(b);
    if j < k {
      UpAdd(store, r, j, k - j);
      NotAbove(store, id, a, b, k - j);
    } else if k < j {
      UpAdd(store, r, k, j - k);
      NotAbove(store, id, b, a, j - k);
    }
  }

  lemma {:induction false} NotAbove(store: Store, id: RunId, a: RunId, b: RunId, n: nat)
    requires NoLoop(store, id) && Up(store, a, 1) == Some(id) && Up(store, b, 1) == Some(id)
    requires n > 0
    ensures Up(store, a, n) != Some(b)
  {
    UpAdd(store, a, 1, n - 1);
    UpAdd(store, id, n - 1, 1);
    assert Up(store, a, n) == Some(b) ==> Up(store, id, n) == Some(id);
  }

  predicate Distinct(ids: seq<RunId>) {
    forall i, j :: 0 <= i < j < |ids| ==> ids[i] != ids[j]
  }

  predicate Apart(a: seq<RunId>, b: seq<RunId>) {
    forall r :: r in a ==> r !in b
  }

  lemma DistinctConcat(a: seq<RunId>, b: seq<RunId>)
    requires Distinct(a) && Distinct(b) && Apart(a, b)
    ensures Distinct(a + b)
  {
    forall i, j | 0 <= i < j < |a + b| ensures (a + b)[i] != (a + b)[j] {
      if i < |a| <= j {
        assert a[i] in a && b[j - |a|] in b;
      }
    }
  }

  /** Where admissions record the parent, no Run of the walk is met twice. */
  lemma {:induction false} TreeDistinct(store: Store, id: RunId, depth: nat)
    requires Lawful(store) && ParentLinked(store) && Known(store, id, depth) && NoLoop(store, id)
    ensures Distinct(Tree(store, id, depth))
    decreases depth, 1, 0
  {
    if depth > 0 {
      var n := |store[id].family.order|;
      BelowDistinct(store, id, depth, n);
      BelowUnder(store, id, depth, n);
      NotUnderItself(store, id, Below(store, id, depth, n), n);
      DistinctConcat([id], Below(store, id, depth, n));
    }
  }

  lemma {:induction false} NotUnderItself(store: Store, id: RunId, below: seq<RunId>, n: nat)
    requires ParentLinked(store) && ChildrenHeld(store, id) && NoLoop(store, id) && n <= |store[id].family.order|
    requires AllUnderFirst(store, id, n, below)
    ensures Apart([id], below)
  {
    forall r | r in below ensures r != id {
      var i :| 0 <= i < n && Under(store, r, store[id].family.order[i]);
      ChildUp(store, id, i);
      UnderChild(store, r, store[id].family.order[i], id);
    }
  }

  lemma {:induction false} BelowDistinct(store: Store, id: RunId, depth: nat, n: nat)
    requires Lawful(store) && ParentLinked(store) && Known(store, id, depth) && NoLoop(store, id)
    requires depth > 0 && n <= |store[id].family.order|
    ensures Distinct(Below(store, id, depth, n))
    decreases depth, 0, n
  {
    if n > 0 {
      var child := store[id].family.order[n - 1];
      KnownHeld(store, id, depth);
      LinkedNoLoop(store, id, n - 1, child);
      BelowDistinct(store, id, depth, n - 1);
      TreeDistinct(store, child, depth - 1);
      LastBranchApart(store, id, depth, n, child);
      BranchesDistinct(store, id, depth, n, child);
    }
  }

  lemma {:induction false} BranchesDistinct(store: Store, id: RunId, depth: nat, n: nat, child: RunId)
    requires Known(store, id, depth)
    requires 0 < depth && 0 < n <= |store[id].family.order| && child == store[id].family.order[n - 1]
    requires Distinct(Below(store, id, depth, n - 1)) && Distinct(Tree(store, child, depth - 1))
    requires Apart(Below(store, id, depth, n - 1), Tree(store, child, depth - 1))
    ensures Distinct(Below(store, id, depth, n))
  {
    DistinctConcat(Below(store, id, depth, n - 1), Tree(store, child, depth - 1));
    BelowLast(store, id, depth, n);
  }

  lemma {:induction false} LastBranchApart(store: Store, id: RunId, depth: nat, n: nat, child: RunId)
    requires ParentLinked(store) && Known(store, id, depth) && NoLoop(store, id)
    requires ChildrenHeld(store, id) && Listed(store[id].family)
    requires 0 < depth && 0 < n <= |store[id].family.order| && child == store[id].family.order[n - 1]
    ensures Apart(Below(store, id, depth, n - 1), Tree(store, child, depth - 1))
  {
    var front, tree := Below(store, id, depth, n - 1), Tree(store, child, depth - 1);
    LastBranchUnder(store, id, depth, n, child);
    BranchesApart(store, id, front, tree, n - 1, child);
  }

  lemma KnownHeld(store: Store, id: RunId, depth: nat)
    requires Known(store, id, depth) && depth > 0
    ensures ChildrenHeld(store, id)
  {
  }

  lemma {:induction false} LastBranchUnder(store: Store, id: RunId, depth: nat, n: nat, child: RunId)
    requires ParentLinked(store) && Known(store, id, depth)
    requires 0 < depth && 0 < n <= |store[id].family.order| && child == store[id].family.order[n - 1]
    ensures AllUnderFirst(store, id, n - 1, Below(store, id, depth, n - 1))
    ensures AllUnder(store, Tree(store, child, depth - 1), child)
  {
    BelowUnder(store, id, depth, n - 1);
    TreeUnder(store, child, depth - 1);
  }

  lemma {:induction false} BranchesApart(
      store: Store, id: RunId, front: seq<RunId>, tree: seq<RunId>, n: nat, child: RunId)
    requires ParentLinked(store) && ChildrenHeld(store, id) && Listed(store[id].family) && NoLoop(store, id)
    requires n < |store[id].family.order| && child == store[id].family.order[n]
    requires AllUnderFirst(store, id, n, front)
    requires AllUnder(store, tree, child)
    ensures Apart(front, tree)
  {
    var order := store[id].family.order;
    forall r | r in front ensures r !in tree {
      var i :| 0 <= i < n && Under(store, r, order[i]);
      ChildUp(store, id, i);
      ChildUp(store, id, n);
      if r in tree {
        UnderOne(store, id, r, order[i], order[n]);
      }
    }
  }

  lemma {:induction false} DistinctCount(ids: seq<RunId>)
    requires Distinct(ids)
    ensures |set r | r in ids| == |ids|
  {
    if ids != [] {
      DistinctCount(Init(ids));
      assert (set r | r in ids) == (set r | r in Init(ids)) + {Last(ids)};
      assert Last(ids) !in Init(ids);
    }
  }

  /** So `runs` counts Runs. */
  lemma {:induction false} RunsCounted(store: Store, id: RunId, depth: nat)
    requires Lawful(store) && ParentLinked(store) && Known(store, id, depth) && Reaches(store, id, depth)
    requires NoLoop(store, id) && Total(Parts(store, id, depth)).Some?
    ensures Total(Parts(store, id, depth)).value.runs == |set r | r in Tree(store, id, depth)|
  {
    TreeTotal(store, id, depth);
    TreeDistinct(store, id, depth);
    DistinctCount(Tree(store, id, depth));
  }
}
