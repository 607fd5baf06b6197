/** A report's subtree: what a Run and every Run it spawned used and cost, rolled up branch by
    branch, against the flat sum over the same Runs. */
module Subtrees {
  import opened Values
  import opened Metering
  import opened Records
  import opened Reducer
  import Billing

  /** What one Run, or several added up, used and cost. */
  datatype Part = Part(usage: Usage, unreported: nat, cost: Option<Cost>, unpriced: nat, runs: nat)

  const NOTHING := Part(NO_USAGE, 0, None, 0, 0)

  /** Adding two sums; two currencies have no sum. */
  function Join(a: Option<Part>, b: Option<Part>): Option<Part> {
    if a.None? || b.None? then None
    else
      var x, y := a.value, b.value;
      if x.cost.Some? && y.cost.Some? && x.cost.value.currency != y.cost.value.currency then None
      else
        Some(Part(x.usage.Plus(y.usage), x.unreported + y.unreported,
                  if x.cost.None? then y.cost
                  else if y.cost.None? then x.cost else Some(x.cost.value.Plus(y.cost.value)),
                  x.unpriced + y.unpriced, x.runs + y.runs))
  }

  /** The flat sum. */
  function Total(parts: seq<Part>): Option<Part> {
    if parts == [] then Some(NOTHING) else Join(Total(Init(parts)), Some(Last(parts)))
  }

  lemma PlusAssociative(a: Cost, b: Cost, c: Cost)
    requires a.currency == b.currency == c.currency
    ensures a.Plus(b).Plus(c) == a.Plus(b.Plus(c))
  {
  }

  lemma UsageAssociative(a: Usage, b: Usage, c: Usage)
    ensures a.Plus(b).Plus(c) == a.Plus(b.Plus(c))
  {
  }

  lemma JoinAssociative(a: Option<Part>, b: Option<Part>, c: Option<Part>)
    ensures Join(Join(a, b), c) == Join(a, Join(b, c))
  {
    if a.Some? && b.Some? && c.Some? {
      var x, y, z := a.value.cost, b.value.cost, c.value.cost;
      UsageAssociative(a.value.usage, b.value.usage, c.value.usage);
      if x.Some? && y.Some? && z.Some? && x.value.currency == y.value.currency == z.value.currency {
        PlusAssociative(x.value, y.value, z.value);
      }
    }
  }

  lemma JoinNothing(a: Option<Part>)
    ensures Join(Some(NOTHING), a) == a == Join(a, Some(NOTHING))
  {
    if a.Some? {
      EmptyJoins(NOTHING, a.value);
    }
  }

  lemma EmptyJoins(n: Part, p: Part)
    requires n.usage == NO_USAGE && n.unreported == 0 && n.cost.None? && n.unpriced == 0 && n.runs == 0
    ensures Join(Some(n), Some(p)) == Some(p)
    ensures Join(Some(p), Some(n)) == Some(p)
  {
    NoUsage(p.usage);
    JoinIs(n, p);
    JoinIs(p, n);
    SamePart(Join(Some(n), Some(p)).value, p);
    SamePart(Join(Some(p), Some(n)).value, p);
  }

  lemma NoUsage(u: Usage)
    ensures NO_USAGE.Plus(u) == u && u.Plus(NO_USAGE) == u
  {
  }

  lemma SamePart(p: Part, q: Part)
    requires p.usage == q.usage && p.unreported == q.unreported && p.cost == q.cost
    requires p.unpriced == q.unpriced && p.runs == q.runs
    ensures p == q
  {
  }

  lemma JoinIs(x: Part, y: Part)
    ensures Join(Some(x), Some(y)).Some?
            <==> !(x.cost.Some? && y.cost.Some? && x.cost.value.currency != y.cost.value.currency)
    ensures Join(Some(x), Some(y)).Some? ==>
              var p := Join(Some(x), Some(y)).value;
              && p.usage == x.usage.Plus(y.usage) && p.unreported == x.unreported + y.unreported
              && p.unpriced == x.unpriced + y.unpriced && p.runs == x.runs + y.runs
              && p.cost == if x.cost.None? then y.cost else if y.cost.None? then x.cost
                           else Some(x.cost.value.Plus(y.cost.value))
  {
  }

  /** Summing in groups is summing flat. */
  lemma {:induction false} TotalConcat(a: seq<Part>, b: seq<Part>)
    ensures Total(a + b) == Join(Total(a), Total(b))
    decreases |b|
  {
    if b == [] {
      assert a + b == a;
      JoinNothing(Total(a));
    } else {
      assert Init(a + b) == a + Init(b) && Last(a + b) == Last(b);
      TotalConcat(a, Init(b));
      JoinAssociative(Total(a), Total(Init(b)), Some(Last(b)));
    }
  }

  lemma TotalOne(p: Part)
    ensures Total([p]) == Some(p)
  {
    assert Init([p]) == [];
    JoinNothing(Some(p));
  }

  // -------------------------------------------------------------- the Runs

  /** The folded state of every Run whose log the store holds. */
  type Store = map<RunId, State>

  function Own(s: State): Part {
    Part(s.bill.usage, s.bill.unreportedUsageCalls, s.bill.cost, s.bill.unpricedModelCalls, 1)
  }

  /** What the parent's own log recorded of a child. */
  function Recorded(c: ChildRun): Part {
    Part(c.usage, c.unreportedUsageCalls, c.cost, c.unpricedModelCalls, 1)
  }

  /** The order lists the children. */
  predicate Listed(f: Family) {
    && (forall i :: 0 <= i < |f.order| ==> f.order[i] in f.children)
    && (forall c :: c in f.children ==> c in f.order)
    && forall i, j :: 0 <= i < j < |f.order| ==> f.order[i] != f.order[j]
  }

  predicate Lawful(store: Store) {
    forall id :: id in store ==> Listed(store[id].family)
  }

  /** The Runs that a Run's completed steps name, in the order of the step rows. */
  type Nested = map<RunId, seq<RunId>>

  /** The step Runs of one Run; none for a Run nobody listed any for. */
  function StepsOf(nested: Nested, id: RunId): seq<RunId> {
    if id in nested then nested[id] else []
  }

  lemma FamilyEffect(f: Fold, r: Record)
    requires Step(f, r).Accepted? && Listed(f.state.family)
    ensures Listed(Step(f, r).value.state.family)
  {
    var a, b := f.state.family, Step(f, r).value.state.family;
    if r.body.SubagentSpawned? {
      assert b.order == a.order + [r.body.child];
      assert forall i :: 0 <= i < |a.order| ==> b.order[i] == a.order[i];
      assert b.order[|a.order|] == r.body.child;
    }
  }

  /** In an accepted fold each child is listed, once. */
  lemma {:induction false} AcceptedListed(runId: RunId, scope: Scope, log: seq<Record>)
    requires Accepts(Fresh(runId, scope), log)
    ensures Listed(After(Fresh(runId, scope), log).state.family)
  {
    if log != [] {
      RunSnoc(Fresh(runId, scope), log);
      AcceptedListed(runId, scope, Init(log));
      FamilyEffect(After(Fresh(runId, scope), Init(log)), Last(log));
    }
  }

  /** Whether a walk of the subagents to this depth finds every Run it looks for, admitted. */
  predicate Known(store: Store, id: RunId, depth: nat)
    decreases depth
  {
    && id in store && store[id].life.admitted
    && (depth > 0 ==>
          forall i :: 0 <= i < |store[id].family.order| ==> Known(store, store[id].family.order[i], depth - 1))
  }

  /** The Runs of the walk, a Run before its children: each one's own figures, or beyond the
      depth what its parent recorded. */
  function Parts(store: Store, id: RunId, depth: nat): seq<Part>
    requires Lawful(store) && Known(store, id, depth)
    decreases depth, 1, 0
  {
    [Own(store[id])] + ChildParts(store, id, depth, |store[id].family.order|)
  }

  /** The walk of the first `n` children. */
  function ChildParts(store: Store, id: RunId, depth: nat, n: nat): seq<Part>
    requires Lawful(store) && Known(store, id, depth) && n <= |store[id].family.order|
    decreases depth, 0, n
  {
    if n == 0 then [] else ChildParts(store, id, depth, n - 1) + OneChild(store, id, depth, n - 1)
  }

  /** Whether the walk of one child finds every Run. */
  predicate ChildKnown(store: Store, id: RunId, depth: nat, i: nat) {
    && id in store && i < |store[id].family.order|
    && (depth > 0 ==> Known(store, store[id].family.order[i], depth - 1))
  }

  function OneChild(store: Store, id: RunId, depth: nat, i: nat): seq<Part>
    requires Lawful(store) && ChildKnown(store, id, depth, i)
    decreases depth, 0, i
  {
    var child := store[id].family.order[i];
    if depth > 0 then Parts(store, child, depth - 1) else [Recorded(store[id].family.children[child])]
  }

  // ------------------------------------------------------------- the report

  datatype Branch = Branch(sum: Part, costIsIncomplete: bool, complete: bool)

  datatype ChildRow = ChildRow(runId: RunId, report: Option<Report>, subtree: Branch)

  /** `nested` are the reports of the Runs its steps name, when the depth allows. */
  datatype Report = Report(
    own: Part, settled: bool, rows: seq<ChildRow>, nested: seq<Report>, subtree: Option<Branch>)

  datatype Built = Built(report: Report) | RunNotFound | NotAdmitted | CurrencyMismatch

  /** `_own_subtree` */
  function OwnSubtree(r: Report): Branch {
    Branch(r.own, r.own.unpriced > 0, r.settled)
  }

  /** What a report hands to its parent's row. */
  function BranchOf(r: Report): Branch {
    if r.subtree.Some? then r.subtree.value else OwnSubtree(r)
  }

  /** `_child_subtree` */
  function ChildSubtree(child: ChildRun, report: Option<Report>): Branch {
    if report.Some? then BranchOf(report.value)
    else Branch(Recorded(child), child.unpricedModelCalls > 0, !child.Alive())
  }

  function Sums(rows: seq<ChildRow>): seq<Part> {
    if rows == [] then [] else Sums(Init(rows)) + [Last(rows).subtree.sum]
  }

  predicate AllComplete(rows: seq<ChildRow>) {
    forall i :: 0 <= i < |rows| ==> rows[i].subtree.complete
  }

  /** A Run's own figures and every branch's. */
  function Whole(own: Part, rows: seq<ChildRow>): Option<Part> {
    Join(Some(own), Total(Sums(rows)))
  }

  /** `_subtree`, of a Run that spawned children: None when two currencies meet. */
  method Subtree(own: Part, rows: seq<ChildRow>) returns (r: Option<Branch>)
    ensures r.Some? <==> Whole(own, rows).Some?
    ensures r.Some? ==> Some(r.value.sum) == Whole(own, rows)
    ensures r.Some? ==> r.value.costIsIncomplete == (r.value.sum.unpriced > 0)
    ensures r.Some? ==> (r.value.complete <==> AllComplete(rows))
  {
    var sum := own;
    var complete := true;
    var i := 0;
    JoinNothing(Some(own));
    while i < |rows|
      invariant 0 <= i <= |rows|
      invariant Whole(own, rows[..i]) == Some(sum)
      invariant complete <==> AllComplete(rows[..i])
    {
      var branch := rows[i].subtree;
      SumsNext(own, rows, i);
      var more := Join(Some(sum), Some(branch.sum));
      if more.None? {
        return None;
      }
      sum := more.value;
      complete := complete && branch.complete;
      i := i + 1;
    }
    assert rows[..i] == rows;
    return Some(Branch(sum, sum.unpriced > 0, complete));
  }

  /** One more row; and a sum that has failed stays failed. */
  lemma {:induction false} SumsNext(own: Part, rows: seq<ChildRow>, i: nat)
    requires i < |rows|
    ensures Whole(own, rows[..i + 1]) == Join(Whole(own, rows[..i]), Some(rows[i].subtree.sum))
    ensures Whole(own, rows[..i + 1]).None? ==> Whole(own, rows).None?
    ensures AllComplete(rows[..i + 1]) <==> AllComplete(rows[..i]) && rows[i].subtree.complete
  {
    SumsSnoc(rows, i);
    JoinAssociative(Some(own), Total(Sums(rows[..i])), Some(rows[i].subtree.sum));
    FailedForGood(own, rows, i + 1);
    AllCompleteNext(rows, i);
  }

  lemma SumsSnoc(rows: seq<ChildRow>, i: nat)
    requires i < |rows|
    ensures Total(Sums(rows[..i + 1])) == Join(Total(Sums(rows[..i])), Some(rows[i].subtree.sum))
  {
    var sums, p := Sums(rows[..i]), rows[i].subtree.sum;
    assert Init(rows[..i + 1]) == rows[..i];
    assert Init(sums + [p]) == sums && Last(sums + [p]) == p;
  }

  lemma FailedForGood(own: Part, rows: seq<ChildRow>, i: nat)
    requires i <= |rows|
    ensures Whole(own, rows[..i]).None? ==> Whole(own, rows).None?
  {
    SumsSplit(rows, i);
    TotalConcat(Sums(rows[..i]), Sums(rows[i..]));
    JoinAssociative(Some(own), Total(Sums(rows[..i])), Total(Sums(rows[i..])));
  }

  lemma AllCompleteNext(rows: seq<ChildRow>, i: nat)
    requires i < |rows|
    ensures AllComplete(rows[..i + 1]) <==> AllComplete(rows[..i]) && rows[i].subtree.complete
  {
    assert rows[..i + 1] == rows[..i] + [rows[i]];
  }

  lemma {:induction false} SumsSplit(rows: seq<ChildRow>, i: nat)
    requires i <= |rows|
    ensures Sums(rows) == Sums(rows[..i]) + Sums(rows[i..])
  {
    if i == |rows| {
      assert rows[..i] == rows;
    } else {
      SumsSplit(Init(rows), i);
      assert Init(rows)[..i] == rows[..i];
      assert Init(rows[i..]) == Init(rows)[i..];
    }
  }

  // -------------------------------------------------------------- the walk

  /** Whether the walk's totals will not change: of a Run without children, that it settled; of
      any other, only that its children's are complete. */
  predicate Final(store: Store, id: RunId, depth: nat)
    requires Lawful(store) && Known(store, id, depth)
    decreases depth
  {
    var f := store[id].family;
    if f.order == [] then store[id].life.terminal.Some?
    else if depth == 0 then forall i :: 0 <= i < |f.order| ==> !f.children[f.order[i]].Alive()
    else forall i :: 0 <= i < |f.order| ==> Final(store, f.order[i], depth - 1)
  }

  predicate OneFinal(store: Store, id: RunId, depth: nat, i: nat)
    requires Lawful(store) && ChildKnown(store, id, depth, i)
  {
    var child := store[id].family.order[i];
    if depth == 0 then !store[id].family.children[child].Alive() else Final(store, child, depth - 1)
  }

  /** What a report of one Run must say. */
  ghost predicate Exact(store: Store, id: RunId, depth: nat, r: Report)
    requires Lawful(store) && Known(store, id, depth)
  {
    && Some(BranchOf(r).sum) == Total(Parts(store, id, depth))
    && BranchOf(r).costIsIncomplete == (BranchOf(r).sum.unpriced > 0)
    && (BranchOf(r).complete <==> Final(store, id, depth))
  }

  /** When a report can be built: the subagent walk finds every Run and their costs share one
      currency; and wherever that walk goes, the same is true of every Run a step names. */
  predicate Buildable(store: Store, nested: Nested, id: RunId, depth: nat)
    requires Lawful(store)
    decreases depth, 1
  {
    Known(store, id, depth) && Total(Parts(store, id, depth)).Some? && StepsBuildable(store, nested, id, depth)
  }

  predicate StepsBuildable(store: Store, nested: Nested, id: RunId, depth: nat)
    requires Lawful(store) && Known(store, id, depth)
    decreases depth, 0
  {
    depth > 0 ==>
      && (forall i :: 0 <= i < |StepsOf(nested, id)| ==> Buildable(store, nested, StepsOf(nested, id)[i], depth - 1))
      && forall i :: 0 <= i < |store[id].family.order| ==>
           StepsBuildable(store, nested, store[id].family.order[i], depth - 1)
  }

  /** What one child's row must say. */
  ghost predicate RowExact(store: Store, id: RunId, depth: nat, i: nat, row: ChildRow)
    requires Lawful(store) && ChildKnown(store, id, depth, i)
  {
    && row.runId == store[id].family.order[i]
    && Some(row.subtree.sum) == Total(OneChild(store, id, depth, i))
    && row.subtree.costIsIncomplete == (row.subtree.sum.unpriced > 0)
    && (row.subtree.complete <==> OneFinal(store, id, depth, i))
  }

  /** And what its walk found: every Run, and every Run their steps name. */
  ghost predicate ChildWalked(store: Store, nested: Nested, id: RunId, depth: nat, i: nat, row: ChildRow)
    requires Lawful(store)
  {
    && ChildKnown(store, id, depth, i)
    && (depth > 0 ==> StepsBuildable(store, nested, store[id].family.order[i], depth - 1))
    && RowExact(store, id, depth, i, row)
  }

  /** The first rows, in spawn order. */
  ghost predicate RowsExact(store: Store, nested: Nested, id: RunId, depth: nat, rows: seq<ChildRow>)
    requires Lawful(store)
  {
    rows != [] ==>
      && RowsExact(store, nested, id, depth, Init(rows))
      && ChildWalked(store, nested, id, depth, |rows| - 1, Last(rows))
  }

  lemma {:induction false} RowsExactSnoc(
      store: Store, nested: Nested, id: RunId, depth: nat, rows: seq<ChildRow>, row: ChildRow)
    requires Lawful(store) && RowsExact(store, nested, id, depth, rows)
    requires ChildWalked(store, nested, id, depth, |rows|, row)
    ensures RowsExact(store, nested, id, depth, rows + [row])
  {
    assert Init(rows + [row]) == rows;
  }

  lemma {:induction false} RowsExactAt(
      store: Store, nested: Nested, id: RunId, depth: nat, rows: seq<ChildRow>, i: nat)
    requires Lawful(store) && RowsExact(store, nested, id, depth, rows) && i < |rows|
    ensures ChildWalked(store, nested, id, depth, i, rows[i])
  {
    if i < |rows| - 1 {
      RowsExactAt(store, nested, id, depth, Init(rows), i);
    }
  }

  /** The rows' sums add up to the flat sum over what the rows stand for. */
  lemma {:induction false} RowsTotal(store: Store, nested: Nested, id: RunId, depth: nat, rows: seq<ChildRow>)
    requires Lawful(store) && Known(store, id, depth) && |rows| <= |store[id].family.order|
    requires RowsExact(store, nested, id, depth, rows)
    ensures Total(Sums(rows)) == Total(ChildParts(store, id, depth, |rows|))
  {
    if rows != [] {
      RowsTotal(store, nested, id, depth, Init(rows));
      OneMoreRow(store, id, depth, rows);
    }
  }

  lemma {:induction false} OneMoreRow(store: Store, id: RunId, depth: nat, rows: seq<ChildRow>)
    requires Lawful(store) && Known(store, id, depth) && 0 < |rows| <= |store[id].family.order|
    requires Total(Sums(Init(rows))) == Total(ChildParts(store, id, depth, |rows| - 1))
    requires Some(Last(rows).subtree.sum) == Total(OneChild(store, id, depth, |rows| - 1))
    ensures Total(Sums(rows)) == Total(ChildParts(store, id, depth, |rows|))
  {
    SameTotal(Sums(Init(rows)), Last(rows).subtree.sum,
              ChildParts(store, id, depth, |rows| - 1), OneChild(store, id, depth, |rows| - 1));
  }

  lemma {:induction false} SameTotal(sums: seq<Part>, p: Part, parts: seq<Part>, more: seq<Part>)
    requires Total(sums) == Total(parts) && Some(p) == Total(more)
    ensures Total(sums + [p]) == Total(parts + more)
  {
    TotalConcat(sums, [p]);
    TotalOne(p);
    TotalConcat(parts, more);
  }

  /** One branch without a sum leaves the whole without one. */
  lemma {:induction false} OneFails(store: Store, id: RunId, depth: nat, i: nat, n: nat)
    requires Lawful(store) && Known(store, id, depth) && i < n <= |store[id].family.order|
    requires Total(OneChild(store, id, depth, i)).None?
    ensures Total(ChildParts(store, id, depth, n)).None?
    decreases n
  {
    var front, child := ChildParts(store, id, depth, n - 1), OneChild(store, id, depth, n - 1);
    assert ChildParts(store, id, depth, n) == front + child;
    if i < n - 1 {
      OneFails(store, id, depth, i, n - 1);
    }
    assert Total(front).None? || Total(child).None?;
    TotalConcat(front, child);
  }

  lemma WholeTotal(store: Store, id: RunId, depth: nat)
    requires Lawful(store) && Known(store, id, depth)
    ensures Total(Parts(store, id, depth))
            == Join(Some(Own(store[id])), Total(ChildParts(store, id, depth, |store[id].family.order|)))
  {
    TotalConcat([Own(store[id])], ChildParts(store, id, depth, |store[id].family.order|));
    TotalOne(Own(store[id]));
  }

  /** `_subagents`: one row for each child in spawn order, or the first failure. */
  method Subagents(store: Store, nested: Nested, id: RunId, depth: nat)
    returns (rows: seq<ChildRow>, failure: Option<Built>)
    requires Lawful(store) && id in store && store[id].life.admitted
    ensures failure.Some? ==> !failure.value.Built? && !Buildable(store, nested, id, depth)
    ensures failure.None? ==>
              && Known(store, id, depth) && |rows| == |store[id].family.order|
              && RowsExact(store, nested, id, depth, rows) && SubagentsBuildable(store, nested, id, depth)
    decreases depth, 0, 2
  {
    rows, failure := SubagentRows(store, nested, id, depth);
    if failure.None? {
      AllWalked(store, nested, id, depth, rows);
    }
  }

  /** Its loop. */
  method SubagentRows(store: Store, nested: Nested, id: RunId, depth: nat)
    returns (rows: seq<ChildRow>, failure: Option<Built>)
    requires Lawful(store) && id in store
    ensures failure.Some? ==> !failure.value.Built? && !Buildable(store, nested, id, depth)
    ensures failure.None? ==> |rows| == |store[id].family.order| && RowsExact(store, nested, id, depth, rows)
    decreases depth, 0, 1
  {
    var f := store[id].family;
    rows := [];
    var i := 0;
    while i < |f.order|
      invariant 0 <= i <= |f.order| && |rows| == i
      invariant RowsExact(store, nested, id, depth, rows)
    {
      var row, failed := Subagent(store, nested, id, depth, i);
      if failed.Some? {
        return rows, failed;
      }
      RowsExactSnoc(store, nested, id, depth, rows, row.value);
      rows := rows + [row.value];
      i := i + 1;
    }
    return rows, None;
  }

  lemma AllWalked(store: Store, nested: Nested, id: RunId, depth: nat, rows: seq<ChildRow>)
    requires Lawful(store) && id in store && store[id].life.admitted
    requires RowsExact(store, nested, id, depth, rows) && |rows| == |store[id].family.order|
    ensures Known(store, id, depth)
    ensures SubagentsBuildable(store, nested, id, depth)
  {
    if depth > 0 {
      forall i | 0 <= i < |store[id].family.order|
        ensures Known(store, store[id].family.order[i], depth - 1)
        ensures StepsBuildable(store, nested, store[id].family.order[i], depth - 1)
      {
        RowsExactAt(store, nested, id, depth, rows, i);
      }
    }
  }

  /** What the steps of the subagents' Runs name can be reported on. */
  predicate SubagentsBuildable(store: Store, nested: Nested, id: RunId, depth: nat)
    requires Lawful(store) && Known(store, id, depth)
  {
    depth > 0 ==> forall i :: 0 <= i < |store[id].family.order| ==>
      StepsBuildable(store, nested, store[id].family.order[i], depth - 1)
  }

  /** One child's row, from its own report when the depth allows. */
  method Subagent(store: Store, nested: Nested, id: RunId, depth: nat, i: nat)
    returns (row: Option<ChildRow>, failure: Option<Built>)
    requires Lawful(store) && id in store && i < |store[id].family.order|
    ensures row.Some? <==> failure.None?
    ensures failure.Some? ==> !failure.value.Built? && !Buildable(store, nested, id, depth)
    ensures row.Some? ==> ChildWalked(store, nested, id, depth, i, row.value)
    decreases depth, 0, 0
  {
    var child := store[id].family.order[i];
    var record := store[id].family.children[child];
    if depth == 0 {
      TotalOne(Recorded(record));
      return Some(ChildRow(child, None, ChildSubtree(record, None))), None;
    }
    var built := BuildReport(store, nested, child, depth - 1);
    if !built.Built? {
      ChildUnbuildable(store, nested, id, depth, i);
      return None, Some(built);
    }
    return Some(ChildRow(child, Some(built.report), ChildSubtree(record, Some(built.report)))), None;
  }

  /** A Run with a subagent whose report cannot be built has none either. */
  lemma ChildUnbuildable(store: Store, nested: Nested, id: RunId, depth: nat, i: nat)
    requires Lawful(store) && id in store && depth > 0 && i < |store[id].family.order|
    requires !Buildable(store, nested, store[id].family.order[i], depth - 1)
    ensures !Buildable(store, nested, id, depth)
  {
    if Known(store, id, depth) && Total(OneChild(store, id, depth, i)).None? {
      OneFails(store, id, depth, i, |store[id].family.order|);
      WholeTotal(store, id, depth);
    }
  }

  /** The end of `_steps`: the report of each Run a completed step names, up to the first that
      cannot be built. */
  method StepReports(store: Store, nested: Nested, runs: seq<RunId>, depth: nat)
    returns (reports: seq<Report>, failure: Option<Built>)
    requires Lawful(store)
    ensures AllExactIn(store, nested, runs, depth, reports)
    ensures failure.None? ==> |reports| == |runs|
    ensures failure.Some? ==>
              !failure.value.Built? && |reports| < |runs| && !Buildable(store, nested, runs[|reports|], depth)
    decreases depth, 2
  {
    reports := [];
    while |reports| < |runs|
      invariant AllExactIn(store, nested, runs, depth, reports)
    {
      var built := BuildReport(store, nested, runs[|reports|], depth);
      if !built.Built? {
        return reports, Some(built);
      }
      AllExactSnoc(store, nested, runs, depth, reports, built.report);
      reports := reports + [built.report];
    }
    return reports, None;
  }

  /** A Run with a step whose Run's report cannot be built has none either. */
  lemma StepUnbuildable(store: Store, nested: Nested, id: RunId, depth: nat, i: nat)
    requires Lawful(store) && depth > 0 && i < |StepsOf(nested, id)|
    requires !Buildable(store, nested, StepsOf(nested, id)[i], depth - 1)
    ensures !Buildable(store, nested, id, depth)
  {
  }

  ghost predicate ExactIn(store: Store, nested: Nested, id: RunId, depth: nat, r: Report)
    requires Lawful(store)
  {
    Buildable(store, nested, id, depth) && Exact(store, id, depth, r)
  }

  /** Exact reports of the first of some Runs, in order. */
  ghost predicate AllExactIn(store: Store, nested: Nested, runs: seq<RunId>, depth: nat, reports: seq<Report>)
    requires Lawful(store)
  {
    |reports| <= |runs|
    && (reports != [] ==>
          && AllExactIn(store, nested, runs, depth, Init(reports))
          && ExactIn(store, nested, runs[|reports| - 1], depth, Last(reports)))
  }

  lemma {:induction false} AllExactSnoc(
      store: Store, nested: Nested, runs: seq<RunId>, depth: nat, reports: seq<Report>, r: Report)
    requires Lawful(store) && AllExactIn(store, nested, runs, depth, reports) && |reports| < |runs|
    requires ExactIn(store, nested, runs[|reports|], depth, r)
    ensures AllExactIn(store, nested, runs, depth, reports + [r])
  {
    assert Init(reports + [r]) == reports;
  }

  lemma {:induction false} AllExactAt(
      store: Store, nested: Nested, runs: seq<RunId>, depth: nat, reports: seq<Report>, i: nat)
    requires Lawful(store) && AllExactIn(store, nested, runs, depth, reports) && i < |reports|
    ensures ExactIn(store, nested, runs[i], depth, reports[i])
  {
    if i < |reports| - 1 {
      AllExactAt(store, nested, runs, depth, Init(reports), i);
    }
  }

  /** One exact report for each Run a step names, none without depth to go on. */
  ghost predicate NestedExact(store: Store, nested: Nested, id: RunId, depth: nat, reports: seq<Report>)
    requires Lawful(store)
  {
    if depth == 0 then reports == []
    else
      |reports| == |StepsOf(nested, id)| && AllExactIn(store, nested, StepsOf(nested, id), depth - 1, reports)
  }

  lemma NestedBuildable(store: Store, nested: Nested, id: RunId, depth: nat, reports: seq<Report>)
    requires Lawful(store) && Known(store, id, depth) && NestedExact(store, nested, id, depth, reports)
    requires SubagentsBuildable(store, nested, id, depth)
    ensures StepsBuildable(store, nested, id, depth)
  {
    if depth > 0 {
      forall i | 0 <= i < |reports|
        ensures Buildable(store, nested, StepsOf(nested, id)[i], depth - 1)
      {
        AllExactAt(store, nested, StepsOf(nested, id), depth - 1, reports, i);
      }
    }
  }

  /** `build_report`, its totals, its subagents' rows and its steps' Runs: built exactly when
      every Run it looks for is there and admitted and no two currencies meet in one walk; then
      the branch is the flat sum, and each nested report is as exact. */
  method BuildReport(store: Store, nested: Nested, id: RunId, depth: nat) returns (r: Built)
    requires Lawful(store)
    ensures r.Built? <==> Buildable(store, nested, id, depth)
    ensures r.Built? ==> Exact(store, id, depth, r.report) && NestedExact(store, nested, id, depth, r.report.nested)
    decreases depth, 1
  {
    if id !in store {
      return RunNotFound;
    }
    if !store[id].life.admitted {
      return NotAdmitted;
    }
    var rows, failure := Subagents(store, nested, id, depth);
    if failure.Some? {
      return failure.value;
    }
    var reports := [];
    if depth > 0 {
      reports, failure := StepReports(store, nested, StepsOf(nested, id), depth - 1);
      if failure.Some? {
        StepUnbuildable(store, nested, id, depth, |reports|);
        return failure.value;
      }
    }
    NestedBuildable(store, nested, id, depth, reports);
    r := WithSubtree(store, nested, id, depth, rows, reports);
  }

  /** The report of a Run whose rows are built, unless its own currency meets another. */
  method WithSubtree(
      store: Store, nested: Nested, id: RunId, depth: nat, rows: seq<ChildRow>, reports: seq<Report>)
    returns (r: Built)
    requires Lawful(store) && Known(store, id, depth) && |rows| == |store[id].family.order|
    requires RowsExact(store, nested, id, depth, rows)
    ensures r.Built? <==> Total(Parts(store, id, depth)).Some?
    ensures r.Built? ==> Exact(store, id, depth, r.report) && r.report.nested == reports
  {
    var own, settled := Own(store[id]), store[id].life.terminal.Some?;
    RowsTotal(store, nested, id, depth, rows);
    WholeTotal(store, id, depth);
    JoinNothing(Some(own));
    if rows == [] {
      return Built(Report(own, settled, rows, reports, None));
    }
    var subtree := Subtree(own, rows);
    if subtree.None? {
      return CurrencyMismatch;
    }
    RowsFinal(store, nested, id, depth, rows);
    return Built(Report(own, settled, rows, reports, subtree));
  }

  lemma RowsFinal(store: Store, nested: Nested, id: RunId, depth: nat, rows: seq<ChildRow>)
    requires Lawful(store) && Known(store, id, depth) && rows != [] && |rows| == |store[id].family.order|
    requires RowsExact(store, nested, id, depth, rows)
    ensures AllComplete(rows) <==> Final(store, id, depth)
  {
    forall i | 0 <= i < |rows| ensures rows[i].subtree.complete <==> OneFinal(store, id, depth, i) {
      RowsExactAt(store, nested, id, depth, rows, i);
    }
    FinalIs(store, id, depth);
  }

  lemma FinalIs(store: Store, id: RunId, depth: nat)
    requires Lawful(store) && Known(store, id, depth) && store[id].family.order != []
    ensures Final(store, id, depth)
            <==> forall i :: 0 <= i < |store[id].family.order| ==> OneFinal(store, id, depth, i)
  {
    if forall i :: 0 <= i < |store[id].family.order| ==> OneFinal(store, id, depth, i) {
      forall i | 0 <= i < |store[id].family.order| && depth > 0
        ensures Final(store, store[id].family.order[i], depth - 1)
      {
        assert OneFinal(store, id, depth, i);
      }
      forall i | 0 <= i < |store[id].family.order| && depth == 0
        ensures !store[id].family.children[store[id].family.order[i]].Alive()
      {
        assert OneFinal(store, id, depth, i);
      }
    }
  }

  // ------------------------------------------------------- what the sum is

  function CostsOf(parts: seq<Part>): seq<Cost> {
    if parts == [] then []
    else if Last(parts).cost.Some? then CostsOf(Init(parts)) + [Last(parts).cost.value]
    else CostsOf(Init(parts))
  }

  function UsageOf(parts: seq<Part>): Usage {
    if parts == [] then NO_USAGE else UsageOf(Init(parts)).Plus(Last(parts).usage)
  }

  function UnreportedOf(parts: seq<Part>): nat {
    if parts == [] then 0 else UnreportedOf(Init(parts)) + Last(parts).unreported
  }

  function UnpricedOf(parts: seq<Part>): nat {
    if parts == [] then 0 else UnpricedOf(Init(parts)) + Last(parts).unpriced
  }

  function CountOf(parts: seq<Part>): nat {
    if parts == [] then 0 else CountOf(Init(parts)) + Last(parts).runs
  }

  predicate OneCurrency(costs: seq<Cost>) {
    forall i, j :: 0 <= i < j < |costs| ==> costs[i].currency == costs[j].currency
  }

  /** A flat sum exists exactly when the costs share one currency, and then it is the sums of
      the tokens and the Runs, and one cost standing for all of them. */
  lemma {:induction false} TotalMeans(parts: seq<Part>)
    ensures Total(parts).Some? <==> OneCurrency(CostsOf(parts))
    ensures Total(parts).Some? ==>
              && Total(parts).value.usage == UsageOf(parts)
              && Total(parts).value.unreported == UnreportedOf(parts)
              && Total(parts).value.unpriced == UnpricedOf(parts)
              && Total(parts).value.runs == CountOf(parts)
              && Billing.TotalOf(Total(parts).value.cost, CostsOf(parts))
  {
    if parts != [] {
      TotalMeans(Init(parts));
      if Last(parts).cost.Some? {
        CurrencySnoc(CostsOf(Init(parts)), Last(parts).cost.value);
        if Total(Init(parts)).Some? {
          TotalMeansSnoc(Total(Init(parts)).value.cost, CostsOf(Init(parts)), Last(parts).cost.value);
        }
      }
    }
  }

  lemma TotalMeansSnoc(total: Option<Cost>, costs: seq<Cost>, c: Cost)
    requires Billing.TotalOf(total, costs)
    ensures total.Some? && total.value.currency != c.currency ==> !OneCurrency(costs + [c])
    ensures !(total.Some? && total.value.currency != c.currency) ==>
              && OneCurrency(costs + [c])
              && Billing.TotalOf(Some(if total.Some? then total.value.Plus(c) else c), costs + [c])
  {
    var all := costs + [c];
    assert forall i :: 0 <= i < |costs| ==> all[i] == costs[i];
    if total.Some? && total.value.currency != c.currency {
      assert all[0].currency != all[|costs|].currency;
    } else {
      Billing.TotalSnoc(total, costs, c);
    }
  }

  lemma CurrencySnoc(costs: seq<Cost>, c: Cost)
    ensures OneCurrency(costs + [c]) ==> OneCurrency(costs)
  {
    assert forall i :: 0 <= i < |costs| ==> (costs + [c])[i] == costs[i];
  }

  // ------------------------------------------- a walk that reaches every Run

  /** The walk ends at Runs that spawned none. */
  predicate Reaches(store: Store, id: RunId, depth: nat)
    requires Known(store, id, depth)
    decreases depth
  {
    var order := store[id].family.order;
    if depth == 0 then order == []
    else forall i :: 0 <= i < |order| ==> Reaches(store, order[i], depth - 1)
  }

  /** The Runs of the spawn tree, a Run before its children. */
  function Tree(store: Store, id: RunId, depth: nat): seq<RunId>
    requires Known(store, id, depth)
    decreases depth, 1, 0
  {
    [id] + (if depth == 0 then [] else Below(store, id, depth, |store[id].family.order|))
  }

  function Below(store: Store, id: RunId, depth: nat, n: nat): seq<RunId>
    requires Known(store, id, depth) && depth > 0 && n <= |store[id].family.order|
    decreases depth, 0, n
  {
    if n == 0 then [] else Below(store, id, depth, n - 1) + Tree(store, store[id].family.order[n - 1], depth - 1)
  }

  lemma {:induction false} TreeHeld(store: Store, id: RunId, depth: nat)
    requires Known(store, id, depth)
    ensures forall r | r in Tree(store, id, depth) :: r in store
    decreases depth, 1, 0
  {
    if depth > 0 {
      BelowHeld(store, id, depth, |store[id].family.order|);
    }
  }

  lemma {:induction false} BelowHeld(store: Store, id: RunId, depth: nat, n: nat)
    requires Known(store, id, depth) && depth > 0 && n <= |store[id].family.order|
    ensures forall r | r in Below(store, id, depth, n) :: r in store
    decreases depth, 0, n
  {
    if n > 0 {
      BelowHeld(store, id, depth, n - 1);
      TreeHeld(store, store[id].family.order[n - 1], depth - 1);
    }
  }

  function Owns(store: Store, ids: seq<RunId>): seq<Part> {
    if ids == [] then [] else Owns(store, Init(ids)) + (if Last(ids) in store then [Own(store[Last(ids)])] else [])
  }

  lemma {:induction false} OwnsConcat(store: Store, a: seq<RunId>, b: seq<RunId>)
    ensures Owns(store, a + b) == Owns(store, a) + Owns(store, b)
    decreases |b|
  {
    if b == [] {
      assert a + b == a;
    } else {
      assert Init(a + b) == a + Init(b) && Last(a + b) == Last(b);
      OwnsConcat(store, a, Init(b));
    }
  }

  /** When the walk is as deep as the tree, its parts are every Run's own figures, no child's
      figures being taken from its parent's log. */
  lemma {:induction false} PartsAreOwn(store: Store, id: RunId, depth: nat)
    requires Lawful(store) && Known(store, id, depth) && Reaches(store, id, depth)
    ensures Parts(store, id, depth) == Owns(store, Tree(store, id, depth))
    decreases depth, 1, 0
  {
    assert Owns(store, [id]) == [Own(store[id])] by {
      assert Init([id]) == [] && Owns(store, []) == [];
    }
    if depth == 0 {
      assert [id] + [] == [id];
    } else {
      var n := |store[id].family.order|;
      ChildPartsAreOwn(store, id, depth, n);
      OwnsConcat(store, [id], Below(store, id, depth, n));
    }
  }

  lemma {:induction false} ChildPartsAreOwn(store: Store, id: RunId, depth: nat, n: nat)
    requires Lawful(store) && Known(store, id, depth) && Reaches(store, id, depth)
    requires depth > 0 && n <= |store[id].family.order|
    ensures ChildParts(store, id, depth, n) == Owns(store, Below(store, id, depth, n))
    decreases depth, 0, n
  {
    if n > 0 {
      var child := store[id].family.order[n - 1];
      ChildPartsAreOwn(store, id, depth, n - 1);
      PartsAreOwn(store, child, depth - 1);
      OneMoreOwn(store, id, depth, n, child);
    }
  }

  lemma {:induction false} OneMoreOwn(store: Store, id: RunId, depth: nat, n: nat, child: RunId)
    requires Lawful(store) && Known(store, id, depth) && 0 < depth && 0 < n <= |store[id].family.order|
    requires child == store[id].family.order[n - 1]
    requires ChildParts(store, id, depth, n - 1) == Owns(store, Below(store, id, depth, n - 1))
    requires Parts(store, child, depth - 1) == Owns(store, Tree(store, child, depth - 1))
    ensures ChildParts(store, id, depth, n) == Owns(store, Below(store, id, depth, n))
  {
    OwnsConcat(store, Below(store, id, depth, n - 1), Tree(store, child, depth - 1));
    ChildPartsLast(store, id, depth, n);
    BelowLast(store, id, depth, n);
  }

  lemma {:induction false} ChildPartsLast(store: Store, id: RunId, depth: nat, n: nat)
    requires Lawful(store) && Known(store, id, depth) && 0 < depth && 0 < n <= |store[id].family.order|
    ensures ChildParts(store, id, depth, n)
            == ChildParts(store, id, depth, n - 1) + Parts(store, store[id].family.order[n - 1], depth - 1)
  {
  }

  lemma {:induction false} OwnsCount(store: Store, ids: seq<RunId>)
    requires forall r | r in ids :: r in store
    ensures CountOf(Owns(store, ids)) == |ids|
  {
    if ids != [] {
      OwnsCount(store, Init(ids));
    }
  }

  /** Of a walk that reaches every Run, the rollup is the flat sum over every Run in the tree:
      their number, their tokens and one cost standing for all of theirs. */
  lemma TreeTotal(store: Store, id: RunId, depth: nat)
    requires Lawful(store) && Known(store, id, depth) && Reaches(store, id, depth)
    ensures forall r | r in Tree(store, id, depth) :: r in store
    ensures var flat := Owns(store, Tree(store, id, depth));
            && (Total(Parts(store, id, depth)).Some? <==> OneCurrency(CostsOf(flat)))
            && (Total(Parts(store, id, depth)).Some? ==>
                  var sum := Total(Parts(store, id, depth)).value;
                  && sum.runs == |Tree(store, id, depth)|
                  && sum.usage == UsageOf(flat)
                  && sum.unreported == UnreportedOf(flat)
                  && sum.unpriced == UnpricedOf(flat)
                  && Billing.TotalOf(sum.cost, CostsOf(flat)))
  {
    TreeHeld(store, id, depth);
    PartsAreOwn(store, id, depth);
    TotalMeans(Parts(store, id, depth));
    OwnsCount(store, Tree(store, id, depth));
  }

  /** Every Run of the list that spawned none has settled. */
  predicate ChildlessSettled(store: Store, ids: seq<RunId>) {
    forall r :: r in ids && r in store && store[r].family.order == [] ==> store[r].life.terminal.Some?
  }

  lemma ChildlessConcat(store: Store, a: seq<RunId>, b: seq<RunId>)
    ensures ChildlessSettled(store, a + b) <==> ChildlessSettled(store, a) && ChildlessSettled(store, b)
  {
    assert forall r :: r in a + b <==> r in a || r in b;
  }

  /** Where the depth stops the walk, every child listed there has ended. */
  predicate StopsEnded(store: Store, id: RunId, depth: nat)
    requires Lawful(store) && Known(store, id, depth)
    decreases depth
  {
    var f := store[id].family;
    if depth == 0 then forall i :: 0 <= i < |f.order| ==> !f.children[f.order[i]].Alive()
    else forall i :: 0 <= i < |f.order| ==> StopsEnded(store, f.order[i], depth - 1)
  }

  /** What `complete` says of a walk of any depth: every Run walked that spawned none has
      settled, and every child it stopped short of has ended. A Run that spawned children need
      not have settled, and nothing is said of what a child it stopped short of spawned. */
  lemma {:induction false} FinalExactly(store: Store, id: RunId, depth: nat)
    requires Lawful(store) && Known(store, id, depth)
    ensures Final(store, id, depth)
            <==> ChildlessSettled(store, Tree(store, id, depth)) && StopsEnded(store, id, depth)
    decreases depth, 1, 0
  {
    var order := store[id].family.order;
    if depth == 0 || order == [] {
      assert depth > 0 ==> Below(store, id, depth, 0) == [];
      assert Tree(store, id, depth) == [id];
    } else {
      FinalBelow(store, id, depth, |order|);
      FirstFinalIs(store, id, depth, |order|);
      FirstStopIs(store, id, depth, |order|);
      ChildlessConcat(store, [id], Below(store, id, depth, |order|));
    }
  }

  /** Of a walk as deep as the spawn tree, nothing is left but the first half. */
  lemma FinalMeans(store: Store, id: RunId, depth: nat)
    requires Lawful(store) && Known(store, id, depth) && Reaches(store, id, depth)
    ensures Final(store, id, depth) <==> ChildlessSettled(store, Tree(store, id, depth))
  {
    FinalExactly(store, id, depth);
    ReachesEnded(store, id, depth);
  }

  lemma {:induction false} ReachesEnded(store: Store, id: RunId, depth: nat)
    requires Lawful(store) && Known(store, id, depth) && Reaches(store, id, depth)
    ensures StopsEnded(store, id, depth)
    decreases depth
  {
    if depth > 0 {
      forall i | 0 <= i < |store[id].family.order|
        ensures StopsEnded(store, store[id].family.order[i], depth - 1)
      {
        ReachesEnded(store, store[id].family.order[i], depth - 1);
      }
    }
  }

  /** Whether the first `n` children's totals will not change. */
  predicate FirstFinal(store: Store, id: RunId, depth: nat, n: nat)
    requires Lawful(store) && Known(store, id, depth) && depth > 0 && n <= |store[id].family.order|
    decreases n
  {
    n > 0 ==> FirstFinal(store, id, depth, n - 1) && Final(store, store[id].family.order[n - 1], depth - 1)
  }

  lemma {:induction false} FirstFinalIs(store: Store, id: RunId, depth: nat, n: nat)
    requires Lawful(store) && Known(store, id, depth) && depth > 0 && n <= |store[id].family.order|
    ensures FirstFinal(store, id, depth, n)
            <==> forall i :: 0 <= i < n ==> Final(store, store[id].family.order[i], depth - 1)
    decreases n
  {
    if n > 0 {
      FirstFinalIs(store, id, depth, n - 1);
    }
  }

  /** Whether the walks of the first `n` children stop at children that have ended. */
  predicate FirstStop(store: Store, id: RunId, depth: nat, n: nat)
    requires Lawful(store) && Known(store, id, depth) && depth > 0 && n <= |store[id].family.order|
    decreases n
  {
    n > 0 ==> FirstStop(store, id, depth, n - 1) && StopsEnded(store, store[id].family.order[n - 1], depth - 1)
  }

  lemma {:induction false} FirstStopIs(store: Store, id: RunId, depth: nat, n: nat)
    requires Lawful(store) && Known(store, id, depth) && depth > 0 && n <= |store[id].family.order|
    ensures FirstStop(store, id, depth, n)
            <==> forall i :: 0 <= i < n ==> StopsEnded(store, store[id].family.order[i], depth - 1)
    decreases n
  {
    if n > 0 {
      FirstStopIs(store, id, depth, n - 1);
    }
  }

  lemma {:induction false} FinalBelow(store: Store, id: RunId, depth: nat, n: nat)
    requires Lawful(store) && Known(store, id, depth) && depth > 0 && n <= |store[id].family.order|
    ensures FirstFinal(store, id, depth, n)
            <==> ChildlessSettled(store, Below(store, id, depth, n)) && FirstStop(store, id, depth, n)
    decreases depth, 0, n
  {
    if n > 0 {
      var child := store[id].family.order[n - 1];
      var front, tree := Below(store, id, depth, n - 1), Tree(store, child, depth - 1);
      FinalBelow(store, id, depth, n - 1);
      FinalExactly(store, child, depth - 1);
      ChildlessConcat(store, front, tree);
      BelowLast(store, id, depth, n);
    }
  }

  lemma {:induction false} BelowLast(store: Store, id: RunId, depth: nat, n: nat)
    requires Known(store, id, depth) && 0 < depth && 0 < n <= |store[id].family.order|
    ensures Below(store, id, depth, n)
            == Below(store, id, depth, n - 1) + Tree(store, store[id].family.order[n - 1], depth - 1)
  {
  }
}
