/** Where a workflow's nodes are placed, and that no two share a place. */
module WorkflowTree {
  import opened Values
  import opened Records
  import opened Bytes
  import opened StepIds

  /** A workflow step as its specification nests. A repeated step's bodies are placed by the log,
      one per iteration, and are not part of the static tree. */
  datatype StepSpec =
    | Plainly(name: string)
    | Parallel(name: string, branches: seq<StepSpec>)
    | Branch(name: string, cases: seq<StepSpec>, otherwise: Option<StepSpec>)
    | Nested(name: string, workflow: string, steps: seq<StepSpec>)
    | Repeated(name: string, body: StepSpec)

  const OTHERWISE := "otherwise"

  /** How many children a step has, and what and where each one is. */
  function Arms(s: StepSpec): nat {
    match s
    case Plainly(_) => 0
    case Parallel(_, branches) => |branches|
    case Branch(_, cases, otherwise) => |cases| + (if otherwise.Some? then 1 else 0)
    case Nested(_, _, steps) => |steps|
    case Repeated(_, _) => 0
  }

  function Arm(s: StepSpec, i: nat): (arm: StepSpec)
    requires i < Arms(s)
    ensures arm < s
  {
    match s
    case Parallel(_, branches) => branches[i]
    case Branch(_, cases, otherwise) => if i < |cases| then cases[i] else otherwise.value
    case Nested(_, _, steps) => steps[i]
  }

  function ArmPath(s: StepSpec, i: nat, path: Path): Path
    requires i < Arms(s)
  {
    match s
    case Parallel(_, branches) => path + [Index(i), Name(branches[i].name)]
    case Branch(_, cases, otherwise) =>
      if i < |cases| then path + [Index(i), Name(cases[i].name)]
      else path + [Name(OTHERWISE), Name(otherwise.value.name)]
    case Nested(_, workflow, steps) => path + [Name(workflow), Index(i), Name(steps[i].name)]
  }

  /** The paths of a step and of everything under it: `_Builder.step`. */
  function Places(s: StepSpec, path: Path): seq<Path>
    decreases s, 1, 0
  {
    [path] + ArmPlaces(s, path, Arms(s))
  }

  function ArmPlaces(s: StepSpec, path: Path, n: nat): seq<Path>
    requires n <= Arms(s)
    decreases s, 0, n
  {
    if n == 0 then [] else ArmPlaces(s, path, n - 1) + Places(Arm(s, n - 1), ArmPath(s, n - 1, path))
  }

  /** `_Builder.sequence` from the root: a whole workflow is its steps nested under its name. */
  function WorkflowPlaces(workflow: string, steps: seq<StepSpec>): seq<Path> {
    ArmPlaces(Nested("", workflow, steps), [], |steps|)
  }

  /** Where each kind of step puts what it holds: a branch of a parallel under its position and
      name, a case likewise, the otherwise case under that word and its name, and a nested
      workflow's step under the workflow's name, its position and its own. */
  lemma ArmsAre(s: StepSpec, i: nat, path: Path)
    ensures s.Plainly? || s.Repeated? ==> Arms(s) == 0
    ensures s.Parallel? ==> Arms(s) == |s.branches|
    ensures s.Branch? ==> Arms(s) == |s.cases| + (if s.otherwise == None then 0 else 1)
    ensures s.Nested? ==> Arms(s) == |s.steps|
    ensures s.Parallel? && i < |s.branches| ==>
              Arm(s, i) == s.branches[i] && ArmPath(s, i, path) == path + [Index(i), Name(s.branches[i].name)]
    ensures s.Branch? && i < |s.cases| ==>
              Arm(s, i) == s.cases[i] && ArmPath(s, i, path) == path + [Index(i), Name(s.cases[i].name)]
    ensures s.Branch? && s.otherwise.Some? ==>
              Arm(s, |s.cases|) == s.otherwise.value
              && ArmPath(s, |s.cases|, path) == path + [Name("otherwise"), Name(s.otherwise.value.name)]
    ensures s.Nested? && i < |s.steps| ==>
              Arm(s, i) == s.steps[i]
              && ArmPath(s, i, path) == path + [Name(s.workflow), Index(i), Name(s.steps[i].name)]
  {
  }

  // -------------------------------------------------------- no shared place

  predicate Extends(p: Path, path: Path) {
    |path| <= |p| && p[..|path|] == path
  }

  /** Two paths part at some position both have. */
  predicate Parts(p: Path, q: Path) {
    exists i :: 0 <= i < |p| && i < |q| && p[i] != q[i]
  }

  predicate Distinct(paths: seq<Path>) {
    forall i, j :: 0 <= i < j < |paths| ==> paths[i] != paths[j]
  }

  lemma ArmsPart(s: StepSpec, i: nat, j: nat, path: Path)
    requires i < j < Arms(s)
    ensures Parts(ArmPath(s, i, path), ArmPath(s, j, path))
  {
    var p, q := ArmPath(s, i, path), ArmPath(s, j, path);
    var k := if s.Nested? then |path| + 1 else |path|;
    assert k < |p| && k < |q| && p[k] != q[k];
  }

  lemma ArmExtends(s: StepSpec, i: nat, path: Path)
    requires i < Arms(s)
    ensures Extends(ArmPath(s, i, path), path) && |ArmPath(s, i, path)| > |path|
  {
  }

  lemma ExtendsOn(p: Path, q: Path, r: Path)
    requires Extends(p, q) && Extends(q, r)
    ensures Extends(p, r)
  {
    assert p[..|r|] == q[..|r|];
  }

  lemma PartsOn(p: Path, a: Path, q: Path, b: Path)
    requires Extends(p, a) && Extends(q, b) && Parts(a, b)
    ensures p != q
  {
    var i :| 0 <= i < |a| && i < |b| && a[i] != b[i];
    assert p[i] == p[..|a|][i] && q[i] == q[..|b|][i];
  }

  /** Everything under a step lies under its path. */
  lemma {:induction false} PlacesExtend(s: StepSpec, path: Path)
    ensures forall p | p in Places(s, path) :: Extends(p, path)
    decreases s, 1, 0
  {
    ArmPlacesExtend(s, path, Arms(s));
    forall p | p in ArmPlaces(s, path, Arms(s)) ensures Extends(p, path) {
      UnderSomeExtends(p, s, path, Arms(s));
    }
  }

  predicate UnderSome(p: Path, s: StepSpec, path: Path, n: nat)
    requires n <= Arms(s)
  {
    exists i: nat :: i < n && Extends(p, ArmPath(s, i, path))
  }

  lemma UnderSomeExtends(p: Path, s: StepSpec, path: Path, n: nat)
    requires n <= Arms(s) && UnderSome(p, s, path, n)
    ensures |p| > |path| && Extends(p, path)
  {
    var i: nat :| i < n && Extends(p, ArmPath(s, i, path));
    ArmExtends(s, i, path);
    ExtendsOn(p, ArmPath(s, i, path), path);
  }

  lemma {:induction false} ArmPlacesExtend(s: StepSpec, path: Path, n: nat)
    requires n <= Arms(s)
    ensures forall p | p in ArmPlaces(s, path, n) :: UnderSome(p, s, path, n)
    decreases s, 0, n
  {
    if n > 0 {
      ArmPlacesExtend(s, path, n - 1);
      PlacesExtend(Arm(s, n - 1), ArmPath(s, n - 1, path));
    }
  }

  /** What lies under an earlier arm is nowhere under a later one. */
  lemma UnderApart(p: Path, q: Path, s: StepSpec, path: Path, n: nat)
    requires n < Arms(s) && UnderSome(p, s, path, n) && Extends(q, ArmPath(s, n, path))
    ensures p != q
  {
    var i: nat :| i < n && Extends(p, ArmPath(s, i, path));
    ArmsPart(s, i, n, path);
    PartsOn(p, ArmPath(s, i, path), q, ArmPath(s, n, path));
  }

  lemma DistinctConcat(a: seq<Path>, b: seq<Path>)
    requires Distinct(a) && Distinct(b) && forall p, q | p in a && q in b :: p != q
    ensures Distinct(a + b)
  {
    var all := a + b;
    forall i, j | 0 <= i < j < |all| ensures all[i] != all[j] {
      if i < |a| && |a| <= j {
        assert all[i] in a && all[j] in b;
      }
    }
  }

  lemma {:induction false} PlacesDistinct(s: StepSpec, path: Path)
    ensures Distinct(Places(s, path))
    decreases s, 1, 0
  {
    var below := ArmPlaces(s, path, Arms(s));
    ArmPlacesDistinct(s, path, Arms(s));
    ArmPlacesExtend(s, path, Arms(s));
    forall p | p in below ensures p != path {
      UnderSomeExtends(p, s, path, Arms(s));
    }
    DistinctConcat([path], below);
  }

  lemma {:induction false} ArmPlacesDistinct(s: StepSpec, path: Path, n: nat)
    requires n <= Arms(s)
    ensures Distinct(ArmPlaces(s, path, n))
    decreases s, 0, n
  {
    if n > 0 {
      var before, under := ArmPlaces(s, path, n - 1), Places(Arm(s, n - 1), ArmPath(s, n - 1, path));
      ArmPlacesDistinct(s, path, n - 1);
      PlacesDistinct(Arm(s, n - 1), ArmPath(s, n - 1, path));
      ArmPlacesExtend(s, path, n - 1);
      PlacesExtend(Arm(s, n - 1), ArmPath(s, n - 1, path));
      forall p, q | p in before && q in under ensures p != q {
        UnderApart(p, q, s, path, n - 1);
      }
      DistinctConcat(before, under);
    }
  }

  // ------------------------------------------------------- and so their ids

  /** Every name a specification uses, its workflows' names among them, has the spec's form. */
  predicate WellNamed(s: StepSpec) {
    && SpecName(s.name)
    && match s
       case Plainly(_) => true
       case Parallel(_, branches) => forall b :: b in branches ==> WellNamed(b)
       case Branch(_, cases, otherwise) =>
         (forall c :: c in cases ==> WellNamed(c)) && (otherwise.Some? ==> WellNamed(otherwise.value))
       case Nested(_, workflow, steps) => SpecName(workflow) && forall t :: t in steps ==> WellNamed(t)
       case Repeated(_, body) => WellNamed(body)
  }

  lemma ArmNamed(s: StepSpec, i: nat, path: Path)
    requires i < Arms(s) && WellNamed(s) && PlainPath(path)
    ensures WellNamed(Arm(s, i)) && PlainPath(ArmPath(s, i, path))
  {
    var arm := Arm(s, i);
    assert s.Parallel? ==> arm in s.branches;
    assert s.Branch? && i < |s.cases| ==> arm in s.cases;
    assert s.Nested? ==> arm in s.steps;
    SpecNamesArePlain(arm.name);
    if s.Nested? {
      SpecNamesArePlain(s.workflow);
    }
    assert Plain(OTHERWISE);
  }

  lemma {:induction false} PlacesPlain(s: StepSpec, path: Path)
    requires WellNamed(s) && PlainPath(path)
    ensures forall p | p in Places(s, path) :: PlainPath(p)
    decreases s, 1, 0
  {
    ArmPlacesPlain(s, path, Arms(s));
  }

  lemma {:induction false} ArmPlacesPlain(s: StepSpec, path: Path, n: nat)
    requires n <= Arms(s) && WellNamed(s) && PlainPath(path)
    ensures forall p | p in ArmPlaces(s, path, n) :: PlainPath(p)
    decreases s, 0, n
  {
    if n > 0 {
      ArmPlacesPlain(s, path, n - 1);
      ArmNamed(s, n - 1, path);
      PlacesPlain(Arm(s, n - 1), ArmPath(s, n - 1, path));
    }
  }

  /** No two nodes of a workflow are placed alike, and with names a specification allows no two
      are hashed alike either: a memoised result belongs to one node. */
  lemma NodesApart(workflow: string, steps: seq<StepSpec>, run: RunId, i: nat, j: nat)
    requires SpecName(workflow) && (forall s :: s in steps ==> WellNamed(s)) && Plain(run)
    requires i < j < |WorkflowPlaces(workflow, steps)|
    ensures var places := WorkflowPlaces(workflow, steps);
            && places[i] != places[j]
            && Encode(PreImage(run, places[i])) != Encode(PreImage(run, places[j]))
  {
    var root := Nested("_", workflow, steps);
    var places := WorkflowPlaces(workflow, steps);
    RootNameUnread(workflow, steps, |steps|);
    ArmPlacesDistinct(root, [], |steps|);
    ArmPlacesPlain(root, [], |steps|);
    assert places[i] in places && places[j] in places;
    PositionsApart(run, places[i], run, places[j]);
  }

  lemma {:induction false} RootNameUnread(workflow: string, steps: seq<StepSpec>, n: nat)
    requires n <= |steps|
    ensures ArmPlaces(Nested("", workflow, steps), [], n) == ArmPlaces(Nested("_", workflow, steps), [], n)
    decreases n
  {
    if n > 0 {
      RootNameUnread(workflow, steps, n - 1);
    }
  }
}
