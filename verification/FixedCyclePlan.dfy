/** The validated plan of a fixed cycle (edge_runtime/resident_fixed_cycle.py,
    FixedCyclePlan.from_mapping): the checks that make every later target lookup
    defined.  JSON fields, identifiers' characters and digests are not modelled. */
module FixedCyclePlans {
  import opened Wrappers

  datatype Profile = RegimeFactorized | ActFullCycle

  datatype TargetPhase = DigPhase | DumpPhase

  datatype Artifact = Artifact(trajectoryId: string, phase: TargetPhase, path: string, sha256: string)

  const DUMP := "dump"
  const ALL := "all"
  const MAX_ACT_STEPS := 2000

  datatype Grouping = Grouping(defaultGroup: string, groups: map<string, seq<string>>)

  datatype TargetSource =
    | PerTarget(trajectories: map<string, Artifact>)
    | Catalog(catalogId: string, path: string, sha256: string)

  datatype RawPlan = RawPlan(
    profile: Profile, digSequence: seq<string>, grouping: Option<Grouping>, actMaxSteps: int, source: TargetSource)

  datatype Plan = Plan(
    profile: Profile,
    digSequence: seq<string>,
    defaultGroup: string,
    groups: map<string, seq<string>>,
    actMaxSteps: nat,
    artifacts: map<string, Artifact>)

  predicate Distinct(s: seq<string>) {
    forall i, j | 0 <= i < j < |s| :: s[i] != s[j]
  }

  predicate ValidGroups(groups: map<string, seq<string>>, digSequence: seq<string>) {
    && (forall g | g in groups ::
          groups[g] != [] && Distinct(groups[g]) && forall p | p in groups[g] :: p in digSequence)
    && ALL in groups && groups[ALL] == digSequence
  }

  function TargetIds(profile: Profile, digSequence: seq<string>): seq<string> {
    if profile.RegimeFactorized? then digSequence + [DUMP] else digSequence
  }

  function PhaseOf(target: string): TargetPhase { if target == DUMP then DumpPhase else DigPhase }

  /** FixedCyclePlan.from_mapping; None is the ValueError. */
  function LoadPlan(raw: RawPlan): Option<Plan> {
    if raw.digSequence == [] || !Distinct(raw.digSequence) then None
    else if raw.grouping.Some? &&
            (!ValidGroups(raw.grouping.value.groups, raw.digSequence) ||
             raw.grouping.value.defaultGroup !in raw.grouping.value.groups) then None
    else if !(1 <= raw.actMaxSteps <= MAX_ACT_STEPS) then None
    else
      var targets := TargetIds(raw.profile, raw.digSequence);
      var artifacts := match raw.source
        case PerTarget(trajectories) => trajectories
        case Catalog(id, path, sha) => map t | t in targets :: Artifact(id + ":" + t, PhaseOf(t), path, sha);
      if artifacts.Keys != (set t | t in targets) || exists t | t in artifacts :: artifacts[t].phase != PhaseOf(t) then None
      else
        var g := if raw.grouping.Some? then raw.grouping.value else Grouping(ALL, map[ALL := raw.digSequence]);
        Some(Plan(raw.profile, raw.digSequence, g.defaultGroup, g.groups, raw.actMaxSteps, artifacts))
  }

  /** What the state machine relies on. */
  predicate PlanOk(p: Plan) {
    && p.digSequence != [] && Distinct(p.digSequence)
    && ValidGroups(p.groups, p.digSequence) && p.defaultGroup in p.groups
    && 1 <= p.actMaxSteps <= MAX_ACT_STEPS
    && (forall t | t in p.digSequence :: t in p.artifacts)
    && (p.profile.RegimeFactorized? ==> DUMP in p.artifacts)
    && (forall t | t in p.artifacts :: p.artifacts[t].phase == PhaseOf(t))
  }

  lemma LoadedPlanIsSound(raw: RawPlan)
    requires LoadPlan(raw).Some?
    ensures PlanOk(LoadPlan(raw).value)
  {
    var p := LoadPlan(raw).value;
    var targets := TargetIds(raw.profile, raw.digSequence);
    forall t | t in targets ensures t in p.artifacts {
      assert t in (set u | u in targets);
    }
    assert forall t | t in raw.digSequence :: t in targets;
    if raw.profile.RegimeFactorized? { assert targets[|targets| - 1] == DUMP; }
  }

  /** A dig point follows a trajectory of the dig phase unless it is named like
      the dump target, with which it then collides. */
  lemma DigPointsDigUnlessNamedDump(p: Plan, target: string)
    requires PlanOk(p) && target in p.digSequence
    ensures p.artifacts[target].phase == DigPhase <==> target != DUMP
  {}

  lemma NamedDumpCollides()
    ensures var raw := RawPlan(RegimeFactorized, [DUMP], None, 10, Catalog("c", "p", "s"));
      LoadPlan(raw).Some? && LoadPlan(raw).value.artifacts[DUMP].phase == DumpPhase
  {
    var raw := RawPlan(RegimeFactorized, [DUMP], None, 10, Catalog("c", "p", "s"));
    var targets := TargetIds(raw.profile, raw.digSequence);
    assert targets == [DUMP, DUMP];
    var artifacts := map t | t in targets :: Artifact("c" + ":" + t, PhaseOf(t), "p", "s");
    assert artifacts.Keys == (set t | t in targets);
    assert DUMP in targets;
  }

  /** The first of the targets that carries the artifact. */
  function FirstTarget(p: Plan, targets: seq<string>, artifact: Artifact): (target: Option<string>)
    requires forall t | t in targets :: t in p.artifacts
    ensures target.None? <==> forall t | t in targets :: p.artifacts[t] != artifact
    ensures target.Some? ==> target.value in targets && p.artifacts[target.value] == artifact
  {
    if targets == [] then None
    else if p.artifacts[targets[0]] == artifact then Some(targets[0])
    else FirstTarget(p, targets[1..], artifact)
  }

  lemma TargetsHaveArtifacts(p: Plan)
    requires PlanOk(p)
    ensures forall t | t in TargetIds(p.profile, p.digSequence) :: t in p.artifacts
  {}

  /** resident_fixed_cycle_runtime.py, _target_for_artifact */
  method TargetForArtifact(p: Plan, artifact: Artifact) returns (target: Option<string>)
    requires PlanOk(p)
    ensures (forall t | t in TargetIds(p.profile, p.digSequence) :: t in p.artifacts) &&
            target == FirstTarget(p, TargetIds(p.profile, p.digSequence), artifact)
  {
    TargetsHaveArtifacts(p);
    var targets := TargetIds(p.profile, p.digSequence);
    var k := 0;
    while k < |targets|
      invariant k <= |targets|
      invariant FirstTarget(p, targets, artifact) == FirstTarget(p, targets[k..], artifact)
    {
      if p.artifacts[targets[k]] == artifact { return Some(targets[k]); }
      k := k + 1;
    }
    target := None;
  }
}
