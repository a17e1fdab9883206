/** MucoProblem (Muscollo/Muscollo/MucoProblem.cpp, lines 457-508): a list
    of phases that starts with exactly one default phase; every mutator of
    the problem forwards to phase 0, and initialize() initializes each phase
    in order with the same model. */
module MucoProblem {
  import opened Outcomes
  import opened Bounds
  import opened Naming
  import opened MucoPhase

  class Problem {
    var phases: seq<Phase>

    /** At least one phase, no phase listed twice, every phase valid. */
    ghost predicate Valid()
      reads this, phases
    {
      && |phases| >= 1
      && (forall i, j :: 0 <= i < j < |phases| ==> phases[i] != phases[j])
      && (forall i :: 0 <= i < |phases| ==> phases[i].Valid())
    }

    /** The default problem: one phase with the default phase contents. */
    constructor ()
      ensures Valid()
      ensures |phases| == 1 && fresh(phases[0])
      ensures phases[0].stateInfos == [] && phases[0].controlInfos == []
      ensures phases[0].parameters == [] && phases[0].costs == [] && phases[0].pathConstraints == []
      ensures phases[0].multibodyConstraintBounds == DefaultMultibodyConstraintBounds
      ensures phases[0].multiplierBounds == DefaultMultiplierBounds
      ensures phases[0].timeInitialBounds == Unset && phases[0].timeFinalBounds == Unset
      ensures phases[0].multibodyConstraints == [] && phases[0].numMultibodyConstraintEqs == 0
      ensures phases[0].numPathConstraintEqs == 0 && phases[0].multiplierInfosMap == map[]
    {
      var p := new Phase();
      phases := [p];
    }

    method SetModel(m: ModelData)
      requires Valid()
      modifies (phases[0] as Phase)`model
      ensures Valid()
      ensures phases[0].model == m
      ensures forall i :: 1 <= i < |phases| ==> unchanged(phases[i])
    {
      phases[0].SetModel(m);
    }

    method SetTimeBounds(initial: Bounds, final: Bounds)
      requires Valid()
      modifies (phases[0] as Phase)`timeInitialBounds, (phases[0] as Phase)`timeFinalBounds
      ensures Valid()
      ensures phases[0].timeInitialBounds == initial && phases[0].timeFinalBounds == final
      ensures forall i :: 1 <= i < |phases| ==> unchanged(phases[i])
    {
      phases[0].SetTimeBounds(initial, final);
    }

    method SetStateInfo(name: string, bounds: Bounds, initial: Bounds, final: Bounds) returns (r: Outcome)
      requires Valid()
      modifies (phases[0] as Phase)`stateInfos
      ensures Valid()
      ensures var info := NewVariableInfo(name, bounds, initial, final);
              (info.Success? ==> r == Pass && phases[0].stateInfos == Upsert(old(phases[0].stateInfos), info.value))
              && (info.Failure? ==> r == Fail(info.error) && phases[0].stateInfos == old(phases[0].stateInfos))
      ensures forall i :: 1 <= i < |phases| ==> unchanged(phases[i])
    {
      r := phases[0].SetStateInfo(name, bounds, initial, final);
    }

    method SetControlInfo(name: string, bounds: Bounds, initial: Bounds, final: Bounds) returns (r: Outcome)
      requires Valid()
      modifies (phases[0] as Phase)`controlInfos
      ensures Valid()
      ensures var info := NewVariableInfo(name, bounds, initial, final);
              (info.Success? ==> r == Pass && phases[0].controlInfos == Upsert(old(phases[0].controlInfos), info.value))
              && (info.Failure? ==> r == Fail(info.error) && phases[0].controlInfos == old(phases[0].controlInfos))
      ensures forall i :: 1 <= i < |phases| ==> unchanged(phases[i])
    {
      r := phases[0].SetControlInfo(name, bounds, initial, final);
    }

    method SetMultibodyConstraintBounds(b: Bounds)
      requires Valid()
      modifies (phases[0] as Phase)`multibodyConstraintBounds
      ensures Valid()
      ensures phases[0].multibodyConstraintBounds == b
      ensures forall i :: 1 <= i < |phases| ==> unchanged(phases[i])
    {
      phases[0].SetMultibodyConstraintBounds(b);
    }

    method SetMultiplierBounds(b: Bounds)
      requires Valid()
      modifies (phases[0] as Phase)`multiplierBounds
      ensures Valid()
      ensures phases[0].multiplierBounds == b
      ensures forall i :: 1 <= i < |phases| ==> unchanged(phases[i])
    {
      phases[0].SetMultiplierBounds(b);
    }

    method AddParameter(p: Parameter) returns (r: Outcome)
      requires Valid()
      modifies (phases[0] as Phase)`parameters
      ensures Valid()
      ensures r == CheckNewName(Names(old(phases[0].parameters), ParameterName), p.name)
      ensures phases[0].parameters == if r.Pass? then old(phases[0].parameters) + [p] else old(phases[0].parameters)
      ensures forall i :: 1 <= i < |phases| ==> unchanged(phases[i])
    {
      r := phases[0].AddParameter(p);
    }

    method AddCost(c: Cost) returns (r: Outcome)
      requires Valid()
      modifies (phases[0] as Phase)`costs
      ensures Valid()
      ensures r == CheckNewName(Names(old(phases[0].costs), CostName), c.name)
      ensures phases[0].costs == if r.Pass? then old(phases[0].costs) + [c] else old(phases[0].costs)
      ensures forall i :: 1 <= i < |phases| ==> unchanged(phases[i])
    {
      r := phases[0].AddCost(c);
    }

    method AddPathConstraint(pc: PathConstraint) returns (r: Outcome)
      requires Valid()
      modifies (phases[0] as Phase)`pathConstraints
      ensures Valid()
      ensures r == CheckNewName(Names(old(phases[0].pathConstraints), PathConstraintName), pc.name)
      ensures phases[0].pathConstraints == if r.Pass? then old(phases[0].pathConstraints) + [pc] else old(phases[0].pathConstraints)
      ensures forall i :: 1 <= i < |phases| ==> unchanged(phases[i])
    {
      r := phases[0].AddPathConstraint(pc);
    }

    /** The outcome of checking phase p's declared names against the model. */
    static function NameCheck(p: Phase, m: ModelData): Outcome
      reads p`stateInfos, p`controlInfos
    {
      CheckDeclaredNames(Names(p.stateInfos, VarName), Names(p.controlInfos, VarName), m)
    }

    /** initialize(model): initialize the phases in order with the same
        model; the first phase that throws ends the call. */
    method Initialize(m: ModelData, infoName: nat -> string) returns (r: Outcome)
      requires Valid()
      modifies phases`multibodyConstraints, phases`numMultibodyConstraintEqs, phases`multiplierInfosMap,
               phases`pathConstraints, phases`numPathConstraintEqs
      ensures Valid()
      ensures r.Pass? ==> forall i :: 0 <= i < |phases| ==> NameCheck(phases[i], m).Pass?
      ensures r.Fail? ==> exists k :: (0 <= k < |phases| && r == NameCheck(phases[k], m)
                && (forall i :: 0 <= i < k ==> NameCheck(phases[i], m).Pass?))
    {
      r := Pass;
      for k := 0 to |phases|
        invariant Valid() && r == Pass
        invariant forall i :: 0 <= i < k ==> NameCheck(phases[i], m).Pass?
      {
        r := InitializePhase(k, m, infoName);
        if r.Fail? {
          return;
        }
      }
    }

    /** One iteration of initialize(): initialize phase k, which extends its
        caches as MucoPhase's initialize does; the declared names of every
        phase stay as they were. */
    method InitializePhase(k: nat, m: ModelData, infoName: nat -> string) returns (r: Outcome)
      requires Valid() && k < |phases|
      modifies (phases[k] as Phase)`multibodyConstraints, (phases[k] as Phase)`numMultibodyConstraintEqs,
               (phases[k] as Phase)`multiplierInfosMap, (phases[k] as Phase)`pathConstraints,
               (phases[k] as Phase)`numPathConstraintEqs
      ensures Valid()
      ensures r == NameCheck(phases[k], m)
      ensures r.Fail? ==> phases[k].multibodyConstraints == old(phases[k].multibodyConstraints)
                          && phases[k].numMultibodyConstraintEqs == old(phases[k].numMultibodyConstraintEqs)
                          && phases[k].multiplierInfosMap == old(phases[k].multiplierInfosMap)
                          && phases[k].pathConstraints == old(phases[k].pathConstraints)
                          && phases[k].numPathConstraintEqs == old(phases[k].numPathConstraintEqs)
      ensures r.Pass? ==>
                var p := phases[k];
                var found := Discover(m.constraints, p.multibodyConstraintBounds, infoName);
                p.multibodyConstraints == old(p.multibodyConstraints) + found
                && p.numMultibodyConstraintEqs == TotalEquations(found)
                && p.multiplierInfosMap == InsertMultipliers(old(p.multiplierInfosMap), found, p.multiplierBounds)
                && p.pathConstraints == AssignOffsets(old(p.pathConstraints))
                && p.numPathConstraintEqs == TotalPathEquations(old(p.pathConstraints))
    {
      r := phases[k].Initialize(m, infoName);
    }
  }
}
