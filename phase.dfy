/** MucoPhase (Muscollo/Muscollo/MucoProblem.cpp, lines 100-450): the
    name-keyed registries of a phase, and initialize(), which checks the
    declarations against a model, discovers the enabled multibody
    constraints, allocates their Lagrange multipliers and numbers the
    path-constraint equations. */
module MucoPhase {
  import opened Outcomes
  import opened Bounds
  import opened Naming

  // ---------------------------------------------------------------------
  // Problem ingredients.  MucoParameter, MucoCost and MucoPathConstraint
  // are opaque here apart from their names; a path constraint also has its
  // equation count, taken as already known (the source reads it after the
  // constraint's own initialize, which is not part of this model), and the
  // equation offset initialize() hands it.
  // ---------------------------------------------------------------------

  datatype Parameter = Parameter(name: string)
  datatype Cost = Cost(name: string)
  datatype PathConstraint = PathConstraint(name: string, numEquations: nat, offset: nat)

  /** MucoConstraintInfo: a name and one bound per scalar equation. */
  datatype ConstraintInfo = ConstraintInfo(name: string, bounds: seq<Bounds>)

  /** MucoMultibodyConstraint: the engine's constraint index, its numbers of
      position, velocity and acceleration equations, and its info. */
  datatype MultibodyConstraint = MultibodyConstraint(cid: nat, mp: nat, mv: nat, ma: nat, info: ConstraintInfo)

  /** What the physics engine reports about one of its constraints in the
      model's working state: whether it is disabled, its numbers of
      position, velocity and acceleration equations in use, and the number
      of scalar equations its constraint info reports.  That last count
      comes from the MucoMultibodyConstraint constructor, which is not part
      of this model, and is in general not mp + mv + ma (the derivatives of
      holonomic and nonholonomic equations get no multiplier). */
  datatype EngineConstraint = EngineConstraint(disabled: bool, mp: nat, mv: nat, ma: nat, numEquations: nat)

  /** The parts of a Model that initialize() reads: its state-variable
      names, the paths of its actuators relative to the model, and the
      constraints of its matter subsystem in index order. */
  datatype ModelData = ModelData(stateNames: seq<string>, actuatorPaths: seq<string>, constraints: seq<EngineConstraint>)

  function VarName(v: VariableInfo): string { v.name }
  function ParameterName(p: Parameter): string { p.name }
  function CostName(c: Cost): string { c.name }
  function PathConstraintName(pc: PathConstraint): string { pc.name }
  function MultibodyConstraintName(mc: MultibodyConstraint): string { mc.info.name }

  /** The names of a registry that add* appends to: all non-empty, none twice. */
  predicate WellNamed(names: seq<string>) {
    Distinct(names) && "" !in names
  }

  /** The invariant of a phase's registries: variable infos are valid and
      uniquely named, the other registries hold distinct non-empty names. */
  ghost predicate WellFormed(states: seq<VariableInfo>, controls: seq<VariableInfo>,
                             parameters: seq<string>, costs: seq<string>, pathConstraints: seq<string>)
  {
    && Distinct(Names(states, VarName)) && (forall v :: v in states ==> IsValid(v))
    && Distinct(Names(controls, VarName)) && (forall v :: v in controls ==> IsValid(v))
    && WellNamed(parameters) && WellNamed(costs) && WellNamed(pathConstraints)
  }

  // ---------------------------------------------------------------------
  // Registries: upsert, append-only add, lookup
  // ---------------------------------------------------------------------

  /** setStateInfo / setControlInfo: overwrite the entry with the same name
      in place, or append when there is none. */
  function Upsert(infos: seq<VariableInfo>, info: VariableInfo): seq<VariableInfo> {
    var idx := FindIndexForName(Names(infos, VarName), info.name);
    if idx == -1 then infos + [info] else infos[idx := info]
  }

  /** With an existing name the entry at its index is replaced and nothing
      else changes; with a new name the info is appended. */
  lemma {:induction false} UpsertReplacesOrAppends(infos: seq<VariableInfo>, info: VariableInfo, j: nat)
    requires Distinct(Names(infos, VarName))
    ensures j < |infos| && infos[j].name == info.name ==> Upsert(infos, info) == infos[j := info]
    ensures info.name !in Names(infos, VarName) ==> Upsert(infos, info) == infos + [info]
  {
    if j < |infos| && infos[j].name == info.name {
      FindIndexForNameUnique(Names(infos, VarName), info.name, j);
    }
  }

  /** Upserting keeps the names distinct, and the new info is then the one
      found under its name. */
  lemma {:induction false} UpsertThenLookup(infos: seq<VariableInfo>, info: VariableInfo)
    requires Distinct(Names(infos, VarName))
    ensures Distinct(Names(Upsert(infos, info), VarName))
    ensures Lookup(Upsert(infos, info), VarName, info.name) == Success(info)
  {
    var names := Names(infos, VarName);
    var idx := FindIndexForName(names, info.name);
    var u := Upsert(infos, info);
    var un := Names(u, VarName);
    if idx == -1 {
      assert forall i :: 0 <= i < |infos| ==> un[i] == names[i];
      assert un[|infos|] == info.name;
      FindIndexForNameUnique(un, info.name, |infos|);
    } else {
      assert forall i :: 0 <= i < |infos| ==> un[i] == names[i];
      FindIndexForNameUnique(un, info.name, idx);
    }
  }

  /** Two upserts under the same name leave one entry, the second one. */
  lemma {:induction false} UpsertTwice(infos: seq<VariableInfo>, first: VariableInfo, second: VariableInfo)
    requires Distinct(Names(infos, VarName)) && first.name == second.name
    ensures Upsert(Upsert(infos, first), second) == Upsert(infos, second)
    ensures |Upsert(Upsert(infos, first), second)| == |Upsert(infos, first)|
  {
    var names := Names(infos, VarName);
    var once := Upsert(infos, first);
    UpsertThenLookup(infos, first);
    var idx := FindIndexForName(names, first.name);
    if idx == -1 {
      UpsertReplacesOrAppends(once, second, |infos|);
      assert once[|infos| := second] == infos + [second];
    } else {
      UpsertReplacesOrAppends(once, second, idx);
      UpsertReplacesOrAppends(infos, second, idx);
    }
  }

  /** The add* guard: a name that is empty or already present throws. */
  function CheckNewName(names: seq<string>, name: string): (r: Outcome)
    ensures name == "" ==> r == Fail(EmptyName)
    ensures name != "" && name in names ==> r == Fail(DuplicateName(name))
    ensures name != "" && name !in names ==> r == Pass
  {
    if name == "" then Fail(EmptyName)
    else if FindIndexForName(names, name) != -1 then Fail(DuplicateName(name))
    else Pass
  }

  /** Appending a name that passed the guard keeps a registry well named. */
  lemma {:induction false} CheckedAppendIsWellNamed(names: seq<string>, name: string)
    requires WellNamed(names) && CheckNewName(names, name).Pass?
    ensures WellNamed(names + [name])
  {
    var s := names + [name];
    forall i, j | 0 <= i < j < |s| ensures s[i] != s[j] {
      if j == |names| {
        assert s[i] == names[i];
      }
    }
  }

  /** The get*Info / getParameter / getPathConstraint /
      getMultibodyConstraint lookups: the first entry with that name, or
      an error when there is none. */
  function Lookup<T>(items: seq<T>, nameOf: T -> string, name: string): (r: Result<T>)
    ensures r.Success? <==> name in Names(items, nameOf)
    ensures r.Success? ==> r.value in items && nameOf(r.value) == name
    ensures r.Failure? ==> r.error == NotFound(name)
  {
    var idx := FindIndexForName(Names(items, nameOf), name);
    if idx == -1 then Failure(NotFound(name)) else Success(items[idx])
  }

  /** In a registry with distinct names the lookup returns the one entry
      with that name. */
  lemma {:induction false} LookupUnique<T>(items: seq<T>, nameOf: T -> string, j: nat)
    requires Distinct(Names(items, nameOf)) && j < |items|
    ensures Lookup(items, nameOf, nameOf(items[j])) == Success(items[j])
  {
    FindIndexForNameUnique(Names(items, nameOf), nameOf(items[j]), j);
  }

  /** The loop of the create*Names helpers. */
  method CollectNames<T>(items: seq<T>, nameOf: T -> string) returns (names: seq<string>)
    ensures names == Names(items, nameOf)
  {
    names := [];
    for i := 0 to |items|
      invariant |names| == i
      invariant forall j :: 0 <= j < i ==> names[j] == nameOf(items[j])
    {
      names := names + [nameOf(items[i])];
    }
  }

  // ---------------------------------------------------------------------
  // What one call of initialize() computes
  // ---------------------------------------------------------------------

  /** The first name not present in `universe`, or -1 when all are. */
  function FirstMissing(names: seq<string>, universe: seq<string>): (idx: int)
    ensures -1 <= idx < |names|
    ensures idx == -1 <==> forall i :: 0 <= i < |names| ==> names[i] in universe
    ensures idx >= 0 ==> names[idx] !in universe && forall i :: 0 <= i < idx ==> names[i] in universe
  {
    if |names| == 0 then -1
    else if FindIndexForName(universe, names[0]) == -1 then 0
    else
      var k := FirstMissing(names[1..], universe);
      if k == -1 then -1 else k + 1
  }

  /** Steps 1 and 2 of initialize(): every state info must name a state
      variable of the model, then every control info an actuator path. */
  function CheckDeclaredNames(states: seq<string>, controls: seq<string>, m: ModelData): Outcome {
    var i := FirstMissing(states, m.stateNames);
    if i != -1 then Fail(UnknownState(states[i]))
    else
      var j := FirstMissing(controls, m.actuatorPaths);
      if j != -1 then Fail(UnknownControl(controls[j]))
      else Pass
  }

  /** The check passes exactly when every state name is a model state and
      every control name an actuator path; it reports an unknown state
      before an unknown control. */
  lemma DeclaredNamesChecked(states: seq<string>, controls: seq<string>, m: ModelData)
    ensures var r := CheckDeclaredNames(states, controls, m);
            && (r.Pass? <==> (forall s :: s in states ==> s in m.stateNames)
                             && (forall c :: c in controls ==> c in m.actuatorPaths))
            && (r.Fail? && r.error.UnknownState? ==> r.error.name in states && r.error.name !in m.stateNames)
            && (r.Fail? && !r.error.UnknownState? ==>
                  r.error.UnknownControl? && r.error.name in controls && r.error.name !in m.actuatorPaths
                  && forall s :: s in states ==> s in m.stateNames)
  {
  }

  /** The i-th multiplier of a level: bounds, initial and final bounds all
      equal to the phase's multiplier bounds. */
  function MultiplierInfo(cid: nat, level: Level, i: nat, b: Bounds): VariableInfo {
    VariableInfo(MultiplierName(cid, level, i), b, b, b)
  }

  /** The multipliers of one level, as the inner loops of initialize() build them. */
  function Multipliers(cid: nat, level: Level, n: nat, b: Bounds): (r: seq<VariableInfo>)
    ensures |r| == n
    ensures forall i :: 0 <= i < n ==> r[i] == MultiplierInfo(cid, level, i, b)
  {
    if n == 0 then [] else Multipliers(cid, level, n - 1, b) + [MultiplierInfo(cid, level, n - 1, b)]
  }

  /** All multipliers of a constraint: position level first, then velocity,
      then acceleration. */
  function MultiplierInfos(mc: MultibodyConstraint, b: Bounds): seq<VariableInfo> {
    Multipliers(mc.cid, Position, mc.mp, b) + Multipliers(mc.cid, Velocity, mc.mv, b)
      + Multipliers(mc.cid, Acceleration, mc.ma, b)
  }

  /** The multibody constraint initialize() records for engine constraint
      `cid`: one copy of the uniform constraint bound per equation.  The
      name of its info is given by `infoName`, since the constructor of
      MucoMultibodyConstraint is not part of this model. */
  function NewMultibodyConstraint(cid: nat, ec: EngineConstraint, mcBounds: Bounds, infoName: nat -> string): MultibodyConstraint {
    MultibodyConstraint(cid, ec.mp, ec.mv, ec.ma,
      ConstraintInfo(infoName(cid), seq(ec.numEquations, _ => mcBounds)))
  }

  /** The constraints of the engine that are not disabled, in index order. */
  function Discover(cs: seq<EngineConstraint>, mcBounds: Bounds, infoName: nat -> string): seq<MultibodyConstraint>
  {
    if |cs| == 0 then []
    else
      var cid := |cs| - 1;
      Discover(cs[..cid], mcBounds, infoName)
        + (if cs[cid].disabled then [] else [NewMultibodyConstraint(cid, cs[cid], mcBounds, infoName)])
  }

  /** Each of `found` comes from an enabled engine constraint of `cs` and
      carries its counts and the uniform bounds, in increasing index order. */
  predicate DiscoveredFrom(found: seq<MultibodyConstraint>, cs: seq<EngineConstraint>, mcBounds: Bounds, infoName: nat -> string) {
    && (forall k :: 0 <= k < |found| ==>
          found[k].cid < |cs| && !cs[found[k].cid].disabled
          && found[k] == NewMultibodyConstraint(found[k].cid, cs[found[k].cid], mcBounds, infoName))
    && (forall k1, k2 :: 0 <= k1 < k2 < |found| ==> found[k1].cid < found[k2].cid)
  }

  lemma {:induction false} DiscoverShape(cs: seq<EngineConstraint>, mcBounds: Bounds, infoName: nat -> string)
    ensures DiscoveredFrom(Discover(cs, mcBounds, infoName), cs, mcBounds, infoName)
  {
    if |cs| > 0 {
      var n := |cs| - 1;
      DiscoverShape(cs[..n], mcBounds, infoName);
      var before := Discover(cs[..n], mcBounds, infoName);
      var found := Discover(cs, mcBounds, infoName);
      var tail := if cs[n].disabled then [] else [NewMultibodyConstraint(n, cs[n], mcBounds, infoName)];
      assert found == before + tail;
      assert forall c :: 0 <= c < n ==> cs[..n][c] == cs[c];
      forall k | 0 <= k < |found|
        ensures found[k].cid < |cs| && !cs[found[k].cid].disabled
                && found[k] == NewMultibodyConstraint(found[k].cid, cs[found[k].cid], mcBounds, infoName)
        ensures k < |before| ==> found[k].cid < n
      {
        if k < |before| {
          assert found[k] == before[k];
          assert before[k].cid < n;
          assert cs[..n][before[k].cid] == cs[before[k].cid];
        } else {
          assert found[k] == tail[0];
        }
      }
    }
  }

  /** Every constraint that is not disabled is discovered. */
  lemma {:induction false} DiscoverFindsEnabled(cs: seq<EngineConstraint>, mcBounds: Bounds, infoName: nat -> string, cid: nat)
    requires cid < |cs| && !cs[cid].disabled
    ensures exists k :: 0 <= k < |Discover(cs, mcBounds, infoName)| && Discover(cs, mcBounds, infoName)[k].cid == cid
  {
    var n := |cs| - 1;
    var before := Discover(cs[..n], mcBounds, infoName);
    var found := Discover(cs, mcBounds, infoName);
    assert found[..|before|] == before;
    if cid == n {
      assert found[|before|].cid == cid;
    } else {
      assert cs[..n][cid] == cs[cid];
      DiscoverFindsEnabled(cs[..n], mcBounds, infoName, cid);
      var k :| 0 <= k < |before| && before[k].cid == cid;
      assert found[k] == before[k];
    }
  }

  /** The number of scalar equations of a list of multibody constraints. */
  function TotalEquations(mcs: seq<MultibodyConstraint>): nat {
    if |mcs| == 0 then 0 else TotalEquations(mcs[..|mcs| - 1]) + |mcs[|mcs| - 1].info.bounds|
  }

  /** The map after inserting each constraint's multipliers in order;
      std::map::insert leaves a key that is already present untouched. */
  function InsertMultipliers(m: map<string, seq<VariableInfo>>, mcs: seq<MultibodyConstraint>, b: Bounds): map<string, seq<VariableInfo>> {
    if |mcs| == 0 then m
    else
      var before := InsertMultipliers(m, mcs[..|mcs| - 1], b);
      var mc := mcs[|mcs| - 1];
      if mc.info.name in before then before else before[mc.info.name := MultiplierInfos(mc, b)]
  }

  /** One more engine constraint extends the discovered list by at most one entry. */
  lemma DiscoverStep(cs: seq<EngineConstraint>, cid: nat, mcBounds: Bounds, infoName: nat -> string)
    requires cid < |cs|
    ensures Discover(cs[..cid + 1], mcBounds, infoName)
            == Discover(cs[..cid], mcBounds, infoName)
               + (if cs[cid].disabled then [] else [NewMultibodyConstraint(cid, cs[cid], mcBounds, infoName)])
  {
    assert cs[..cid + 1][..cid] == cs[..cid];
  }

  /** The equations of a list of path constraints. */
  function TotalPathEquations(pcs: seq<PathConstraint>): nat {
    if |pcs| == 0 then 0 else TotalPathEquations(pcs[..|pcs| - 1]) + pcs[|pcs| - 1].numEquations
  }

  /** Each path constraint gets as offset the number of equations of the
      path constraints before it. */
  function AssignOffsets(pcs: seq<PathConstraint>): (r: seq<PathConstraint>)
    ensures |r| == |pcs|
  {
    if |pcs| == 0 then []
    else
      var n := |pcs| - 1;
      AssignOffsets(pcs[..n]) + [pcs[n].(offset := TotalPathEquations(pcs[..n]))]
  }

  /** The i-th path constraint keeps its name and equation count and gets
      as offset the equation count of the ones before it. */
  lemma {:induction false} AssignOffsetsAt(pcs: seq<PathConstraint>, i: nat)
    requires i < |pcs|
    ensures var r := AssignOffsets(pcs);
            r[i] == pcs[i].(offset := TotalPathEquations(pcs[..i]))
  {
    var n := |pcs| - 1;
    if i < n {
      AssignOffsetsAt(pcs[..n], i);
      assert pcs[..n][i] == pcs[i];
      assert pcs[..n][..i] == pcs[..i];
    }
  }

  /** Numbering the path constraints leaves their names as they were. */
  lemma AssignOffsetsKeepsNames(pcs: seq<PathConstraint>)
    ensures Names(AssignOffsets(pcs), PathConstraintName) == Names(pcs, PathConstraintName)
  {
    forall i | 0 <= i < |pcs| ensures AssignOffsets(pcs)[i].name == pcs[i].name {
      AssignOffsetsAt(pcs, i);
    }
  }

  // ---------------------------------------------------------------------
  // Properties of initialize()
  // ---------------------------------------------------------------------

  /** A constraint's bounds vector holds one copy of the uniform bound per
      equation its info reports, and it gets exactly one multiplier per
      position, velocity and acceleration equation, each bounded (also at
      both ends) by the multiplier bounds. */
  lemma {:induction false} MultipliersMatchEquations(cid: nat, ec: EngineConstraint, mcBounds: Bounds, b: Bounds, infoName: nat -> string)
    ensures var mc := NewMultibodyConstraint(cid, ec, mcBounds, infoName);
            var mult := MultiplierInfos(mc, b);
            |mc.info.bounds| == ec.numEquations && |mult| == ec.mp + ec.mv + ec.ma
            && (forall e :: 0 <= e < |mc.info.bounds| ==> mc.info.bounds[e] == mcBounds)
            && (forall j :: 0 <= j < |mult| ==>
                  mult[j].bounds == b && mult[j].initial == b && mult[j].final == b && IsValid(mult[j]))
  {
    var mc := NewMultibodyConstraint(cid, ec, mcBounds, infoName);
    var mult := MultiplierInfos(mc, b);
    var p, v, a := Multipliers(cid, Position, ec.mp, b), Multipliers(cid, Velocity, ec.mv, b), Multipliers(cid, Acceleration, ec.ma, b);
    assert mult == p + v + a;
    forall j | 0 <= j < |mult|
      ensures mult[j].bounds == b && mult[j].initial == b && mult[j].final == b
    {
      if j < ec.mp { assert mult[j] == p[j]; }
      else if j < ec.mp + ec.mv { assert mult[j] == v[j - ec.mp]; }
      else { assert mult[j] == a[j - ec.mp - ec.mv]; }
    }
  }

  /** The multipliers of a constraint are named lambda_cid<cid>_p0.., then
      _v0.., then _a0.., and no two of them share a name. */
  lemma {:induction false} MultiplierNames(mc: MultibodyConstraint, b: Bounds)
    ensures var mult := MultiplierInfos(mc, b);
            (forall j :: 0 <= j < mc.mp ==> mult[j].name == MultiplierName(mc.cid, Position, j))
            && (forall j :: 0 <= j < mc.mv ==> mult[mc.mp + j].name == MultiplierName(mc.cid, Velocity, j))
            && (forall j :: 0 <= j < mc.ma ==> mult[mc.mp + mc.mv + j].name == MultiplierName(mc.cid, Acceleration, j))
            && Distinct(Names(mult, VarName))
  {
    var p, v, a := Multipliers(mc.cid, Position, mc.mp, b), Multipliers(mc.cid, Velocity, mc.mv, b), Multipliers(mc.cid, Acceleration, mc.ma, b);
    var mult := p + v + a;
    assert MultiplierInfos(mc, b) == mult;
    forall j | 0 <= j < mc.mp ensures mult[j].name == MultiplierName(mc.cid, Position, j) {
      assert mult[j] == p[j];
    }
    forall j | 0 <= j < mc.mv ensures mult[mc.mp + j].name == MultiplierName(mc.cid, Velocity, j) {
      assert mult[mc.mp + j] == v[j];
    }
    forall j | 0 <= j < mc.ma ensures mult[mc.mp + mc.mv + j].name == MultiplierName(mc.cid, Acceleration, j) {
      assert mult[mc.mp + mc.mv + j] == a[j];
    }
    MultiplierNamesDistinct(mc, b);
  }

  lemma {:induction false} MultiplierNamesDistinct(mc: MultibodyConstraint, b: Bounds)
    ensures Distinct(Names(MultiplierInfos(mc, b), VarName))
  {
    var names := Names(MultiplierInfos(mc, b), VarName);
    forall i, j | 0 <= i < j < |names| ensures names[i] != names[j] {
      var li, ii := LevelAndIndex(mc, i);
      var lj, ij := LevelAndIndex(mc, j);
      if names[i] == names[j] {
        MultiplierNameInjective(mc.cid, li, ii, mc.cid, lj, ij);
        assert false;
      }
    }
  }

  /** Where multiplier number j of a constraint sits: its level and its
      index within that level. */
  lemma LevelAndIndex(mc: MultibodyConstraint, j: nat) returns (level: Level, i: nat)
    requires j < mc.mp + mc.mv + mc.ma
    ensures level == Position ==> i == j && j < mc.mp
    ensures level == Velocity ==> i == j - mc.mp && mc.mp <= j < mc.mp + mc.mv
    ensures level == Acceleration ==> i == j - mc.mp - mc.mv && mc.mp + mc.mv <= j
    ensures forall b :: MultiplierInfos(mc, b)[j].name == MultiplierName(mc.cid, level, i)
  {
    if j < mc.mp {
      level, i := Position, j;
      forall b ensures MultiplierInfos(mc, b)[j].name == MultiplierName(mc.cid, level, i) {
        assert MultiplierInfos(mc, b)[j] == Multipliers(mc.cid, Position, mc.mp, b)[j];
      }
    } else if j < mc.mp + mc.mv {
      level, i := Velocity, j - mc.mp;
      forall b ensures MultiplierInfos(mc, b)[j].name == MultiplierName(mc.cid, level, i) {
        assert MultiplierInfos(mc, b)[j] == Multipliers(mc.cid, Velocity, mc.mv, b)[i];
      }
    } else {
      level, i := Acceleration, j - mc.mp - mc.mv;
      forall b ensures MultiplierInfos(mc, b)[j].name == MultiplierName(mc.cid, level, i) {
        assert MultiplierInfos(mc, b)[j] == Multipliers(mc.cid, Acceleration, mc.ma, b)[i];
      }
    }
  }

  /** Multipliers of two different constraints never share a name. */
  lemma {:induction false} MultiplierNamesAcrossConstraints(mc1: MultibodyConstraint, mc2: MultibodyConstraint, b: Bounds, j1: nat, j2: nat)
    requires mc1.cid != mc2.cid
    requires j1 < |MultiplierInfos(mc1, b)| && j2 < |MultiplierInfos(mc2, b)|
    ensures MultiplierInfos(mc1, b)[j1].name != MultiplierInfos(mc2, b)[j2].name
  {
    var l1, i1 := LevelAndIndex(mc1, j1);
    var l2, i2 := LevelAndIndex(mc2, j2);
    if MultiplierInfos(mc1, b)[j1].name == MultiplierInfos(mc2, b)[j2].name {
      MultiplierNameInjective(mc1.cid, l1, i1, mc2.cid, l2, i2);
      assert false;
    }
  }

  /** The scalar equations the engine reports for its enabled constraints. */
  function EnabledEquations(cs: seq<EngineConstraint>): nat {
    if |cs| == 0 then 0
    else
      var n := |cs| - 1;
      EnabledEquations(cs[..n]) + (if cs[n].disabled then 0 else cs[n].numEquations)
  }

  /** The equation counter of initialize() adds up the equation counts of
      exactly the constraints that are not disabled. */
  lemma {:induction false} CounterCountsEnabledEquations(cs: seq<EngineConstraint>, mcBounds: Bounds, infoName: nat -> string)
    ensures TotalEquations(Discover(cs, mcBounds, infoName)) == EnabledEquations(cs)
  {
    if |cs| > 0 {
      var n := |cs| - 1;
      var before := Discover(cs[..n], mcBounds, infoName);
      CounterCountsEnabledEquations(cs[..n], mcBounds, infoName);
      if !cs[n].disabled {
        var mc := NewMultibodyConstraint(n, cs[n], mcBounds, infoName);
        assert Discover(cs, mcBounds, infoName) == before + [mc];
        assert (before + [mc])[..|before|] == before;
        assert |mc.info.bounds| == cs[n].numEquations;
      } else {
        assert Discover(cs, mcBounds, infoName) == before;
      }
    }
  }

  /** std::map::insert never overwrites: an entry present before a call
      survives it unchanged (the stale entries of an earlier initialize). */
  lemma {:induction false} InsertKeepsExisting(m: map<string, seq<VariableInfo>>, mcs: seq<MultibodyConstraint>, b: Bounds, key: string)
    requires key in m
    ensures key in InsertMultipliers(m, mcs, b) && InsertMultipliers(m, mcs, b)[key] == m[key]
  {
    if |mcs| > 0 {
      InsertKeepsExisting(m, mcs[..|mcs| - 1], b, key);
    }
  }

  /** The keys after the inserts are the old keys plus the constraint names. */
  lemma {:induction false} InsertKeys(m: map<string, seq<VariableInfo>>, mcs: seq<MultibodyConstraint>, b: Bounds)
    ensures forall key :: key in InsertMultipliers(m, mcs, b) <==> key in m || key in Names(mcs, MultibodyConstraintName)
  {
    if |mcs| > 0 {
      var n := |mcs| - 1;
      InsertKeys(m, mcs[..n], b);
      assert Names(mcs, MultibodyConstraintName) == Names(mcs[..n], MultibodyConstraintName) + [mcs[n].info.name];
    }
  }

  /** A constraint whose name was neither in the map before the call nor
      used by an earlier constraint of the call gets exactly its own
      multipliers. */
  lemma {:induction false} InsertNewEntry(m: map<string, seq<VariableInfo>>, mcs: seq<MultibodyConstraint>, b: Bounds, k: nat)
    requires k < |mcs| && mcs[k].info.name !in m
    requires forall j :: 0 <= j < k ==> mcs[j].info.name != mcs[k].info.name
    ensures mcs[k].info.name in InsertMultipliers(m, mcs, b)
    ensures InsertMultipliers(m, mcs, b)[mcs[k].info.name] == MultiplierInfos(mcs[k], b)
  {
    var n := |mcs| - 1;
    var key := mcs[k].info.name;
    var before := InsertMultipliers(m, mcs[..n], b);
    if k == n {
      InsertKeys(m, mcs[..n], b);
      assert key !in Names(mcs[..n], MultibodyConstraintName);
      assert key !in before;
    } else {
      assert mcs[..n][k] == mcs[k];
      assert forall j :: 0 <= j < k ==> mcs[..n][j] == mcs[j];
      InsertNewEntry(m, mcs[..n], b, k);
    }
  }

  /** In the first initialize (empty map), with constraint infos named
      injectively, every discovered constraint of the model maps to exactly
      its own multipliers. */
  lemma {:induction false} FirstInitializeMultipliers(cs: seq<EngineConstraint>, mcBounds: Bounds, b: Bounds, infoName: nat -> string, cid: nat)
    requires forall c1, c2 :: 0 <= c1 < c2 < |cs| ==> infoName(c1) != infoName(c2)
    requires cid < |cs| && !cs[cid].disabled
    ensures var found := Discover(cs, mcBounds, infoName);
            var mult := InsertMultipliers(map[], found, b);
            infoName(cid) in mult
            && mult[infoName(cid)] == MultiplierInfos(NewMultibodyConstraint(cid, cs[cid], mcBounds, infoName), b)
  {
    var found := Discover(cs, mcBounds, infoName);
    DiscoverShape(cs, mcBounds, infoName);
    DiscoverFindsEnabled(cs, mcBounds, infoName, cid);
    var k :| 0 <= k < |found| && found[k].cid == cid;
    assert found[k] == NewMultibodyConstraint(cid, cs[cid], mcBounds, infoName);
    forall j | 0 <= j < k ensures found[j].info.name != found[k].info.name {
      assert found[j].cid < found[k].cid;
      assert found[j].info.name == infoName(found[j].cid);
    }
    InsertNewEntry(map[], found, b, k);
  }

  /** Path-constraint equations are numbered contiguously: the first starts
      at 0, each next one where its predecessor ends, and the total is where
      the last one ends. */
  lemma {:induction false} OffsetsAreContiguous(pcs: seq<PathConstraint>)
    ensures var r := AssignOffsets(pcs);
            (|pcs| > 0 ==> r[0].offset == 0)
            && (forall i :: 0 <= i < |pcs| - 1 ==> r[i + 1].offset == r[i].offset + r[i].numEquations)
            && (|pcs| > 0 ==> TotalPathEquations(pcs) == r[|pcs| - 1].offset + r[|pcs| - 1].numEquations)
  {
    var r := AssignOffsets(pcs);
    forall i | 0 <= i < |pcs| - 1 ensures r[i + 1].offset == r[i].offset + r[i].numEquations {
      AssignOffsetsAt(pcs, i);
      AssignOffsetsAt(pcs, i + 1);
      assert pcs[..i + 1][..i] == pcs[..i];
    }
    if |pcs| > 0 {
      var n := |pcs| - 1;
      AssignOffsetsAt(pcs, 0);
      AssignOffsetsAt(pcs, n);
      assert pcs[..n + 1] == pcs;
    }
  }

  /** The three inner loops of initialize(): the multipliers of one
      constraint, each constructed (and so validated) as a MucoVariableInfo. */
  method BuildMultiplierInfos(mc: MultibodyConstraint, b: Bounds) returns (multInfos: seq<VariableInfo>)
    ensures multInfos == MultiplierInfos(mc, b)
  {
    multInfos := AppendMultipliers([], mc.cid, Position, mc.mp, b);
    multInfos := AppendMultipliers(multInfos, mc.cid, Velocity, mc.mv, b);
    multInfos := AppendMultipliers(multInfos, mc.cid, Acceleration, mc.ma, b);
  }

  /** One inner loop of initialize(): append the n multipliers of a level,
      each built with the validating MucoVariableInfo constructor. */
  method AppendMultipliers(infos: seq<VariableInfo>, cid: nat, level: Level, n: nat, b: Bounds) returns (r: seq<VariableInfo>)
    ensures r == infos + Multipliers(cid, level, n, b)
  {
    r := infos;
    for i := 0 to n
      invariant r == infos + Multipliers(cid, level, i, b)
    {
      var info := NewVariableInfo(MultiplierName(cid, level, i), b, b, b);
      SameBoundsAreValid(MultiplierName(cid, level, i), b);
      r := r + [info.value];
    }
  }

  /** The constraint loop of initialize(), on values: append each enabled
      engine constraint to `recorded`, add up its equations and insert its
      multipliers into `multMap`. */
  method RecordConstraints(cs: seq<EngineConstraint>, mcBounds: Bounds, multBounds: Bounds, infoName: nat -> string,
                           recorded0: seq<MultibodyConstraint>, map0: map<string, seq<VariableInfo>>)
    returns (recorded: seq<MultibodyConstraint>, numEqs: nat, multMap: map<string, seq<VariableInfo>>)
    ensures var found := Discover(cs, mcBounds, infoName);
            recorded == recorded0 + found
            && numEqs == TotalEquations(found)
            && multMap == InsertMultipliers(map0, found, multBounds)
  {
    recorded, numEqs, multMap := recorded0, 0, map0;
    ghost var found: seq<MultibodyConstraint> := [];
    for cid := 0 to |cs|
      invariant found == Discover(cs[..cid], mcBounds, infoName)
      invariant recorded == recorded0 + found && numEqs == TotalEquations(found)
      invariant multMap == InsertMultipliers(map0, found, multBounds)
    {
      DiscoverStep(cs, cid, mcBounds, infoName);
      if !cs[cid].disabled {
        var mc := NewMultibodyConstraint(cid, cs[cid], mcBounds, infoName);
        recorded, numEqs, multMap := RecordOne(mc, multBounds, recorded, numEqs, multMap, recorded0, map0, found);
        found := found + [mc];
      }
    }
    assert cs[..|cs|] == cs;
  }

  /** One enabled constraint: record it, count its equations and insert its
      multipliers unless its name is already a key (std::map::insert). */
  method RecordOne(mc: MultibodyConstraint, multBounds: Bounds, recorded0: seq<MultibodyConstraint>,
                   numEqs0: nat, map0: map<string, seq<VariableInfo>>,
                   ghost recordedStart: seq<MultibodyConstraint>, ghost mapStart: map<string, seq<VariableInfo>>,
                   ghost found: seq<MultibodyConstraint>)
    returns (recorded: seq<MultibodyConstraint>, numEqs: nat, multMap: map<string, seq<VariableInfo>>)
    requires recorded0 == recordedStart + found && numEqs0 == TotalEquations(found)
    requires map0 == InsertMultipliers(mapStart, found, multBounds)
    ensures recorded == recordedStart + (found + [mc]) && numEqs == TotalEquations(found + [mc])
    ensures multMap == InsertMultipliers(mapStart, found + [mc], multBounds)
  {
    assert (found + [mc])[..|found|] == found;
    numEqs := numEqs0 + |mc.info.bounds|;
    recorded := recorded0 + [mc];
    var multInfos := BuildMultiplierInfos(mc, multBounds);
    multMap := map0;
    if mc.info.name !in multMap {
      multMap := multMap[mc.info.name := multInfos];
    }
  }

  /** The default bounds: MucoBounds(0) for every multibody-constraint
      equation and [-1000, 1000] for every multiplier. */
  const DefaultMultibodyConstraintBounds: Bounds := Fixed(0.0)
  const DefaultMultiplierBounds: Bounds := Range(-1000.0, 1000.0)

  // ---------------------------------------------------------------------
  // The phase
  // ---------------------------------------------------------------------

  class Phase {
    // Declarations
    var model: ModelData
    var timeInitialBounds: Bounds
    var timeFinalBounds: Bounds
    var stateInfos: seq<VariableInfo>
    var controlInfos: seq<VariableInfo>
    var parameters: seq<Parameter>
    var costs: seq<Cost>
    var pathConstraints: seq<PathConstraint>
    var multibodyConstraintBounds: Bounds
    var multiplierBounds: Bounds
    // Caches written by Initialize
    var multibodyConstraints: seq<MultibodyConstraint>
    var numMultibodyConstraintEqs: nat
    var numPathConstraintEqs: nat
    var multiplierInfosMap: map<string, seq<VariableInfo>>

    /** Names are unique within each registry, the add* registries hold no
        empty name, and every variable info passed validate(). */
    ghost predicate Valid()
      reads this
    {
      WellFormed(stateInfos, controlInfos, Names(parameters, ParameterName), Names(costs, CostName),
                 Names(pathConstraints, PathConstraintName))
    }

    constructor ()
      ensures Valid()
      ensures stateInfos == [] && controlInfos == [] && parameters == [] && costs == [] && pathConstraints == []
      ensures timeInitialBounds == Unset && timeFinalBounds == Unset
      ensures multibodyConstraintBounds == DefaultMultibodyConstraintBounds
      ensures multiplierBounds == DefaultMultiplierBounds
      ensures multibodyConstraints == [] && numMultibodyConstraintEqs == 0 && numPathConstraintEqs == 0
      ensures multiplierInfosMap == map[]
    {
      model := ModelData([], [], []);
      timeInitialBounds, timeFinalBounds := Unset, Unset;
      stateInfos, controlInfos := [], [];
      parameters, costs, pathConstraints := [], [], [];
      multibodyConstraintBounds := DefaultMultibodyConstraintBounds;
      multiplierBounds := DefaultMultiplierBounds;
      multibodyConstraints := [];
      numMultibodyConstraintEqs, numPathConstraintEqs := 0, 0;
      multiplierInfosMap := map[];
    }

    method SetModel(m: ModelData)
      modifies this`model
      ensures model == m
    {
      model := m;
    }

    method SetTimeBounds(initial: Bounds, final: Bounds)
      modifies this`timeInitialBounds, this`timeFinalBounds
      ensures timeInitialBounds == initial && timeFinalBounds == final
    {
      timeInitialBounds, timeFinalBounds := initial, final;
    }

    method SetMultibodyConstraintBounds(b: Bounds)
      modifies this`multibodyConstraintBounds
      ensures multibodyConstraintBounds == b
    {
      multibodyConstraintBounds := b;
    }

    method SetMultiplierBounds(b: Bounds)
      modifies this`multiplierBounds
      ensures multiplierBounds == b
    {
      multiplierBounds := b;
    }

    /** setStateInfo: build (and so validate) the info, then overwrite the
        entry of that name or append. */
    method SetStateInfo(name: string, bounds: Bounds, initial: Bounds, final: Bounds) returns (r: Outcome)
      requires Valid()
      modifies this`stateInfos
      ensures Valid()
      ensures var info := NewVariableInfo(name, bounds, initial, final);
              (info.Success? ==> r == Pass && stateInfos == Upsert(old(stateInfos), info.value))
              && (info.Failure? ==> r == Fail(info.error) && stateInfos == old(stateInfos))
    {
      var idx := FindIndexForName(Names(stateInfos, VarName), name);
      var info := NewVariableInfo(name, bounds, initial, final);
      if info.Failure? {
        return Fail(info.error);
      }
      UpsertThenLookup(stateInfos, info.value);
      if idx == -1 {
        stateInfos := stateInfos + [info.value];
      } else {
        stateInfos := stateInfos[idx := info.value];
      }
      r := Pass;
    }

    /** setControlInfo: as setStateInfo, on the control infos. */
    method SetControlInfo(name: string, bounds: Bounds, initial: Bounds, final: Bounds) returns (r: Outcome)
      requires Valid()
      modifies this`controlInfos
      ensures Valid()
      ensures var info := NewVariableInfo(name, bounds, initial, final);
              (info.Success? ==> r == Pass && controlInfos == Upsert(old(controlInfos), info.value))
              && (info.Failure? ==> r == Fail(info.error) && controlInfos == old(controlInfos))
    {
      var idx := FindIndexForName(Names(controlInfos, VarName), name);
      var info := NewVariableInfo(name, bounds, initial, final);
      if info.Failure? {
        return Fail(info.error);
      }
      UpsertThenLookup(controlInfos, info.value);
      if idx == -1 {
        controlInfos := controlInfos + [info.value];
      } else {
        controlInfos := controlInfos[idx := info.value];
      }
      r := Pass;
    }

    method AddParameter(p: Parameter) returns (r: Outcome)
      requires Valid()
      modifies this`parameters
      ensures Valid()
      ensures r == CheckNewName(Names(old(parameters), ParameterName), p.name)
      ensures parameters == if r.Pass? then old(parameters) + [p] else old(parameters)
    {
      r := CheckNewName(Names(parameters, ParameterName), p.name);
      if r.Pass? {
        CheckedAppendIsWellNamed(Names(parameters, ParameterName), p.name);
        assert Names(parameters + [p], ParameterName) == Names(parameters, ParameterName) + [p.name];
        parameters := parameters + [p];
      }
    }

    method AddCost(c: Cost) returns (r: Outcome)
      requires Valid()
      modifies this`costs
      ensures Valid()
      ensures r == CheckNewName(Names(old(costs), CostName), c.name)
      ensures costs == if r.Pass? then old(costs) + [c] else old(costs)
    {
      r := CheckNewName(Names(costs, CostName), c.name);
      if r.Pass? {
        CheckedAppendIsWellNamed(Names(costs, CostName), c.name);
        assert Names(costs + [c], CostName) == Names(costs, CostName) + [c.name];
        costs := costs + [c];
      }
    }

    method AddPathConstraint(pc: PathConstraint) returns (r: Outcome)
      requires Valid()
      modifies this`pathConstraints
      ensures Valid()
      ensures r == CheckNewName(Names(old(pathConstraints), PathConstraintName), pc.name)
      ensures pathConstraints == if r.Pass? then old(pathConstraints) + [pc] else old(pathConstraints)
    {
      r := CheckNewName(Names(pathConstraints, PathConstraintName), pc.name);
      if r.Pass? {
        CheckedAppendIsWellNamed(Names(pathConstraints, PathConstraintName), pc.name);
        assert Names(pathConstraints + [pc], PathConstraintName) == Names(pathConstraints, PathConstraintName) + [pc.name];
        pathConstraints := pathConstraints + [pc];
      }
    }

    method CreateStateInfoNames() returns (names: seq<string>)
      ensures |names| == |stateInfos| && forall i :: 0 <= i < |stateInfos| ==> names[i] == stateInfos[i].name
    {
      names := CollectNames(stateInfos, VarName);
    }

    method CreateControlInfoNames() returns (names: seq<string>)
      ensures |names| == |controlInfos| && forall i :: 0 <= i < |controlInfos| ==> names[i] == controlInfos[i].name
    {
      names := CollectNames(controlInfos, VarName);
    }

    method CreateParameterNames() returns (names: seq<string>)
      ensures |names| == |parameters| && forall i :: 0 <= i < |parameters| ==> names[i] == parameters[i].name
    {
      names := CollectNames(parameters, ParameterName);
    }

    method CreatePathConstraintNames() returns (names: seq<string>)
      ensures |names| == |pathConstraints| && forall i :: 0 <= i < |pathConstraints| ==> names[i] == pathConstraints[i].name
    {
      names := CollectNames(pathConstraints, PathConstraintName);
    }

    /** The evident intent of createMultibodyConstraintNames (the source
        omits its return statement): the names of the constraint infos. */
    method CreateMultibodyConstraintNames() returns (names: seq<string>)
      ensures |names| == |multibodyConstraints|
      ensures forall i :: 0 <= i < |multibodyConstraints| ==> names[i] == multibodyConstraints[i].info.name
    {
      names := CollectNames(multibodyConstraints, MultibodyConstraintName);
    }

    function GetStateInfo(name: string): (r: Result<VariableInfo>)
      reads this
      ensures r.Success? <==> exists i :: 0 <= i < |stateInfos| && stateInfos[i].name == name
      ensures r.Success? ==> r.value in stateInfos && r.value.name == name
      ensures r.Failure? ==> r.error == NotFound(name)
    {
      Lookup(stateInfos, VarName, name)
    }

    function GetControlInfo(name: string): (r: Result<VariableInfo>)
      reads this
      ensures r.Success? <==> exists i :: 0 <= i < |controlInfos| && controlInfos[i].name == name
      ensures r.Success? ==> r.value in controlInfos && r.value.name == name
      ensures r.Failure? ==> r.error == NotFound(name)
    {
      Lookup(controlInfos, VarName, name)
    }

    function GetParameter(name: string): (r: Result<Parameter>)
      reads this
      ensures r.Success? <==> exists i :: 0 <= i < |parameters| && parameters[i].name == name
      ensures r.Success? ==> r.value in parameters && r.value.name == name
      ensures r.Failure? ==> r.error == NotFound(name)
    {
      Lookup(parameters, ParameterName, name)
    }

    function GetPathConstraint(name: string): (r: Result<PathConstraint>)
      reads this
      ensures r.Success? <==> exists i :: 0 <= i < |pathConstraints| && pathConstraints[i].name == name
      ensures r.Success? ==> r.value in pathConstraints && r.value.name == name
      ensures r.Failure? ==> r.error == NotFound(name)
    {
      Lookup(pathConstraints, PathConstraintName, name)
    }

    /** getMultibodyConstraint: the first recorded constraint whose info has
        that name. */
    function GetMultibodyConstraint(name: string): (r: Result<MultibodyConstraint>)
      reads this
      ensures r.Success? <==> exists i :: 0 <= i < |multibodyConstraints| && multibodyConstraints[i].info.name == name
      ensures r.Success? ==> var i := FindIndexForName(Names(multibodyConstraints, MultibodyConstraintName), name);
                             0 <= i && r.value == multibodyConstraints[i]
                             && forall j :: 0 <= j < i ==> multibodyConstraints[j].info.name != name
      ensures r.Failure? ==> r.error == NotFound(name)
    {
      var names := Names(multibodyConstraints, MultibodyConstraintName);
      assert forall i :: 0 <= i < FindIndexForName(names, name) ==> names[..FindIndexForName(names, name)][i] == names[i];
      Lookup(multibodyConstraints, MultibodyConstraintName, name)
    }

    function GetMultiplierInfos(name: string): (r: Result<seq<VariableInfo>>)
      reads this
      ensures r.Success? <==> name in multiplierInfosMap
      ensures r.Success? ==> r.value == multiplierInfosMap[name]
      ensures r.Failure? ==> r.error == NotFound(name)
    {
      if name in multiplierInfosMap then Success(multiplierInfosMap[name]) else Failure(NotFound(name))
    }

    /** applyParametersToModel: the value count must equal the parameter
        count; otherwise value i goes to parameter i, in declaration order.
        The result lists the (parameter, value) pairs handed over. */
    method ApplyParametersToModel(values: seq<real>) returns (r: Result<seq<(string, real)>>)
      ensures r.Failure? <==> |values| != |parameters|
      ensures r.Failure? ==> r.error == ArityMismatch(|parameters|, |values|)
      ensures r.Success? ==> |r.value| == |parameters|
                             && forall i :: 0 <= i < |parameters| ==> r.value[i] == (parameters[i].name, values[i])
    {
      if |values| != |parameters| {
        return Failure(ArityMismatch(|parameters|, |values|));
      }
      var applied: seq<(string, real)> := [];
      for i := 0 to |parameters|
        invariant |applied| == i
        invariant forall j :: 0 <= j < i ==> applied[j] == (parameters[j].name, values[j])
      {
        applied := applied + [(parameters[i].name, values[i])];
      }
      r := Success(applied);
    }

    /** initialize(model): check the declared names, then record every
        enabled engine constraint with its bounds vector, count its
        equations and insert its multipliers, then number the path
        constraints.  The caches are appended to, not rebuilt. */
    method Initialize(m: ModelData, infoName: nat -> string) returns (r: Outcome)
      requires Valid()
      modifies this`multibodyConstraints, this`numMultibodyConstraintEqs, this`multiplierInfosMap,
               this`pathConstraints, this`numPathConstraintEqs
      ensures Valid()
      ensures r == CheckDeclaredNames(Names(stateInfos, VarName), Names(controlInfos, VarName), m)
      ensures r.Fail? ==> multibodyConstraints == old(multibodyConstraints)
                          && numMultibodyConstraintEqs == old(numMultibodyConstraintEqs)
                          && multiplierInfosMap == old(multiplierInfosMap)
                          && pathConstraints == old(pathConstraints)
                          && numPathConstraintEqs == old(numPathConstraintEqs)
      ensures r.Pass? ==>
                var found := Discover(m.constraints, multibodyConstraintBounds, infoName);
                multibodyConstraints == old(multibodyConstraints) + found
                && numMultibodyConstraintEqs == TotalEquations(found)
                && multiplierInfosMap == InsertMultipliers(old(multiplierInfosMap), found, multiplierBounds)
                && pathConstraints == AssignOffsets(old(pathConstraints))
                && numPathConstraintEqs == TotalPathEquations(old(pathConstraints))
    {
      r := CheckModelNames(m);
      if r.Fail? {
        return;
      }
      RecordMultibodyConstraints(m.constraints, infoName);
      NumberPathConstraints();
    }

    /** The first two loops of initialize(): every state info must name a
        state variable, every control info an actuator path. */
    method CheckModelNames(m: ModelData) returns (r: Outcome)
      ensures r == CheckDeclaredNames(Names(stateInfos, VarName), Names(controlInfos, VarName), m)
    {
      var stateNames := Names(stateInfos, VarName);
      var controlNames := Names(controlInfos, VarName);
      for i := 0 to |stateInfos|
        invariant forall j :: 0 <= j < i ==> stateNames[j] in m.stateNames
      {
        if FindIndexForName(m.stateNames, stateInfos[i].name) == -1 {
          return Fail(UnknownState(stateInfos[i].name));
        }
      }
      for i := 0 to |controlInfos|
        invariant forall j :: 0 <= j < i ==> controlNames[j] in m.actuatorPaths
      {
        if FindIndexForName(m.actuatorPaths, controlInfos[i].name) == -1 {
          return Fail(UnknownControl(controlInfos[i].name));
        }
      }
      r := Pass;
    }

    /** The constraint loop of initialize(). */
    method RecordMultibodyConstraints(cs: seq<EngineConstraint>, infoName: nat -> string)
      modifies this`multibodyConstraints, this`numMultibodyConstraintEqs, this`multiplierInfosMap
      ensures var found := Discover(cs, multibodyConstraintBounds, infoName);
              multibodyConstraints == old(multibodyConstraints) + found
              && numMultibodyConstraintEqs == TotalEquations(found)
              && multiplierInfosMap == InsertMultipliers(old(multiplierInfosMap), found, multiplierBounds)
    {
      multibodyConstraints, numMultibodyConstraintEqs, multiplierInfosMap :=
        RecordConstraints(cs, multibodyConstraintBounds, multiplierBounds, infoName,
                          multibodyConstraints, multiplierInfosMap);
    }

    /** The path-constraint loop of initialize(): hand each path constraint
        the running equation offset. */
    method NumberPathConstraints()
      requires Valid()
      modifies this`pathConstraints, this`numPathConstraintEqs
      ensures Valid()
      ensures pathConstraints == AssignOffsets(old(pathConstraints))
      ensures numPathConstraintEqs == TotalPathEquations(old(pathConstraints))
    {
      var pcs := pathConstraints;
      var numbered: seq<PathConstraint> := [];
      var offset: nat := 0;
      for k := 0 to |pcs|
        invariant numbered == AssignOffsets(pcs[..k])
        invariant offset == TotalPathEquations(pcs[..k])
      {
        assert pcs[..k + 1][..k] == pcs[..k];
        numbered := numbered + [pcs[k].(offset := offset)];
        offset := offset + pcs[k].numEquations;
      }
      assert pcs[..|pcs|] == pcs;
      AssignOffsetsKeepsNames(pcs);
      pathConstraints, numPathConstraintEqs := numbered, offset;
    }
  }
}
