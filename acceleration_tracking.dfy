/** MocoAccelerationTrackingGoal (Moco/Moco/MocoGoal/MocoAccelerationTrackingGoal.cpp):
    a goal that penalizes the weighted squared difference between the linear
    accelerations of model frames and reference accelerations read from a
    table.  initializeOnModel chooses the reference table, decides which
    frames are tracked, caches the model frames and their weights and fits
    three splines per tracked frame; calcIntegrand adds up the weighted
    squared errors at one time. */
module AccelerationTracking {
  import opened Outcomes
  import opened Naming

  // ---------------------------------------------------------------------
  // Vectors
  // ---------------------------------------------------------------------

  datatype Vec3 = Vec3(x: real, y: real, z: real)

  /** Component k of a vector (0: x, 1: y, 2: z). */
  function Component(v: Vec3, k: nat): real
    requires k < 3
  {
    if k == 0 then v.x else if k == 1 then v.y else v.z
  }

  /** The vector with component k replaced by `value`. */
  function WithComponent(v: Vec3, k: nat, value: real): (r: Vec3)
    requires k < 3
    ensures Component(r, k) == value
    ensures forall j :: 0 <= j < 3 && j != k ==> Component(r, j) == Component(v, j)
  {
    if k == 0 then v.(x := value) else if k == 1 then v.(y := value) else v.(z := value)
  }

  function Minus(a: Vec3, b: Vec3): Vec3 {
    Vec3(a.x - b.x, a.y - b.y, a.z - b.z)
  }

  /** The squared Euclidean norm. */
  function NormSqr(v: Vec3): real {
    v.x * v.x + v.y * v.y + v.z * v.z
  }

  lemma NormSqrNonNegative(v: Vec3)
    ensures NormSqr(v) >= 0.0
  {
    assert v.x * v.x >= 0.0 && v.y * v.y >= 0.0 && v.z * v.z >= 0.0;
  }

  // ---------------------------------------------------------------------
  // Reference tables and splines
  // ---------------------------------------------------------------------

  /** A dependent column of a TimeSeriesTableVec3: its label and one vector
      per time. */
  datatype Column = Column(name: string, values: seq<Vec3>)

  /** TimeSeriesTableVec3: the time column and the labelled dependent columns. */
  datatype Table = Table(times: seq<real>, columns: seq<Column>)

  function ColumnLabel(c: Column): string { c.name }

  /** getColumnLabels(). */
  function Labels(t: Table): seq<string> {
    Names(t.columns, ColumnLabel)
  }

  /** getDependentColumn(label): the first column with that label. */
  function DependentColumn(t: Table, path: string): seq<Vec3>
    requires path in Labels(t)
  {
    t.columns[FindIndexForName(Labels(t), path)].values
  }

  /** The suffixes flatten() appends to a column label, one per component. */
  const Suffixes: seq<string> := ["/acceleration_x", "/acceleration_y", "/acceleration_z"]

  /** A natural cubic spline fitted to one flattened column: it is kept as
      the data it is fitted to; its evaluation is a parameter of the model. */
  datatype Spline = Spline(name: string, times: seq<real>, values: seq<real>)

  /** Component k of every vector of a column. */
  function ComponentSeries(values: seq<Vec3>, k: nat): (r: seq<real>)
    requires k < 3
    ensures |r| == |values| && forall i :: 0 <= i < |values| ==> r[i] == Component(values[i], k)
  {
    seq(|values|, i requires 0 <= i < |values| => Component(values[i], k))
  }

  /** The three splines of one column, for x, y and z. */
  function ColumnSplines(times: seq<real>, c: Column): seq<Spline> {
    [Spline(c.name + Suffixes[0], times, ComponentSeries(c.values, 0)),
     Spline(c.name + Suffixes[1], times, ComponentSeries(c.values, 1)),
     Spline(c.name + Suffixes[2], times, ComponentSeries(c.values, 2))]
  }

  /** GCVSplineSet(table.flatten(suffixes)): the table flattened column by
      column into three real columns each, one spline per flattened column. */
  function Splines(t: Table): seq<Spline> {
    SplinesOf(t.times, t.columns)
  }

  function SplinesOf(times: seq<real>, columns: seq<Column>): seq<Spline> {
    if |columns| == 0 then []
    else SplinesOf(times, columns[..|columns| - 1]) + ColumnSplines(times, columns[|columns| - 1])
  }

  /** Spline 3i+k is component k of column i, labelled with the column label
      and the k-th suffix. */
  lemma {:induction false} SplineLayout(times: seq<real>, columns: seq<Column>, i: nat, k: nat)
    requires i < |columns| && k < 3
    ensures |SplinesOf(times, columns)| == 3 * |columns|
    ensures SplinesOf(times, columns)[3 * i + k]
            == Spline(columns[i].name + Suffixes[k], times, ComponentSeries(columns[i].values, k))
  {
    var n := |columns| - 1;
    SplineCount(times, columns[..n]);
    if i < n {
      SplineLayout(times, columns[..n], i, k);
    }
  }

  lemma {:induction false} SplineCount(times: seq<real>, columns: seq<Column>)
    ensures |SplinesOf(times, columns)| == 3 * |columns|
  {
    if |columns| > 0 {
      SplineCount(times, columns[..|columns| - 1]);
    }
  }

  // ---------------------------------------------------------------------
  // Choosing the reference columns
  // ---------------------------------------------------------------------

  /** The outcome of the selection loop, the table it built and the paths it
      pushed onto the frame-path cache before it finished or threw. */
  datatype Selected = Selected(outcome: Outcome, table: Table, added: seq<string>)

  /** The selection loop: for each requested path in order, throw if the
      source has no column with that label, else push the path and append
      the source's column under it to a table with the source's times. */
  function Select(source: Table, paths: seq<string>): Selected {
    if |paths| == 0 then Selected(Pass, Table(source.times, []), [])
    else
      var n := |paths| - 1;
      var before := Select(source, paths[..n]);
      if before.outcome.Fail? then before
      else if paths[n] !in Labels(source) then Selected(Fail(MissingReferenceColumn(paths[n])), before.table, before.added)
      else Selected(Pass, Table(before.table.times, before.table.columns + [Column(paths[n], DependentColumn(source, paths[n]))]),
                    before.added + [paths[n]])
  }

  /** The selection pushes a prefix of the requested paths, each of them a
      column of the source.  It passes exactly when it pushed them all;
      otherwise it throws for the first path that is not a column. */
  lemma {:induction false} SelectSpec(source: Table, paths: seq<string>)
    ensures var r := Select(source, paths);
            && |r.added| <= |paths| && r.added == paths[..|r.added|]
            && (forall i :: 0 <= i < |r.added| ==> r.added[i] in Labels(source))
            && (r.outcome.Pass? ==> r.added == paths)
            && (r.outcome.Fail? ==>
                  && |r.added| < |paths| && r.outcome.error == MissingReferenceColumn(paths[|r.added|])
                  && paths[|r.added|] !in Labels(source))
  {
    if |paths| > 0 {
      var n := |paths| - 1;
      SelectSpec(source, paths[..n]);
      var before := Select(source, paths[..n]);
      assert paths[..n][..|before.added|] == paths[..|before.added|];
      if before.outcome.Pass? && paths[n] in Labels(source) {
        assert paths == paths[..n] + [paths[n]];
      }
    }
  }

  /** A selection that passes builds a table with the source's times whose
      columns are exactly the requested ones, in the requested order. */
  lemma {:induction false} SelectedTable(source: Table, paths: seq<string>)
    requires Select(source, paths).outcome.Pass?
    ensures var t := Select(source, paths).table;
            && t.times == source.times && Labels(t) == paths
            && forall i :: 0 <= i < |paths| ==> paths[i] in Labels(source) && t.columns[i].values == DependentColumn(source, paths[i])
  {
    if |paths| > 0 {
      var n := |paths| - 1;
      SelectedTable(source, paths[..n]);
      var before := Select(source, paths[..n]).table;
      var t := Select(source, paths).table;
      assert t.columns == before.columns + [Column(paths[n], DependentColumn(source, paths[n]))];
      assert Labels(t) == Labels(before) + [paths[n]];
      assert paths == paths[..n] + [paths[n]];
    }
  }

  /** The loop of initializeOnModel that selects the requested columns. */
  method SelectColumns(source: Table, paths: seq<string>) returns (r: Selected)
    ensures r == Select(source, paths)
  {
    var table := Table(source.times, []);
    var added: seq<string> := [];
    var labels := Labels(source);
    for i := 0 to |paths|
      invariant Select(source, paths[..i]) == Selected(Pass, table, added)
    {
      assert paths[..i + 1][..i] == paths[..i];
      var path := paths[i];
      if FindIndexForName(labels, path) == -1 {
        assert Select(source, paths[..i + 1]) == Selected(Fail(MissingReferenceColumn(path)), table, added);
        SelectPrefix(source, paths, i);
        return Selected(Fail(MissingReferenceColumn(path)), table, added);
      }
      added := added + [path];
      table := Table(table.times, table.columns + [Column(path, DependentColumn(source, path))]);
    }
    assert paths[..|paths|] == paths;
    r := Selected(Pass, table, added);
  }

  /** A selection that throws at path i ignores the paths after it. */
  lemma {:induction false} SelectPrefix(source: Table, paths: seq<string>, i: nat)
    requires i < |paths|
    requires Select(source, paths[..i + 1]).outcome.Fail?
    ensures Select(source, paths) == Select(source, paths[..i + 1])
    decreases |paths|
  {
    if i + 1 < |paths| {
      var n := |paths| - 1;
      assert paths[..n][..i + 1] == paths[..i + 1];
      SelectPrefix(source, paths[..n], i);
    } else {
      assert paths[..i + 1] == paths;
    }
  }

  /** What the goal's properties say about the reference. */
  datatype Config = Config(referenceFile: string, table: Table, framePaths: seq<string>, weightSet: map<string, real>)

  /** Where the source choice and the frame-path branch leave things: the
      outcome, the table the splines are fitted to and the frame-path cache. */
  datatype Resolved = Resolved(outcome: Outcome, table: Table, paths: seq<string>)

  /** The table the reference comes from: the file when a file name is
      given, otherwise the in-memory table. */
  function Source(cfg: Config, fileTable: Table): Table {
    if cfg.referenceFile != "" then fileTable else cfg.table
  }

  /** The reference as initializeOnModel chooses it.  With a table or a file,
      a non-empty frame_paths property replaces the cache by all column
      labels and keeps the whole table, while an empty one runs the selection
      loop over the (empty) property.  With neither, the table is empty and
      the cache is kept. */
  function Resolve(cfg: Config, fileTable: Table, paths0: seq<string>): Resolved {
    if |cfg.table.columns| != 0 || cfg.referenceFile != "" then
      var source := Source(cfg, fileTable);
      if cfg.framePaths != [] then Resolved(Pass, source, Labels(source))
      else
        var sel := Select(source, cfg.framePaths);
        Resolved(sel.outcome, sel.table, paths0 + sel.added)
    else Resolved(Pass, Table([], []), paths0)
  }

  /** The reference as the comment at the guard describes it: an empty
      frame_paths property uses every column, a non-empty one selects. */
  function IntendedResolve(cfg: Config, fileTable: Table, paths0: seq<string>): Resolved {
    if |cfg.table.columns| != 0 || cfg.referenceFile != "" then
      var source := Source(cfg, fileTable);
      if cfg.framePaths == [] then Resolved(Pass, source, Labels(source))
      else
        var sel := Select(source, cfg.framePaths);
        Resolved(sel.outcome, sel.table, paths0 + sel.added)
    else Resolved(Pass, Table([], []), paths0)
  }

  /** As written, a non-empty frame_paths property is ignored: every column
      of the source is tracked and the cache becomes its labels. */
  lemma RequestedPathsIgnored(cfg: Config, fileTable: Table, paths0: seq<string>)
    requires |cfg.table.columns| != 0 || cfg.referenceFile != ""
    requires cfg.framePaths != []
    ensures var res := Resolve(cfg, fileTable, paths0);
            res.outcome.Pass? && res.table == Source(cfg, fileTable) && res.paths == Labels(Source(cfg, fileTable))
  {
  }

  /** As written, an empty frame_paths property yields a table with the
      source's times and no column, and leaves the cache as it was. */
  lemma EmptyRequestTracksNothing(cfg: Config, fileTable: Table, paths0: seq<string>)
    requires |cfg.table.columns| != 0 || cfg.referenceFile != ""
    requires cfg.framePaths == []
    ensures var res := Resolve(cfg, fileTable, paths0);
            res.outcome.Pass? && res.table == Table(Source(cfg, fileTable).times, []) && res.paths == paths0
  {
  }

  /** The two readings differ: requesting frame "/a" of a table with columns
      "/a" and "/b" tracks both as written and only "/a" as intended. */
  lemma GuardDivergence()
    ensures var source := Table([0.0], [Column("/a", [Vec3(0.0, 0.0, 0.0)]), Column("/b", [Vec3(1.0, 1.0, 1.0)])]);
            var cfg := Config("", source, ["/a"], map[]);
            Resolve(cfg, source, []).paths == ["/a", "/b"]
            && IntendedResolve(cfg, source, []).paths == ["/a"]
  {
    var source := Table([0.0], [Column("/a", [Vec3(0.0, 0.0, 0.0)]), Column("/b", [Vec3(1.0, 1.0, 1.0)])]);
    assert Labels(source) == ["/a", "/b"];
    var cfg := Config("", source, ["/a"], map[]);
    assert ["/a"][..0] == [];
    assert Select(source, ["/a"][..0]) == Selected(Pass, Table(source.times, []), []);
  }

  /** The intended reading selects exactly the requested frames when every
      one of them is a column, and throws for the first one that is not. */
  lemma {:induction false} IntendedResolveSelects(cfg: Config, fileTable: Table, paths0: seq<string>)
    requires |cfg.table.columns| != 0 || cfg.referenceFile != ""
    ensures var source := Source(cfg, fileTable);
            var res := IntendedResolve(cfg, fileTable, paths0);
            && (cfg.framePaths == [] ==> res.outcome.Pass? && res.paths == Labels(source))
            && (cfg.framePaths != [] ==>
                  && (res.outcome.Pass? <==> forall p :: p in cfg.framePaths ==> p in Labels(source))
                  && (res.outcome.Pass? ==> Labels(res.table) == cfg.framePaths && res.paths == paths0 + cfg.framePaths))
  {
    var source := Source(cfg, fileTable);
    if cfg.framePaths != [] {
      var sel := Select(source, cfg.framePaths);
      SelectSpec(source, cfg.framePaths);
      if sel.outcome.Pass? {
        SelectedTable(source, cfg.framePaths);
      } else {
        assert cfg.framePaths[|sel.added|] !in Labels(source);
      }
    }
  }

  /** A reference file takes precedence: the in-memory table is then not
      looked at. */
  lemma FileTakesPrecedence(cfg: Config, other: Table, fileTable: Table, paths0: seq<string>)
    requires cfg.referenceFile != ""
    ensures Resolve(cfg, fileTable, paths0) == Resolve(cfg.(table := other), fileTable, paths0)
  {
  }

  // ---------------------------------------------------------------------
  // Redundant labels, frames and weights
  // ---------------------------------------------------------------------

  /** The first position whose label already occurred before it, or -1. */
  function FirstRepeat(labels: seq<string>): (j: int)
    ensures -1 <= j < |labels|
    ensures j == -1 <==> Distinct(labels)
    ensures j >= 0 ==> labels[j] in labels[..j]
  {
    if |labels| == 0 then -1
    else
      var n := |labels| - 1;
      var k := FirstRepeat(labels[..n]);
      assert labels[..n][..k + 1] == labels[..k + 1] by { }
      if k >= 0 then
        assert labels[..n][..k] == labels[..k];
        k
      else if labels[n] in labels[..n] then n
      else
        assert forall i :: 0 <= i < n ==> labels[i] == labels[..n][i];
        -1
  }

  /** checkRedundantLabels: throws when a label occurs twice. */
  function CheckRedundantLabels(labels: seq<string>): (r: Outcome)
    ensures r.Pass? <==> Distinct(labels)
    ensures r.Fail? ==> r.error.RedundantColumn?
                        && exists i, j :: 0 <= i < j < |labels| && labels[i] == labels[j] == r.error.column
  {
    var j := FirstRepeat(labels);
    if j == -1 then Pass
    else
      var i :| 0 <= i < j && labels[..j][i] == labels[j];
      assert labels[i] == labels[j];
      Fail(RedundantColumn(labels[j]))
  }

  /** A model frame, as the index of the Frame component it names. */
  type FrameHandle = nat

  /** The weight of a frame: its entry in the weight set, 1.0 otherwise. */
  function WeightFor(weightSet: map<string, real>, path: string): real {
    if path in weightSet then weightSet[path] else 1.0
  }

  /** The outcome of the caching loop and the frames and weights it appended
      before it finished or threw. */
  datatype Cached = Cached(outcome: Outcome, frames: seq<FrameHandle>, weights: seq<real>)

  /** The caching loop over the frame paths: look the frame up in the model
      (getComponent throws when there is none) and append it with its weight. */
  function CacheFrames(model: map<string, FrameHandle>, weightSet: map<string, real>, paths: seq<string>): Cached {
    if |paths| == 0 then Cached(Pass, [], [])
    else
      var n := |paths| - 1;
      var before := CacheFrames(model, weightSet, paths[..n]);
      if before.outcome.Fail? then before
      else if paths[n] !in model then Cached(Fail(UnknownFrame(paths[n])), before.frames, before.weights)
      else Cached(Pass, before.frames + [model[paths[n]]], before.weights + [WeightFor(weightSet, paths[n])])
  }

  /** Entry i of the appended frames and weights is the model frame and the
      weight of path i; the loop passes exactly when it cached every path,
      and otherwise throws for the path where it stopped, which has no frame. */
  lemma {:induction false} CacheSpec(model: map<string, FrameHandle>, weightSet: map<string, real>, paths: seq<string>)
    ensures var r := CacheFrames(model, weightSet, paths);
            && |r.frames| == |r.weights| <= |paths|
            && (forall i :: 0 <= i < |r.frames| ==>
                  paths[i] in model && r.frames[i] == model[paths[i]] && r.weights[i] == WeightFor(weightSet, paths[i]))
            && (r.outcome.Pass? <==> |r.frames| == |paths|)
            && (r.outcome.Fail? ==> r.outcome.error == UnknownFrame(paths[|r.frames|]) && paths[|r.frames|] !in model)
  {
    if |paths| > 0 {
      CacheSpec(model, weightSet, paths[..|paths| - 1]);
    }
  }

  /** Every path is either cached or, at the first one without a frame, the
      loop throws. */
  lemma {:induction false} CachePassesIffAllFramesExist(model: map<string, FrameHandle>, weightSet: map<string, real>, paths: seq<string>)
    ensures CacheFrames(model, weightSet, paths).outcome.Pass? <==> forall p :: p in paths ==> p in model
  {
    var r := CacheFrames(model, weightSet, paths);
    CacheSpec(model, weightSet, paths);
    if r.outcome.Fail? {
      assert paths[|r.frames|] in paths;
    }
  }

  // ---------------------------------------------------------------------
  // Initialization as a whole
  // ---------------------------------------------------------------------

  /** The goal's caches: the tracked frame paths, the model frames and
      weights, the reference splines and the numbers of integrals and
      outputs. */
  datatype Caches = Caches(framePaths: seq<string>, modelFrames: seq<FrameHandle>, weights: seq<real>,
                           splines: seq<Spline>, numIntegrals: nat, numOutputs: nat)

  /** initializeOnModel: choose the reference, reject redundant labels, cache
      frames and weights, fit the splines and declare one integral and one
      output.  A throw leaves whatever the steps before it changed. */
  function Initialized(cfg: Config, c: Caches, model: map<string, FrameHandle>, fileTable: Table): (Outcome, Caches) {
    var res := Resolve(cfg, fileTable, c.framePaths);
    var c1 := c.(framePaths := res.paths);
    if res.outcome.Fail? then (res.outcome, c1)
    else
      var redundant := CheckRedundantLabels(Labels(res.table));
      if redundant.Fail? then (redundant, c1)
      else
        var cached := CacheFrames(model, cfg.weightSet, res.paths);
        var c2 := c1.(modelFrames := c.modelFrames + cached.frames, weights := c.weights + cached.weights);
        if cached.outcome.Fail? then (cached.outcome, c2)
        else (Pass, c2.(splines := Splines(res.table), numIntegrals := 1, numOutputs := 1))
  }

  /** The goal declares one integral and one output once initialized. */
  lemma OneIntegralOneOutput(cfg: Config, c: Caches, model: map<string, FrameHandle>, fileTable: Table)
    ensures var (r, c') := Initialized(cfg, c, model, fileTable);
            r.Pass? ==> c'.numIntegrals == 1 && c'.numOutputs == 1
  {
  }

  /** Duplicate labels in the chosen reference make initialization throw
      before any frame or weight is cached. */
  lemma {:induction false} DuplicateLabelsFail(cfg: Config, c: Caches, model: map<string, FrameHandle>, fileTable: Table)
    requires Resolve(cfg, fileTable, c.framePaths).outcome.Pass?
    requires !Distinct(Labels(Resolve(cfg, fileTable, c.framePaths).table))
    ensures var (r, c') := Initialized(cfg, c, model, fileTable);
            r.Fail? && r.error.RedundantColumn? && c'.modelFrames == c.modelFrames && c'.weights == c.weights
  {
  }

  /** From empty caches, a successful initialization with a non-empty
      frame_paths property tracks every column of the reference: frame i is
      the model frame of column i with its configured weight (1.0 when it
      has none), and splines 3i, 3i+1 and 3i+2 are its x, y and z histories. */
  lemma {:induction false} FreshInitializationAligned(cfg: Config, model: map<string, FrameHandle>, fileTable: Table, i: nat, k: nat)
    requires |cfg.table.columns| != 0 || cfg.referenceFile != ""
    requires cfg.framePaths != []
    requires Initialized(cfg, Caches([], [], [], [], 0, 0), model, fileTable).0.Pass?
    ensures var c := Initialized(cfg, Caches([], [], [], [], 0, 0), model, fileTable).1;
            var source := Source(cfg, fileTable);
            && c.framePaths == Labels(source)
            && |c.modelFrames| == |c.weights| == |c.framePaths| && |c.splines| == 3 * |c.framePaths|
            && (i < |c.framePaths| ==>
                  c.framePaths[i] in model && c.modelFrames[i] == model[c.framePaths[i]] && c.weights[i] == WeightFor(cfg.weightSet, c.framePaths[i]))
            && (i < |c.framePaths| && k < 3 ==>
                  c.splines[3 * i + k].name == c.framePaths[i] + Suffixes[k]
                  && c.splines[3 * i + k].values == ComponentSeries(source.columns[i].values, k))
  {
    var source := Source(cfg, fileTable);
    CacheSpec(model, cfg.weightSet, Labels(source));
    SplineCount(source.times, source.columns);
    if i < |source.columns| && k < 3 {
      SplineLayout(source.times, source.columns, i, k);
    }
  }

  /** Initializing twice on one model appends the frames and weights again
      but replaces the splines: a one-column reference then leaves two
      cached frames and only three splines, so a second frame has no
      reference splines. */
  lemma ReinitializationOutrunsSplines()
    ensures var source := Table([0.0], [Column("/a", [Vec3(0.0, 0.0, 0.0)])]);
            var cfg := Config("", source, ["/a"], map[]);
            var model := map["/a" := 0];
            var (r1, c1) := Initialized(cfg, Caches([], [], [], [], 0, 0), model, source);
            var (r2, c2) := Initialized(cfg, c1, model, source);
            r1.Pass? && r2.Pass? && c2.modelFrames == [0, 0] && c2.weights == [1.0, 1.0] && |c2.splines| == 3
  {
    var source := Table([0.0], [Column("/a", [Vec3(0.0, 0.0, 0.0)])]);
    var cfg := Config("", source, ["/a"], map[]);
    var model := map["/a" := 0];
    assert Labels(source) == ["/a"];
    assert CheckRedundantLabels(["/a"]) == Pass;
    assert CacheFrames(model, map[], ["/a"]) == Cached(Pass, [0], [1.0]) by {
      assert ["/a"][..0] == [];
    }
    SplineCount(source.times, source.columns);
    var c1 := Caches(["/a"], [0], [1.0], Splines(source), 1, 1);
    assert Initialized(cfg, Caches([], [], [], [], 0, 0), model, source) == (Pass, c1);
    assert [0] + [0] == [0, 0] && [1.0] + [1.0] == [1.0, 1.0];
    assert Initialized(cfg, c1, model, source) == (Pass, c1.(modelFrames := [0, 0], weights := [1.0, 1.0]));
  }

  // ---------------------------------------------------------------------
  // The integrand
  // ---------------------------------------------------------------------

  /** The reference acceleration of frame i at time t: splines 3i, 3i+1 and
      3i+2 evaluated at t. */
  function Reference(splines: seq<Spline>, i: nat, eval: (Spline, real) -> real, t: real): (r: Vec3)
    requires 3 * i + 2 < |splines|
    ensures forall k :: 0 <= k < 3 ==> Component(r, k) == eval(splines[3 * i + k], t)
  {
    Vec3(eval(splines[3 * i], t), eval(splines[3 * i + 1], t), eval(splines[3 * i + 2], t))
  }

  /** Frame i's contribution: its weight times the squared norm of the
      difference between its model acceleration and its reference. */
  function Term(frames: seq<FrameHandle>, weights: seq<real>, splines: seq<Spline>,
                accel: FrameHandle -> Vec3, eval: (Spline, real) -> real, t: real, i: nat): real
    requires i < |frames| && i < |weights| && 3 * i + 2 < |splines|
  {
    weights[i] * NormSqr(Minus(accel(frames[i]), Reference(splines, i, eval, t)))
  }

  /** The sum of the contributions of the first n frames. */
  function Integrand(frames: seq<FrameHandle>, weights: seq<real>, splines: seq<Spline>,
                     accel: FrameHandle -> Vec3, eval: (Spline, real) -> real, t: real, n: nat): real
    requires n <= |frames| <= |weights| && 3 * |frames| <= |splines|
  {
    if n == 0 then 0.0
    else Integrand(frames, weights, splines, accel, eval, t, n - 1) + Term(frames, weights, splines, accel, eval, t, n - 1)
  }

  /** With non-negative weights the integrand is non-negative. */
  lemma {:induction false} IntegrandNonNegative(frames: seq<FrameHandle>, weights: seq<real>, splines: seq<Spline>,
                                                accel: FrameHandle -> Vec3, eval: (Spline, real) -> real, t: real, n: nat)
    requires n <= |frames| <= |weights| && 3 * |frames| <= |splines|
    requires forall i :: 0 <= i < |weights| ==> weights[i] >= 0.0
    ensures Integrand(frames, weights, splines, accel, eval, t, n) >= 0.0
  {
    if n > 0 {
      IntegrandNonNegative(frames, weights, splines, accel, eval, t, n - 1);
      NormSqrNonNegative(Minus(accel(frames[n - 1]), Reference(splines, n - 1, eval, t)));
    }
  }

  /** A frame of weight zero contributes nothing: its three reference
      splines can be replaced without changing the integrand. */
  lemma {:induction false} ZeroWeightIgnoresReference(frames: seq<FrameHandle>, weights: seq<real>, splines: seq<Spline>,
                                                      other: seq<Spline>, accel: FrameHandle -> Vec3,
                                                      eval: (Spline, real) -> real, t: real, n: nat, j: nat)
    requires n <= |frames| <= |weights| && 3 * |frames| <= |splines| == |other|
    requires j < |frames| && weights[j] == 0.0
    requires forall s :: 0 <= s < |splines| && (s < 3 * j || 3 * j + 3 <= s) ==> other[s] == splines[s]
    ensures Integrand(frames, weights, splines, accel, eval, t, n) == Integrand(frames, weights, other, accel, eval, t, n)
  {
    if n > 0 {
      ZeroWeightIgnoresReference(frames, weights, splines, other, accel, eval, t, n - 1, j);
      var i := n - 1;
      if i != j {
        assert other[3 * i] == splines[3 * i] && other[3 * i + 1] == splines[3 * i + 1] && other[3 * i + 2] == splines[3 * i + 2];
      }
    }
  }

  /** One frame of weight 2 whose acceleration is off its reference by
      (1, 0, 0) gives an integrand of 2. */
  lemma SingleFrameExample(s: Spline)
    ensures Integrand([0], [2.0], [s, s, s], _ => Vec3(1.0, 0.0, 0.0), (_, _) => 0.0, 0.0, 1) == 2.0
  {
    var accel: FrameHandle -> Vec3 := _ => Vec3(1.0, 0.0, 0.0);
    var eval: (Spline, real) -> real := (_, _) => 0.0;
    assert Reference([s, s, s], 0, eval, 0.0) == Vec3(0.0, 0.0, 0.0);
    assert Term([0], [2.0], [s, s, s], accel, eval, 0.0, 0) == 2.0;
  }

  // ---------------------------------------------------------------------
  // The goal
  // ---------------------------------------------------------------------

  class AccelerationTrackingGoal {
    // Properties
    var referenceFile: string
    var accelerationTable: Table
    var framePathsProperty: seq<string>
    var weightSet: map<string, real>
    // Caches filled by initializeOnModel
    var framePaths: seq<string>
    var modelFrames: seq<FrameHandle>
    var weights: seq<real>
    var refSplines: seq<Spline>
    var numIntegrals: nat
    var numOutputs: nat

    /** Frames and weights are cached together. */
    ghost predicate Valid()
      reads this
    {
      |modelFrames| == |weights|
    }

    function Configuration(): Config
      reads this
    {
      Config(referenceFile, accelerationTable, framePathsProperty, weightSet)
    }

    function Cache(): Caches
      reads this
    {
      Caches(framePaths, modelFrames, weights, refSplines, numIntegrals, numOutputs)
    }

    /** A goal with the given properties and empty caches. */
    constructor (file: string, table: Table, paths: seq<string>, weightsByPath: map<string, real>)
      ensures Valid()
      ensures Configuration() == Config(file, table, paths, weightsByPath)
      ensures Cache() == Caches([], [], [], [], 0, 0)
    {
      referenceFile, accelerationTable, framePathsProperty, weightSet := file, table, paths, weightsByPath;
      framePaths, modelFrames, weights, refSplines := [], [], [], [];
      numIntegrals, numOutputs := 0, 0;
    }

    /** initializeOnModelImpl.  `model` maps the paths of the model's frames
        to the frames; `fileTable` is the table the reference file holds. */
    method InitializeOnModel(model: map<string, FrameHandle>, fileTable: Table) returns (r: Outcome)
      requires Valid()
      modifies this`framePaths, this`modelFrames, this`weights, this`refSplines, this`numIntegrals, this`numOutputs
      ensures Valid()
      ensures (r, Cache()) == Initialized(old(Configuration()), old(Cache()), model, fileTable)
    {
      var table := Table([], []);
      if |accelerationTable.columns| != 0 || referenceFile != "" {
        var source := if referenceFile != "" then fileTable else accelerationTable;
        if framePathsProperty != [] {
          framePaths := Labels(source);
          table := source;
        } else {
          var sel := SelectColumns(source, framePathsProperty);
          framePaths := framePaths + sel.added;
          if sel.outcome.Fail? {
            return sel.outcome;
          }
          table := sel.table;
        }
      }
      r := CheckRedundantLabels(Labels(table));
      if r.Fail? {
        return;
      }
      r := CacheFramesAndWeights(model);
      if r.Fail? {
        return;
      }
      refSplines := Splines(table);
      numIntegrals, numOutputs := 1, 1;
    }

    /** The caching loop of initializeOnModelImpl. */
    method CacheFramesAndWeights(model: map<string, FrameHandle>) returns (r: Outcome)
      requires Valid()
      modifies this`modelFrames, this`weights
      ensures Valid()
      ensures var cached := CacheFrames(model, weightSet, framePaths);
              r == cached.outcome
              && modelFrames == old(modelFrames) + cached.frames && weights == old(weights) + cached.weights
    {
      var paths := framePaths;
      var frames: seq<FrameHandle>, ws: seq<real> := [], [];
      r := Pass;
      for i := 0 to |paths|
        invariant CacheFrames(model, weightSet, paths[..i]) == Cached(Pass, frames, ws)
      {
        assert paths[..i + 1][..i] == paths[..i];
        var path := paths[i];
        if path !in model {
          r := Fail(UnknownFrame(path));
          CachePrefix(model, weightSet, paths, i);
          break;
        }
        frames := frames + [model[path]];
        ws := ws + [WeightFor(weightSet, path)];
      }
      assert r.Pass? ==> paths[..|paths|] == paths;
      CacheSpec(model, weightSet, paths);
      modelFrames, weights := modelFrames + frames, weights + ws;
    }

    /** calcIntegrandImpl at time t, where `accel` gives each model frame's
        linear acceleration in ground and `eval` evaluates a spline. */
    method CalcIntegrand(t: real, accel: FrameHandle -> Vec3, eval: (Spline, real) -> real) returns (integrand: real)
      requires |modelFrames| == |weights| && 3 * |modelFrames| <= |refSplines|
      ensures integrand == Integrand(modelFrames, weights, refSplines, accel, eval, t, |modelFrames|)
    {
      integrand := 0.0;
      var accelerationRef := Vec3(0.0, 0.0, 0.0);
      for iframe := 0 to |modelFrames|
        invariant integrand == Integrand(modelFrames, weights, refSplines, accel, eval, t, iframe)
      {
        var accelerationModel := accel(modelFrames[iframe]);
        for ia := 0 to 3
          invariant forall k :: 0 <= k < ia ==> Component(accelerationRef, k) == eval(refSplines[3 * iframe + k], t)
        {
          accelerationRef := WithComponent(accelerationRef, ia, eval(refSplines[3 * iframe + ia], t));
        }
        assert accelerationRef == Reference(refSplines, iframe, eval, t) by {
          assert Component(accelerationRef, 0) == accelerationRef.x;
          assert Component(accelerationRef, 1) == accelerationRef.y;
          assert Component(accelerationRef, 2) == accelerationRef.z;
        }
        var error := Minus(accelerationModel, accelerationRef);
        integrand := integrand + weights[iframe] * NormSqr(error);
      }
    }
  }

  /** A caching loop that throws at path i ignores the paths after it. */
  lemma {:induction false} CachePrefix(model: map<string, FrameHandle>, weightSet: map<string, real>, paths: seq<string>, i: nat)
    requires i < |paths|
    requires CacheFrames(model, weightSet, paths[..i + 1]).outcome.Fail?
    ensures CacheFrames(model, weightSet, paths) == CacheFrames(model, weightSet, paths[..i + 1])
    decreases |paths|
  {
    if i + 1 < |paths| {
      var n := |paths| - 1;
      assert paths[..n][..i + 1] == paths[..i + 1];
      CachePrefix(model, weightSet, paths[..n], i);
    } else {
      assert paths[..i + 1] == paths;
    }
  }
}
