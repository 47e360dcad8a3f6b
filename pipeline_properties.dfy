/**
 * The early-exit chain of `process_single_date`, one lemma per exit, and
 * what reaches the integrator and the result file on the way through.
 */
module PipelineProperties {
  import opened Outcomes
  import opened GldasFilename
  import opened CompositeKey
  import opened Grid
  import opened Track
  import opened Pipeline

  /** A missing file is checked before the reader is invoked, and skips the date. */
  lemma MissingFileSkips(c: Collaborators, cfg: Config, date: string, bg: Array, path: string)
    requires GetGldasFilename(cfg.gldasDir, date) == Some(path)
    requires !c.fileExists(path)
    ensures ProcessSingleDate(c, cfg, date, bg) == DateRun(Skipped(FileMissing), [CheckFile(path)])
  {
  }

  /** A reader exception skips the date; nothing after the read is called. */
  lemma ReadErrorSkips(c: Collaborators, cfg: Config, date: string, bg: Array, path: string)
    requires GetGldasFilename(cfg.gldasDir, date) == Some(path) && c.fileExists(path)
    requires c.readVars(path, VariableNames(cfg.variableNames)).Raised?
    ensures ProcessSingleDate(c, cfg, date, bg) ==
      DateRun(Skipped(ReadFailed), [CheckFile(path), ReadVars(path, VariableNames(cfg.variableNames))])
  {
  }

  /** A dataset without the composite key skips the date before the orbits are loaded. */
  lemma MissingKeySkips(c: Collaborators, cfg: Config, date: string, bg: Array, path: string, ds: Dataset)
    requires GetGldasFilename(cfg.gldasDir, date) == Some(path) && c.fileExists(path)
    requires c.readVars(path, VariableNames(cfg.variableNames)) == Returned(ds)
    requires "lat" in ds && "lon" in ds && DailyKey(VariableNames(cfg.variableNames)) !in ds
    ensures ProcessSingleDate(c, cfg, date, bg) ==
      DateRun(Skipped(KeyMissing), [CheckFile(path), ReadVars(path, VariableNames(cfg.variableNames))])
  {
  }

  /** A daily grid whose squeezed shape differs from the background's skips the date before the orbits are loaded. */
  lemma ShapeMismatchSkips(c: Collaborators, cfg: Config, date: string, bg: Array, path: string, ds: Dataset)
    requires GetGldasFilename(cfg.gldasDir, date) == Some(path) && c.fileExists(path)
    requires c.readVars(path, VariableNames(cfg.variableNames)) == Returned(ds)
    requires "lat" in ds && "lon" in ds && DailyKey(VariableNames(cfg.variableNames)) in ds
    requires Squeeze(ds[DailyKey(VariableNames(cfg.variableNames))]).shape != bg.shape
    ensures ProcessSingleDate(c, cfg, date, bg) ==
      DateRun(Skipped(ShapeMismatch), [CheckFile(path), ReadVars(path, VariableNames(cfg.variableNames))])
  {
  }

  /** The coordinate arrays are read before the key check and outside any `try`: without them the call raises. */
  lemma MissingCoordinatesCrash(c: Collaborators, cfg: Config, date: string, bg: Array, path: string, ds: Dataset)
    requires GetGldasFilename(cfg.gldasDir, date) == Some(path) && c.fileExists(path)
    requires c.readVars(path, VariableNames(cfg.variableNames)) == Returned(ds)
    requires "lat" !in ds
    ensures ProcessSingleDate(c, cfg, date, bg).result == Crashed(MissingCoordinates)
  {
  }

  /**
   * The grid stage once the reader has produced a usable daily grid:
   * coordinates and the daily key present, the squeezed grid of the
   * background's shape, and `field` its flattened anomaly.
   */
  predicate GridReady(c: Collaborators, cfg: Config, date: string, bg: Array, path: string, ds: Dataset, field: FlatField)
  {
    var vars := VariableNames(cfg.variableNames);
    GetGldasFilename(cfg.gldasDir, date) == Some(path) && c.fileExists(path) &&
    c.readVars(path, vars) == Returned(ds) &&
    "lat" in ds && "lon" in ds && DailyKey(vars) in ds &&
    Squeeze(ds[DailyKey(vars)]).shape == bg.shape &&
    field == Flatten(Anomaly(Squeeze(ds[DailyKey(vars)]), bg), ds["lat"].data, ds["lon"].data)
  }

  /** The orbits loaded, and sampled with a non-zero stride into non-empty tracks of equal length. */
  predicate OrbitsReady(c: Collaborators, cfg: Config, date: string, orbits: (seq<Point>, seq<Point>), sampled: (seq<Point>, seq<Point>))
  {
    c.loadOrbit(date) == Returned(orbits) && cfg.orbitInterval != 0 &&
    sampled == (Slice(orbits.0, cfg.orbitInterval).value, Slice(orbits.1, cfg.orbitInterval).value) &&
    0 < |sampled.0| == |sampled.1|
  }

  /** At least two indices, all in range, and `tracks` both satellites taken at them. */
  predicate PassSelected(sampled: (seq<Point>, seq<Point>), idx: seq<int>, tracks: (seq<Point>, seq<Point>))
  {
    |sampled.0| == |sampled.1| && |idx| >= 2 && AllInRange(idx, |sampled.0|) &&
    tracks == (Take(sampled.0, idx), Take(sampled.1, idx))
  }

  /** An orbit loader exception skips the date; the filter is not called. */
  lemma OrbitErrorSkips(c: Collaborators, cfg: Config, date: string, bg: Array, path: string, ds: Dataset, field: FlatField)
    requires GridReady(c, cfg, date, bg, path, ds, field)
    requires c.loadOrbit(date).Raised?
    ensures ProcessSingleDate(c, cfg, date, bg) ==
      DateRun(Skipped(OrbitFailed), [CheckFile(path), ReadVars(path, VariableNames(cfg.variableNames)), LoadOrbit(date)])
  {
  }

  /** An absent or empty index set skips the date after the filter call; the integrator is not called. */
  lemma NoValidPassSkips(c: Collaborators, cfg: Config, date: string, bg: Array, path: string, ds: Dataset, field: FlatField,
                         orbits: (seq<Point>, seq<Point>), sampled: (seq<Point>, seq<Point>), indices: Option<seq<int>>)
    requires GridReady(c, cfg, date, bg, path, ds, field)
    requires OrbitsReady(c, cfg, date, orbits, sampled)
    requires c.filterRegion(Probe(sampled.0, sampled.1)) == Returned(indices)
    requires indices == None || indices == Some([])
    ensures ProcessSingleDate(c, cfg, date, bg) ==
      DateRun(Skipped(NoValidPass), [CheckFile(path), ReadVars(path, VariableNames(cfg.variableNames)), LoadOrbit(date),
                                     FilterRegion(Probe(sampled.0, sampled.1))])
  {
    var reading := [CheckFile(path), ReadVars(path, VariableNames(cfg.variableNames))];
    ReadsThrough(c, cfg, date, bg, path, ds);
    FieldGoes(c, cfg, date, bg, path, ds, field);
    assert AfterRead(c, cfg, date, bg, ds, reading) == TrackStages(c, cfg, date, field, reading);
    OrbitsGo(c, cfg, date, orbits, sampled);
  }

  /** The region filter is called outside any `try`: its exception ends the date, with the filter as the last call. */
  lemma FilterErrorCrashes(c: Collaborators, cfg: Config, date: string, bg: Array, path: string, ds: Dataset, field: FlatField,
                           orbits: (seq<Point>, seq<Point>), sampled: (seq<Point>, seq<Point>))
    requires GridReady(c, cfg, date, bg, path, ds, field)
    requires OrbitsReady(c, cfg, date, orbits, sampled)
    requires c.filterRegion(Probe(sampled.0, sampled.1)).Raised?
    ensures ProcessSingleDate(c, cfg, date, bg) ==
      DateRun(Crashed(FilterRaised), [CheckFile(path), ReadVars(path, VariableNames(cfg.variableNames)), LoadOrbit(date),
                                      FilterRegion(Probe(sampled.0, sampled.1))])
  {
    var reading := [CheckFile(path), ReadVars(path, VariableNames(cfg.variableNames))];
    ReadsThrough(c, cfg, date, bg, path, ds);
    FieldGoes(c, cfg, date, bg, path, ds, field);
    assert AfterRead(c, cfg, date, bg, ds, reading) == TrackStages(c, cfg, date, field, reading);
    StagesFilterRaised(c, cfg, date, field, reading, orbits, sampled);
    var probe := Probe(sampled.0, sampled.1);
    assert reading + [LoadOrbit(date), FilterRegion(probe)] ==
      [CheckFile(path), ReadVars(path, VariableNames(cfg.variableNames)), LoadOrbit(date), FilterRegion(probe)];
  }

  /** With the orbits sampled, a raising filter ends the track stages right after its call. */
  lemma StagesFilterRaised(c: Collaborators, cfg: Config, date: string, field: FlatField, reading: seq<Call>,
                           orbits: (seq<Point>, seq<Point>), sampled: (seq<Point>, seq<Point>))
    requires |reading| == 2
    requires OrbitsReady(c, cfg, date, orbits, sampled)
    requires c.filterRegion(Probe(sampled.0, sampled.1)).Raised?
    ensures TrackStages(c, cfg, date, field, reading) ==
      DateRun(Crashed(FilterRaised), reading + [LoadOrbit(date), FilterRegion(Probe(sampled.0, sampled.1))])
  {
    OrbitsGo(c, cfg, date, orbits, sampled);
    assert reading + [LoadOrbit(date)] + [FilterRegion(Probe(sampled.0, sampled.1))] ==
      reading + [LoadOrbit(date), FilterRegion(Probe(sampled.0, sampled.1))];
  }

  /** A date whose grid, orbits and pass are all usable reaches the integrator after the four earlier calls. */
  lemma ReachesIntegrator(c: Collaborators, cfg: Config, date: string, bg: Array, path: string, ds: Dataset, field: FlatField,
                          orbits: (seq<Point>, seq<Point>), sampled: (seq<Point>, seq<Point>), idx: seq<int>,
                          tracks: (seq<Point>, seq<Point>))
    requires GridReady(c, cfg, date, bg, path, ds, field)
    requires OrbitsReady(c, cfg, date, orbits, sampled)
    requires c.filterRegion(Probe(sampled.0, sampled.1)) == Returned(Some(idx))
    requires PassSelected(sampled, idx, tracks)
    ensures ProcessSingleDate(c, cfg, date, bg) ==
      IntegrateAndSave(c, cfg, date, field, tracks.0, tracks.1,
        [CheckFile(path), ReadVars(path, VariableNames(cfg.variableNames)), LoadOrbit(date), FilterRegion(Probe(sampled.0, sampled.1))])
  {
    var vars := VariableNames(cfg.variableNames);
    var reading := [CheckFile(path), ReadVars(path, vars)];
    ReadsThrough(c, cfg, date, bg, path, ds);
    FieldGoes(c, cfg, date, bg, path, ds, field);
    assert AfterRead(c, cfg, date, bg, ds, reading) == TrackStages(c, cfg, date, field, reading);
    StagesReach(c, cfg, date, field, reading, orbits, sampled, idx, tracks);
    var probe := Probe(sampled.0, sampled.1);
    assert reading + [LoadOrbit(date), FilterRegion(probe)] == [CheckFile(path), ReadVars(path, vars), LoadOrbit(date), FilterRegion(probe)];
  }

  /** With the file present and read, the date's run is what follows the read. */
  lemma ReadsThrough(c: Collaborators, cfg: Config, date: string, bg: Array, path: string, ds: Dataset)
    requires GetGldasFilename(cfg.gldasDir, date) == Some(path) && c.fileExists(path)
    requires c.readVars(path, VariableNames(cfg.variableNames)) == Returned(ds)
    ensures ProcessSingleDate(c, cfg, date, bg) ==
      AfterRead(c, cfg, date, bg, ds, [CheckFile(path), ReadVars(path, VariableNames(cfg.variableNames))])
  {
  }

  /** With a usable pass, the track stages end in the integrator. */
  lemma StagesReach(c: Collaborators, cfg: Config, date: string, field: FlatField, reading: seq<Call>,
                    orbits: (seq<Point>, seq<Point>), sampled: (seq<Point>, seq<Point>), idx: seq<int>,
                    tracks: (seq<Point>, seq<Point>))
    requires |reading| == 2
    requires OrbitsReady(c, cfg, date, orbits, sampled)
    requires c.filterRegion(Probe(sampled.0, sampled.1)) == Returned(Some(idx))
    requires PassSelected(sampled, idx, tracks)
    ensures TrackStages(c, cfg, date, field, reading) ==
      IntegrateAndSave(c, cfg, date, field, tracks.0, tracks.1, reading + [LoadOrbit(date), FilterRegion(Probe(sampled.0, sampled.1))])
  {
    OrbitsGo(c, cfg, date, orbits, sampled);
    PassGoes(sampled, idx, tracks);
    assert reading + [LoadOrbit(date)] + [FilterRegion(Probe(sampled.0, sampled.1))] ==
      reading + [LoadOrbit(date), FilterRegion(Probe(sampled.0, sampled.1))];
  }

  lemma FieldGoes(c: Collaborators, cfg: Config, date: string, bg: Array, path: string, ds: Dataset, field: FlatField)
    requires GridReady(c, cfg, date, bg, path, ds, field)
    ensures DailyField(ds, VariableNames(cfg.variableNames), bg) == Go(field)
  {
  }

  lemma OrbitsGo(c: Collaborators, cfg: Config, date: string, orbits: (seq<Point>, seq<Point>), sampled: (seq<Point>, seq<Point>))
    requires OrbitsReady(c, cfg, date, orbits, sampled)
    ensures SampleOrbits(orbits.0, orbits.1, cfg.orbitInterval) == Go(sampled)
  {
  }

  lemma PassGoes(sampled: (seq<Point>, seq<Point>), idx: seq<int>, tracks: (seq<Point>, seq<Point>))
    requires PassSelected(sampled, idx, tracks)
    ensures SelectPass(sampled.0, sampled.1, Some(idx)) == Go(tracks)
  {
  }

  /** The integrator is called outside any `try`: its exception is not turned into a skip. */
  lemma ComputeErrorCrashes(c: Collaborators, cfg: Config, date: string, bg: Array, path: string, ds: Dataset, field: FlatField,
                            orbits: (seq<Point>, seq<Point>), sampled: (seq<Point>, seq<Point>), idx: seq<int>,
                            tracks: (seq<Point>, seq<Point>))
    requires GridReady(c, cfg, date, bg, path, ds, field)
    requires OrbitsReady(c, cfg, date, orbits, sampled)
    requires c.filterRegion(Probe(sampled.0, sampled.1)) == Returned(Some(idx))
    requires PassSelected(sampled, idx, tracks)
    requires c.computeLgd(TrackFields(tracks.0, tracks.1), Lats(tracks.0), Lons(tracks.0),
                          field.h, field.lat, field.lon, cfg.cutoffDeg).Raised?
    ensures ProcessSingleDate(c, cfg, date, bg).result == Crashed(ComputeRaised)
  {
    ReachesIntegrator(c, cfg, date, bg, path, ds, field, orbits, sampled, idx, tracks);
  }

  /** `save_results` is called outside any `try` as well: a failed save ends the date with an exception. */
  lemma SaveErrorCrashes(c: Collaborators, cfg: Config, date: string, bg: Array, path: string, ds: Dataset, field: FlatField,
                         orbits: (seq<Point>, seq<Point>), sampled: (seq<Point>, seq<Point>), idx: seq<int>,
                         tracks: (seq<Point>, seq<Point>), lgd: seq<real>)
    requires GridReady(c, cfg, date, bg, path, ds, field)
    requires OrbitsReady(c, cfg, date, orbits, sampled)
    requires c.filterRegion(Probe(sampled.0, sampled.1)) == Returned(Some(idx))
    requires PassSelected(sampled, idx, tracks)
    requires c.computeLgd(TrackFields(tracks.0, tracks.1), Lats(tracks.0), Lons(tracks.0),
                          field.h, field.lat, field.lon, cfg.cutoffDeg) == Returned(lgd)
    requires c.saveResults(cfg.outputDir, date, Lats(tracks.0), Lons(tracks.0), lgd, Heights(tracks.0)).Raised?
    ensures var r := ProcessSingleDate(c, cfg, date, bg);
      r.result == Crashed(SaveRaised) &&
      r.calls[5] == SaveResults(cfg.outputDir, date, Lats(tracks.0), Lons(tracks.0), lgd, Heights(tracks.0))
  {
    ReachesIntegrator(c, cfg, date, bg, path, ds, field, orbits, sampled, idx, tracks);
  }

  /**
   * The whole way through. The field handed to the integrator is the
   * flattened anomaly of the squeezed daily grid with the flattened
   * meshgrid; the calculator holds both selected tracks; what is saved and
   * returned are S1's latitudes and the series the integrator produced.
   */
  lemma SuccessPath(c: Collaborators, cfg: Config, date: string, bg: Array, path: string, ds: Dataset, field: FlatField,
                    orbits: (seq<Point>, seq<Point>), sampled: (seq<Point>, seq<Point>), idx: seq<int>,
                    tracks: (seq<Point>, seq<Point>), lgd: seq<real>)
    requires GridReady(c, cfg, date, bg, path, ds, field)
    requires OrbitsReady(c, cfg, date, orbits, sampled)
    requires c.filterRegion(Probe(sampled.0, sampled.1)) == Returned(Some(idx))
    requires PassSelected(sampled, idx, tracks)
    requires c.computeLgd(TrackFields(tracks.0, tracks.1), Lats(tracks.0), Lons(tracks.0),
                          field.h, field.lat, field.lon, cfg.cutoffDeg) == Returned(lgd)
    requires c.saveResults(cfg.outputDir, date, Lats(tracks.0), Lons(tracks.0), lgd, Heights(tracks.0)).Returned?
    ensures var r := ProcessSingleDate(c, cfg, date, bg);
      r.result == Succeeded(Lats(tracks.0), lgd) &&
      r.calls == [CheckFile(path), ReadVars(path, VariableNames(cfg.variableNames)), LoadOrbit(date),
                  FilterRegion(Probe(sampled.0, sampled.1)),
                  ComputeLgd(TrackFields(tracks.0, tracks.1), Lats(tracks.0), Lons(tracks.0),
                             field.h, field.lat, field.lon, cfg.cutoffDeg),
                  SaveResults(cfg.outputDir, date, Lats(tracks.0), Lons(tracks.0), lgd, Heights(tracks.0))]
    ensures |Lats(tracks.0)| == |Heights(tracks.0)| == |tracks.1| == |idx| >= 2
    ensures forall m :: 0 <= m < |idx| ==>
      tracks.0[m] == sampled.0[Epoch(idx[m], |sampled.0|)] && tracks.1[m] == sampled.1[Epoch(idx[m], |sampled.0|)]
  {
    ReachesIntegrator(c, cfg, date, bg, path, ds, field, orbits, sampled, idx, tracks);
  }

  /**
   * With a positive stride, point m of the S1 track handed to the
   * integrator is the raw S1 sample at epoch e * interval, and the S2
   * point paired with it comes from the raw S2 sample at the same epoch.
   */
  lemma TrackPointOrigin(orbits: (seq<Point>, seq<Point>), interval: int, sampled: (seq<Point>, seq<Point>),
                         idx: seq<int>, tracks: (seq<Point>, seq<Point>), m: nat)
    requires interval > 0
    requires SampleOrbits(orbits.0, orbits.1, interval) == Go(sampled)
    requires SelectPass(sampled.0, sampled.1, Some(idx)) == Go(tracks)
    requires m < |idx|
    ensures var e := Epoch(idx[m], |sampled.0|);
      e * interval < |orbits.0| && e * interval < |orbits.1| &&
      tracks.0[m] == orbits.0[e * interval] && tracks.1[m] == orbits.1[e * interval]
  {
    var e := Epoch(idx[m], |sampled.0|);
    SliceForward(orbits.0, interval, e);
    SliceForward(orbits.1, interval, e);
  }
}
