/**
 * `process_single_date`: the chain of steps for one date, each of which can
 * end the date early. The collaborators it calls (file existence, the
 * GLDAS reader, the orbit loader, the region filter, the LGD integrator and
 * the result writer) are given as functions that return or raise. An
 * exception the source catches becomes a skip; one it does not catch
 * becomes a crash, which also ends the batch.
 */
module Pipeline {
  import opened Outcomes
  import opened GldasFilename
  import opened CompositeKey
  import opened Grid
  import opened Track

  /** What the reader returns: arrays keyed by name, with `lat` and `lon` among them. */
  type Dataset = map<string, Array>

  /**
   * The six track fields lines 120-121 set on the shared calculator before
   * `compute_track_lgd` runs; the integrator, a method of that object, may
   * read them besides its explicit arguments.
   */
  datatype CalcTracks = CalcTracks(
    s1Lon: seq<real>, s1Lat: seq<real>, s1H: seq<real>,
    s2Lon: seq<real>, s2Lat: seq<real>, s2H: seq<real>)

  /** Lines 120-121: the columns of both selected tracks, point by point. */
  function TrackFields(t1: seq<Point>, t2: seq<Point>): (f: CalcTracks)
    ensures |f.s1Lon| == |f.s1Lat| == |f.s1H| == |t1| && |f.s2Lon| == |f.s2Lat| == |f.s2H| == |t2|
    ensures forall m :: 0 <= m < |t1| ==> Point(f.s1Lon[m], f.s1Lat[m], f.s1H[m]) == t1[m]
    ensures forall m :: 0 <= m < |t2| ==> Point(f.s2Lon[m], f.s2Lat[m], f.s2H[m]) == t2[m]
  {
    CalcTracks(Lons(t1), Lats(t1), Heights(t1), Lons(t2), Lats(t2), Heights(t2))
  }

  /**
   * The collaborators of the per-date pipeline and of the background step.
   * Each is a function of its arguments: the same call gives the same
   * outcome throughout a batch.
   */
  datatype Collaborators = Collaborators(
    fileExists: string -> bool,
    readVars: (string, seq<string>) -> Outcome<Dataset>,
    meanByRange: (string, string, string, seq<string>) -> Outcome<Dataset>,
    loadOrbit: string -> Outcome<(seq<Point>, seq<Point>)>,
    filterRegion: seq<(real, real)> -> Outcome<Option<seq<int>>>,
    computeLgd: (CalcTracks, seq<real>, seq<real>, seq<real>, seq<real>, seq<real>, real) -> Outcome<seq<real>>,
    saveResults: (string, string, seq<real>, seq<real>, seq<real>, seq<real>) -> Outcome<()>)

  /**
   * The configuration entries this file reads. The orbit workspace, the
   * region bounds, the latitude band and the direction are passed only to
   * the loader and the filter, and are taken to be bound inside them.
   */
  datatype Config = Config(
    gldasDir: string,
    outputDir: string,
    variableNames: Option<seq<string>>,
    backgroundStart: string,
    backgroundEnd: string,
    orbitInterval: int,
    cutoffDeg: real)

  /** A call made into a collaborator, with its arguments. */
  datatype Call =
    | MeanByRange(dir: string, startDate: string, endDate: string, vars: seq<string>)
    | CheckFile(path: string)
    | ReadVars(file: string, names: seq<string>)
    | LoadOrbit(date: string)
    | FilterRegion(probe: seq<(real, real)>)
    | ComputeLgd(calcTracks: CalcTracks, trackLat: seq<real>, trackLon: seq<real>, fieldH: seq<real>, fieldLat: seq<real>, fieldLon: seq<real>, cutoffDeg: real)
    | SaveResults(outputDir: string, day: string, lat: seq<real>, lon: seq<real>, lgd: seq<real>, alt: seq<real>)

  /** The position of a per-date call in the pipeline. */
  function StageOf(c: Call): nat
  {
    match c
    case CheckFile(_) => 0
    case ReadVars(_, _) => 1
    case LoadOrbit(_) => 2
    case FilterRegion(_) => 3
    case ComputeLgd(_, _, _, _, _, _, _) => 4
    case SaveResults(_, _, _, _, _, _) => 5
    case MeanByRange(_, _, _, _) => 6
  }

  /** The conditions under which the source returns `(None, None)`. */
  datatype SkipReason = FileMissing | ReadFailed | KeyMissing | ShapeMismatch | OrbitFailed | NoValidPass

  /** The exceptions the source lets escape from `process_single_date`. */
  datatype CrashReason =
    | BadDate              // strptime rejects the date string (line 11)
    | MissingCoordinates   // ds['lat'] or ds['lon'] absent (line 55)
    | ZeroStride           // [::0] (lines 96-97)
    | EmptyOrbit           // [:, 0] on an empty position array (line 100)
    | TrackLengthMismatch  // column_stack of unequal lengths (line 100)
    | FilterRaised         // the region filter raised (line 102)
    | IndexOutOfRange      // an index outside the sampled track (lines 116-117)
    | SingleIndex          // squeeze of one index leaves a 1-D track, [:, 0] raises (line 120)
    | ComputeRaised        // compute_track_lgd raised (line 125)
    | SaveRaised           // save_results raised (line 134)

  datatype DateResult =
    | Skipped(reason: SkipReason)
    | Succeeded(lats: seq<real>, lgd: seq<real>)
    | Crashed(crash: CrashReason)

  /** The outcome of one date and the collaborator calls made on the way, in order. */
  datatype DateRun = DateRun(result: DateResult, calls: seq<Call>)

  /** How many collaborator calls precede each outcome: where in the chain it happens. */
  function CallsMade(r: DateResult): nat
  {
    match r
    case Skipped(reason) =>
      (match reason
       case FileMissing => 1
       case ReadFailed => 2
       case KeyMissing => 2
       case ShapeMismatch => 2
       case OrbitFailed => 3
       case NoValidPass => 4)
    case Succeeded(_, _) => 6
    case Crashed(crash) =>
      (match crash
       case BadDate => 0
       case MissingCoordinates => 2
       case ZeroStride => 3
       case EmptyOrbit => 3
       case TrackLengthMismatch => 3
       case FilterRaised => 4
       case IndexOutOfRange => 4
       case SingleIndex => 4
       case ComputeRaised => 5
       case SaveRaised => 6)
  }

  /** Either the date ends here with a result, or the pipeline goes on with a value. */
  datatype Step<T> = Stop(result: DateResult) | Go(value: T)

  /**
   * Lines 55-82: the coordinate grids, the daily key lookup, the shape check
   * against the background and the flattened anomaly.
   */
  function DailyField(ds: Dataset, vars: seq<string>, bg: Array): (r: Step<FlatField>)
    ensures r == Stop(Crashed(MissingCoordinates)) <==> "lat" !in ds || "lon" !in ds
    ensures r == Stop(Skipped(KeyMissing)) <==> "lat" in ds && "lon" in ds && DailyKey(vars) !in ds
    ensures r == Stop(Skipped(ShapeMismatch)) <==>
      "lat" in ds && "lon" in ds && DailyKey(vars) in ds && Squeeze(ds[DailyKey(vars)]).shape != bg.shape
    ensures r.Stop? ==> r.result in {Crashed(MissingCoordinates), Skipped(KeyMissing), Skipped(ShapeMismatch)}
    ensures r.Go? ==>
      var daily := Squeeze(ds[DailyKey(vars)]);
      daily.shape == bg.shape &&
      r.value == Flatten(Anomaly(daily, bg), ds["lat"].data, ds["lon"].data)
  {
    if "lat" !in ds || "lon" !in ds then Stop(Crashed(MissingCoordinates))
    else
      var key := DailyKey(vars);
      if key !in ds then Stop(Skipped(KeyMissing))
      else
        var daily := Squeeze(ds[key]);
        if daily.shape != bg.shape then Stop(Skipped(ShapeMismatch))
        else Go(Flatten(Anomaly(daily, bg), ds["lat"].data, ds["lon"].data))
  }

  /**
   * Lines 95-100: stride decimation of both satellites and the checks that
   * building the probe array imposes (a non-zero step, non-empty tracks
   * of equal length).
   */
  function SampleOrbits(o1: seq<Point>, o2: seq<Point>, interval: int): (r: Step<(seq<Point>, seq<Point>)>)
    ensures r == Stop(Crashed(ZeroStride)) <==> interval == 0
    ensures r == Stop(Crashed(EmptyOrbit)) <==>
      interval != 0 && (|Slice(o1, interval).value| == 0 || |Slice(o2, interval).value| == 0)
    ensures r == Stop(Crashed(TrackLengthMismatch)) <==>
      interval != 0 && 0 < |Slice(o1, interval).value| && 0 < |Slice(o2, interval).value| &&
      |Slice(o1, interval).value| != |Slice(o2, interval).value|
    ensures r.Go? <==> interval != 0 && 0 < |Slice(o1, interval).value| == |Slice(o2, interval).value|
    ensures r.Stop? ==> r.result.Crashed? && CallsMade(r.result) == 3
    ensures r.Go? ==> (interval != 0 &&
      r.value.0 == Slice(o1, interval).value && r.value.1 == Slice(o2, interval).value &&
      0 < |r.value.0| == |r.value.1|)
  {
    match Slice(o1, interval)
    case None => Stop(Crashed(ZeroStride))
    case Some(s1) =>
      var s2 := Slice(o2, interval).value;
      if |s1| == 0 || |s2| == 0 then Stop(Crashed(EmptyOrbit))
      else if |s1| != |s2| then Stop(Crashed(TrackLengthMismatch))
      else Go((s1, s2))
  }

  /**
   * Lines 111-121: an absent or empty index set skips the date; otherwise
   * both sampled satellites are selected with the same indices.
   */
  function SelectPass(s1: seq<Point>, s2: seq<Point>, indices: Option<seq<int>>): (r: Step<(seq<Point>, seq<Point>)>)
    requires |s1| == |s2|
    ensures r == Stop(Skipped(NoValidPass)) <==> indices.None? || indices.value == []
    ensures r == Stop(Crashed(IndexOutOfRange)) <==>
      indices.Some? && indices.value != [] && !AllInRange(indices.value, |s1|)
    ensures r == Stop(Crashed(SingleIndex)) <==>
      indices.Some? && |indices.value| == 1 && AllInRange(indices.value, |s1|)
    ensures r.Go? <==> indices.Some? && |indices.value| >= 2 && AllInRange(indices.value, |s1|)
    ensures r.Stop? ==> CallsMade(r.result) == 4
    ensures r.Go? ==> indices.Some? && |indices.value| >= 2 && SelectTracks(s1, s2, indices.value) == Some(r.value)
  {
    match indices
    case None => Stop(Skipped(NoValidPass))
    case Some(idx) =>
      if |idx| == 0 then Stop(Skipped(NoValidPass))
      else
        match SelectTracks(s1, s2, idx)
        case None => Stop(Crashed(IndexOutOfRange))
        case Some(tracks) =>
          if |idx| == 1 then Stop(Crashed(SingleIndex)) else Go(tracks)
  }

  /**
   * Lines 123-136: integrate along S1, save, and return S1's latitudes with
   * the series. Neither call is inside a `try`, so an exception from either
   * escapes.
   */
  function IntegrateAndSave(c: Collaborators, cfg: Config, date: string, field: FlatField,
                            t1: seq<Point>, t2: seq<Point>, calls: seq<Call>): (r: DateRun)
    requires |calls| == 4
    ensures |r.calls| == CallsMade(r.result) >= 5 && r.calls[..4] == calls
    ensures r.calls[4] == ComputeLgd(TrackFields(t1, t2), Lats(t1), Lons(t1), field.h, field.lat, field.lon, cfg.cutoffDeg)
    ensures |r.calls| == 6 ==> r.calls[5].SaveResults? && r.calls[5].outputDir == cfg.outputDir && r.calls[5].day == date
    ensures var out := c.computeLgd(TrackFields(t1, t2), Lats(t1), Lons(t1), field.h, field.lat, field.lon, cfg.cutoffDeg);
      (r.result == Crashed(ComputeRaised) <==> out.Raised?) &&
      (r.result == Crashed(SaveRaised) <==>
        out.Returned? && c.saveResults(cfg.outputDir, date, Lats(t1), Lons(t1), out.value, Heights(t1)).Raised?) &&
      (r.result.Succeeded? <==>
        out.Returned? && c.saveResults(cfg.outputDir, date, Lats(t1), Lons(t1), out.value, Heights(t1)).Returned?) &&
      (r.result.Succeeded? ==>
        r.result == Succeeded(Lats(t1), out.value) &&
        r.calls[5] == SaveResults(cfg.outputDir, date, Lats(t1), Lons(t1), out.value, Heights(t1)))
  {
    var lat, lon, alt := Lats(t1), Lons(t1), Heights(t1);
    var fields := TrackFields(t1, t2);
    var computing := calls + [ComputeLgd(fields, lat, lon, field.h, field.lat, field.lon, cfg.cutoffDeg)];
    match c.computeLgd(fields, lat, lon, field.h, field.lat, field.lon, cfg.cutoffDeg)
    case Raised => DateRun(Crashed(ComputeRaised), computing)
    case Returned(lgd) =>
      var saving := computing + [SaveResults(cfg.outputDir, date, lat, lon, lgd, alt)];
      match c.saveResults(cfg.outputDir, date, lat, lon, lgd, alt)
      case Raised => DateRun(Crashed(SaveRaised), saving)
      case Returned(_) => DateRun(Succeeded(lat, lgd), saving)
  }

  /** Lines 84-136: load the orbits, sample, probe the region, select and integrate. */
  function TrackStages(c: Collaborators, cfg: Config, date: string, field: FlatField, calls: seq<Call>): (r: DateRun)
    requires |calls| == 2
    ensures |r.calls| == CallsMade(r.result) >= 3 && r.calls[..2] == calls
    ensures r.calls[2] == LoadOrbit(date)
    ensures forall i :: 2 <= i < |r.calls| ==> StageOf(r.calls[i]) == i
    ensures |r.calls| == 6 ==> r.calls[5].SaveResults? && r.calls[5].day == date && r.calls[5].outputDir == cfg.outputDir
    ensures r.result.Succeeded? ==> (|r.result.lats| >= 2 && |r.calls| == 6 &&
      r.calls[4].ComputeLgd? && r.calls[4].trackLat == r.result.lats &&
      r.calls[4].fieldH == field.h && r.calls[4].fieldLat == field.lat && r.calls[4].fieldLon == field.lon &&
      r.calls[5].SaveResults? && r.calls[5].lat == r.result.lats && r.calls[5].lgd == r.result.lgd)
  {
    var loading := calls + [LoadOrbit(date)];
    match c.loadOrbit(date)
    case Raised => DateRun(Skipped(OrbitFailed), loading)
    case Returned(orbits) =>
      match SampleOrbits(orbits.0, orbits.1, cfg.orbitInterval)
      case Stop(result) => DateRun(result, loading)
      case Go(sampled) =>
        var probe := Probe(sampled.0, sampled.1);
        var filtering := loading + [FilterRegion(probe)];
        match c.filterRegion(probe)
        case Raised => DateRun(Crashed(FilterRaised), filtering)
        case Returned(indices) =>
          match SelectPass(sampled.0, sampled.1, indices)
          case Stop(result) => DateRun(result, filtering)
          case Go(tracks) => IntegrateAndSave(c, cfg, date, field, tracks.0, tracks.1, filtering)
  }

  /**
   * `process_single_date(calc, date_str, bg_mean_grid, config)`. The calls
   * made are a prefix of the pipeline's stage order, as long as the stage
   * at which the date ended: no later step is reached after an early exit.
   */
  function ProcessSingleDate(c: Collaborators, cfg: Config, date: string, bg: Array): (r: DateRun)
    ensures |r.calls| == CallsMade(r.result)
    ensures forall i :: 0 <= i < |r.calls| ==> StageOf(r.calls[i]) == i
    ensures r.result == Crashed(BadDate) <==> GetGldasFilename(cfg.gldasDir, date).None?
    ensures |r.calls| >= 1 ==> r.calls[0] == CheckFile(GetGldasFilename(cfg.gldasDir, date).value)
    ensures |r.calls| >= 2 ==> r.calls[1] == ReadVars(GetGldasFilename(cfg.gldasDir, date).value, VariableNames(cfg.variableNames))
    ensures |r.calls| >= 3 ==> r.calls[2] == LoadOrbit(date)
    ensures |r.calls| == 6 ==> r.calls[5].SaveResults? && r.calls[5].day == date && r.calls[5].outputDir == cfg.outputDir
    ensures r.result.Succeeded? ==> (|r.result.lats| >= 2 && |r.calls| == 6 &&
      r.calls[4].ComputeLgd? && r.calls[4].trackLat == r.result.lats &&
      r.calls[5].SaveResults? && r.calls[5].lat == r.result.lats && r.calls[5].lgd == r.result.lgd)
  {
    match GetGldasFilename(cfg.gldasDir, date)
    case None => DateRun(Crashed(BadDate), [])
    case Some(path) => ProcessFile(c, cfg, date, bg, path)
  }

  /** Lines 40-136, once the file name is known. */
  function ProcessFile(c: Collaborators, cfg: Config, date: string, bg: Array, path: string): (r: DateRun)
    ensures |r.calls| == CallsMade(r.result) >= 1
    ensures forall i :: 0 <= i < |r.calls| ==> StageOf(r.calls[i]) == i
    ensures r.calls[0] == CheckFile(path)
    ensures |r.calls| >= 2 ==> r.calls[1] == ReadVars(path, VariableNames(cfg.variableNames))
    ensures |r.calls| >= 3 ==> r.calls[2] == LoadOrbit(date)
    ensures |r.calls| == 6 ==> r.calls[5].SaveResults? && r.calls[5].day == date && r.calls[5].outputDir == cfg.outputDir
    ensures r.result.Succeeded? ==> (|r.result.lats| >= 2 && |r.calls| == 6 &&
      r.calls[4].ComputeLgd? && r.calls[4].trackLat == r.result.lats &&
      r.calls[5].SaveResults? && r.calls[5].lat == r.result.lats && r.calls[5].lgd == r.result.lgd)
  {
    if !c.fileExists(path) then DateRun(Skipped(FileMissing), [CheckFile(path)])
    else
      var vars := VariableNames(cfg.variableNames);
      var reading := [CheckFile(path), ReadVars(path, vars)];
      match c.readVars(path, vars)
      case Raised => DateRun(Skipped(ReadFailed), reading)
      case Returned(ds) =>
        var r := AfterRead(c, cfg, date, bg, ds, reading);
        assert r.calls[..2] == reading;
        assert r.calls[0] == reading[0] && r.calls[1] == reading[1];
        r
  }

  /** Lines 54-136, once the reader has returned. */
  function AfterRead(c: Collaborators, cfg: Config, date: string, bg: Array, ds: Dataset, calls: seq<Call>): (r: DateRun)
    requires |calls| == 2 && calls[1].ReadVars?
    ensures |r.calls| == CallsMade(r.result) >= 2 && r.calls[..2] == calls
    ensures forall i :: 2 <= i < |r.calls| ==> StageOf(r.calls[i]) == i
    ensures |r.calls| >= 3 ==> r.calls[2] == LoadOrbit(date)
    ensures |r.calls| == 6 ==> r.calls[5].SaveResults? && r.calls[5].day == date && r.calls[5].outputDir == cfg.outputDir
    ensures r.result.Succeeded? ==> (|r.result.lats| >= 2 && |r.calls| == 6 &&
      r.calls[4].ComputeLgd? && r.calls[4].trackLat == r.result.lats &&
      r.calls[5].SaveResults? && r.calls[5].lat == r.result.lats && r.calls[5].lgd == r.result.lgd)
  {
    match DailyField(ds, calls[1].names, bg)
    case Stop(result) => DateRun(result, calls)
    case Go(field) => TrackStages(c, cfg, date, field, calls)
  }
}
