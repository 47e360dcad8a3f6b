/**
 * The batch driver in `main`: the background mean is computed once, and
 * aborts the run if it fails; then every date is processed in list order,
 * counting successes and recording the successful dates. An exception that
 * escapes `process_single_date` ends the loop there.
 */
module Batch {
  import opened Outcomes
  import opened CompositeKey
  import opened Grid
  import opened Pipeline

  /** The background collaborator call of lines 199-204. */
  function BackgroundCall(cfg: Config): Call
  {
    MeanByRange(cfg.gldasDir, cfg.backgroundStart, cfg.backgroundEnd, VariableNames(cfg.variableNames))
  }

  /**
   * Lines 197-220: the squeezed background grid, or `None` where the
   * computation raises or its result lacks the `"mean_"` key (the source's
   * own `KeyError`), both of which end `main`.
   */
  function Background(c: Collaborators, cfg: Config): (r: Option<Array>)
    ensures var vars := VariableNames(cfg.variableNames);
      var out := c.meanByRange(cfg.gldasDir, cfg.backgroundStart, cfg.backgroundEnd, vars);
      (r.Some? <==> out.Returned? && BackgroundKey(vars) in out.value) &&
      (r.Some? ==> r.value == Squeeze(out.value[BackgroundKey(vars)]))
  {
    var vars := VariableNames(cfg.variableNames);
    match c.meanByRange(cfg.gldasDir, cfg.backgroundStart, cfg.backgroundEnd, vars)
    case Raised => None
    case Returned(data) =>
      var key := BackgroundKey(vars);
      if key !in data then None else Some(Squeeze(data[key]))
  }

  datatype BatchStatus = BackgroundFailed | Completed | CrashedAt(index: nat, reason: CrashReason)

  /** `results_summary`: date to (latitudes, LGD series). */
  type Summary = map<string, (seq<real>, seq<real>)>

  /** The run of every date against the shared background. */
  function Runs(c: Collaborators, cfg: Config, bg: Array, dates: seq<string>): (runs: seq<DateRun>)
    ensures |runs| == |dates|
  {
    seq(|dates|, j requires 0 <= j < |dates| => ProcessSingleDate(c, cfg, dates[j], bg))
  }

  lemma RunsAt(c: Collaborators, cfg: Config, bg: Array, dates: seq<string>, j: nat)
    requires j < |dates|
    ensures Runs(c, cfg, bg, dates)[j] == ProcessSingleDate(c, cfg, dates[j], bg)
  {
  }

  /** The runs a per-date step produces, one per date. */
  function RunsOf(step: string -> DateRun, dates: seq<string>): (runs: seq<DateRun>)
    ensures |runs| == |dates|
  {
    seq(|dates|, j requires 0 <= j < |dates| => step(dates[j]))
  }

  /** A step that is `process_single_date` against one background produces the batch's runs. */
  lemma RunsOfStep(c: Collaborators, cfg: Config, bg: Array, dates: seq<string>, step: string -> DateRun)
    requires forall d :: step(d) == ProcessSingleDate(c, cfg, d, bg)
    ensures RunsOf(step, dates) == Runs(c, cfg, bg, dates)
  {
    forall j | 0 <= j < |dates|
      ensures RunsOf(step, dates)[j] == Runs(c, cfg, bg, dates)[j]
    {
      RunsAt(c, cfg, bg, dates, j);
    }
  }

  /** No run raised. */
  predicate NoCrash(runs: seq<DateRun>)
  {
    runs == [] || (NoCrash(runs[..|runs| - 1]) && !runs[|runs| - 1].result.Crashed?)
  }

  lemma {:induction false} NoCrashAt(runs: seq<DateRun>, k: nat)
    requires NoCrash(runs) && k < |runs|
    ensures !runs[k].result.Crashed?
    decreases |runs|
  {
    if k < |runs| - 1 {
      NoCrashAt(runs[..|runs| - 1], k);
    }
  }

  /** `NoCrash` holds exactly when no run in the list raised. */
  lemma {:induction false} NoCrashAll(runs: seq<DateRun>)
    ensures NoCrash(runs) <==> forall k :: 0 <= k < |runs| ==> !runs[k].result.Crashed?
    decreases |runs|
  {
    if runs != [] {
      var prefix := runs[..|runs| - 1];
      NoCrashAll(prefix);
      assert forall k :: 0 <= k < |prefix| ==> prefix[k] == runs[k];
    }
  }

  /** How many dates the loop gets through: all of them, or up to and including the first that raises. */
  function Processed(runs: seq<DateRun>): (n: nat)
    ensures n <= |runs|
    ensures NoCrash(runs) ==> n == |runs|
    ensures !NoCrash(runs) ==> 0 < n && runs[n - 1].result.Crashed? && NoCrash(runs[..n - 1])
  {
    if runs == [] then 0
    else
      var prefix := runs[..|runs| - 1];
      if NoCrash(prefix) then |runs|
      else
        var n := Processed(prefix);
        assert runs[n - 1] == prefix[n - 1] && runs[..n - 1] == prefix[..n - 1];
        n
  }

  /** `success_count` after the given runs. */
  function SuccessCount(runs: seq<DateRun>): (n: nat)
    ensures n <= |runs|
    ensures (forall k :: 0 <= k < |runs| ==> !runs[k].result.Succeeded?) ==> n == 0
  {
    if runs == [] then 0
    else SuccessCount(runs[..|runs| - 1]) + (if runs[|runs| - 1].result.Succeeded? then 1 else 0)
  }

  /** `results_summary` after the given runs: each success stored under its date. */
  function Summarize(dates: seq<string>, runs: seq<DateRun>): (s: Summary)
    requires |dates| == |runs|
    ensures |s| <= |runs|
  {
    if runs == [] then map[]
    else
      var before := Summarize(dates[..|dates| - 1], runs[..|runs| - 1]);
      match runs[|runs| - 1].result
      case Succeeded(lats, lgd) =>
        assert before[dates[|dates| - 1] := (lats, lgd)].Keys == before.Keys + {dates[|dates| - 1]};
        before[dates[|dates| - 1] := (lats, lgd)]
      case _ => before
  }

  /** The collaborator calls of the given runs, in order. */
  function AllCalls(runs: seq<DateRun>): (calls: seq<Call>)
    ensures calls == [] <==> forall k :: 0 <= k < |runs| ==> runs[k].calls == []
  {
    if runs == [] then [] else AllCalls(runs[..|runs| - 1]) + runs[|runs| - 1].calls
  }

  lemma {:induction false} CrashIsFirst(runs: seq<DateRun>, i: nat)
    requires i < |runs| && NoCrash(runs[..i]) && runs[i].result.Crashed?
    ensures Processed(runs) == i + 1
    decreases |runs|
  {
    var prefix := runs[..|runs| - 1];
    if |runs| == i + 1 {
      assert prefix == runs[..i];
    } else {
      assert prefix[..i] == runs[..i] && prefix[i] == runs[i];
      CrashIsFirst(prefix, i);
      if NoCrash(prefix) {
        NoCrashAt(prefix, i);
      }
    }
  }

  /** At the first run that raises, the loop stops with the totals of the runs before it. */
  lemma CrashExit(dates: seq<string>, runs: seq<DateRun>, i: nat)
    requires |dates| == |runs| && i < |runs| && NoCrash(runs[..i]) && runs[i].result.Crashed?
    ensures Processed(runs) == i + 1 && !NoCrash(runs)
    ensures SuccessCount(runs[..i + 1]) == SuccessCount(runs[..i])
    ensures Summarize(dates[..i + 1], runs[..i + 1]) == Summarize(dates[..i], runs[..i])
  {
    CrashIsFirst(runs, i);
    Extend(dates, runs, i);
  }

  /** One more run extends the count, the summary, the calls and the crash-free prefix as the loop body does. */
  lemma Extend(dates: seq<string>, runs: seq<DateRun>, i: nat)
    requires |dates| == |runs| && i < |runs|
    ensures SuccessCount(runs[..i + 1]) == SuccessCount(runs[..i]) + (if runs[i].result.Succeeded? then 1 else 0)
    ensures Summarize(dates[..i + 1], runs[..i + 1]) ==
      (if runs[i].result.Succeeded? then Summarize(dates[..i], runs[..i])[dates[i] := (runs[i].result.lats, runs[i].result.lgd)]
       else Summarize(dates[..i], runs[..i]))
    ensures AllCalls(runs[..i + 1]) == AllCalls(runs[..i]) + runs[i].calls
    ensures NoCrash(runs[..i]) && !runs[i].result.Crashed? ==> NoCrash(runs[..i + 1])
  {
    assert runs[..i + 1][..i] == runs[..i] && dates[..i + 1][..i] == dates[..i];
  }

  /**
   * `main` (lines 188-231): the background step, then the batch loop. The
   * result is stated against the runs of the individual dates.
   */
  method RunBatch(c: Collaborators, cfg: Config, dates: seq<string>)
    returns (status: BatchStatus, successCount: nat, summary: Summary, calls: seq<Call>)
    ensures Background(c, cfg).None? ==>
      status == BackgroundFailed && successCount == 0 && summary == map[] && calls == [BackgroundCall(cfg)]
    ensures Background(c, cfg).Some? ==>
      var runs := Runs(c, cfg, Background(c, cfg).value, dates);
      var n := Processed(runs);
      status != BackgroundFailed &&
      successCount == SuccessCount(runs[..n]) &&
      summary == Summarize(dates[..n], runs[..n]) &&
      calls == [BackgroundCall(cfg)] + AllCalls(runs[..n]) &&
      (status == Completed <==> NoCrash(runs)) &&
      (status.CrashedAt? ==> status.index + 1 == n && runs[status.index].result == Crashed(status.reason))
  {
    var bg := Background(c, cfg);
    if bg.None? {
      return BackgroundFailed, 0, map[], [BackgroundCall(cfg)];
    }
    var step := d => ProcessSingleDate(c, cfg, d, bg.value);
    var dateCalls;
    status, successCount, summary, dateCalls := ProcessDates(step, dates);
    RunsOfStep(c, cfg, bg.value, dates, step);
    calls := [BackgroundCall(cfg)] + dateCalls;
  }

  /**
   * The loop of lines 223-231 over the dates, in list order; `step` is the
   * call of line 228, `process_single_date` with the calculator, the
   * background grid and the configuration fixed.
   */
  method ProcessDates(step: string -> DateRun, dates: seq<string>)
    returns (status: BatchStatus, successCount: nat, summary: Summary, calls: seq<Call>)
    ensures var runs := RunsOf(step, dates);
      var n := Processed(runs);
      status != BackgroundFailed &&
      successCount == SuccessCount(runs[..n]) &&
      summary == Summarize(dates[..n], runs[..n]) &&
      calls == AllCalls(runs[..n]) &&
      (status == Completed <==> NoCrash(runs)) &&
      (status.CrashedAt? ==> status.index + 1 == n && runs[status.index].result == Crashed(status.reason))
  {
    ghost var runs := RunsOf(step, dates);
    status, successCount, summary, calls := Completed, 0, map[], [];
    var i := 0;
    while i < |dates|
      invariant 0 <= i <= |dates|
      invariant NoCrash(runs[..i])
      invariant successCount == SuccessCount(runs[..i])
      invariant summary == Summarize(dates[..i], runs[..i])
      invariant calls == AllCalls(runs[..i])
    {
      var run := step(dates[i]);
      assert run == runs[i];
      Extend(dates, runs, i);
      calls := calls + run.calls;
      if run.result.Crashed? {
        // the exception propagates out of main
        CrashExit(dates, runs, i);
        return CrashedAt(i, run.result.crash), successCount, summary, calls;
      }
      if run.result.Succeeded? {
        successCount := successCount + 1;
        summary := summary[dates[i] := (run.result.lats, run.result.lgd)];
      }
      i := i + 1;
    }
    assert runs[..i] == runs && dates[..i] == dates;
  }
}
