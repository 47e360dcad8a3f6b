/**
 * What the totals of `main` mean: `success_count` bounds the summary,
 * the summary holds exactly the dates whose run succeeded (the last such
 * run of a repeated date wins), and a batch without an exception saves
 * results once for every success, in list order.
 */
module BatchProperties {
  import opened Grid
  import opened Pipeline
  import opened Batch

  /** The dates whose run succeeded, in list order, repeats kept. */
  function SucceededDates(dates: seq<string>, runs: seq<DateRun>): seq<string>
    requires |dates| == |runs|
  {
    if runs == [] then []
    else
      SucceededDates(dates[..|dates| - 1], runs[..|runs| - 1]) +
      (if runs[|runs| - 1].result.Succeeded? then [dates[|dates| - 1]] else [])
  }

  /** No date occurs twice. */
  predicate Distinct(dates: seq<string>)
  {
    forall i, j :: 0 <= i < j < |dates| ==> dates[i] != dates[j]
  }

  /** `success_count` counts the successful dates, repeats included. */
  lemma {:induction false} SuccessCountIsSucceededDates(dates: seq<string>, runs: seq<DateRun>)
    requires |dates| == |runs|
    ensures |SucceededDates(dates, runs)| == SuccessCount(runs)
    decreases |runs|
  {
    if runs != [] {
      SuccessCountIsSucceededDates(dates[..|dates| - 1], runs[..|runs| - 1]);
    }
  }

  /** The summary's keys are exactly the dates that succeeded. */
  lemma {:induction false} SummaryKeys(dates: seq<string>, runs: seq<DateRun>)
    requires |dates| == |runs|
    ensures forall d :: d in Summarize(dates, runs) <==> d in SucceededDates(dates, runs)
    decreases |runs|
  {
    if runs != [] {
      SummaryKeys(dates[..|dates| - 1], runs[..|runs| - 1]);
    }
  }

  /** Every entry of the summary is the series of a successful run of that date. */
  lemma {:induction false} SummaryOrigin(dates: seq<string>, runs: seq<DateRun>, d: string)
    requires |dates| == |runs| && d in Summarize(dates, runs)
    ensures var s := Summarize(dates, runs);
      exists k :: 0 <= k < |runs| && dates[k] == d && runs[k].result == Succeeded(s[d].0, s[d].1)
    decreases |runs|
  {
    var pd, pr := dates[..|dates| - 1], runs[..|runs| - 1];
    var s, last := Summarize(dates, runs), runs[|runs| - 1].result;
    if last.Succeeded? && d == dates[|dates| - 1] {
      assert s[d] == (last.lats, last.lgd);
      assert runs[|runs| - 1].result == Succeeded(s[d].0, s[d].1);
    } else {
      assert d in Summarize(pd, pr) && s[d] == Summarize(pd, pr)[d] by {
        if last.Succeeded? {
          assert s == Summarize(pd, pr)[dates[|dates| - 1] := (last.lats, last.lgd)];
        }
      }
      SummaryOrigin(pd, pr, d);
      var k :| 0 <= k < |pr| && pd[k] == d && pr[k].result == Succeeded(s[d].0, s[d].1);
      assert dates[k] == d && runs[k] == pr[k];
    }
  }

  /** A date that succeeded is in the summary with the series of its last successful run. */
  lemma {:induction false} SummaryValue(dates: seq<string>, runs: seq<DateRun>, i: nat)
    requires |dates| == |runs| && i < |runs| && runs[i].result.Succeeded?
    requires forall j :: i < j < |runs| && dates[j] == dates[i] ==> !runs[j].result.Succeeded?
    ensures dates[i] in Summarize(dates, runs)
    ensures Summarize(dates, runs)[dates[i]] == (runs[i].result.lats, runs[i].result.lgd)
    decreases |runs|
  {
    if i < |runs| - 1 {
      var pd, pr := dates[..|dates| - 1], runs[..|runs| - 1];
      assert pd[i] == dates[i] && pr[i] == runs[i];
      assert forall j :: i < j < |pr| && pd[j] == pd[i] ==> !pr[j].result.Succeeded? by {
        forall j | i < j < |pr| && pd[j] == pd[i]
          ensures !pr[j].result.Succeeded?
        {
          assert pr[j] == runs[j] && pd[j] == dates[j];
        }
      }
      SummaryValue(pd, pr, i);
    }
  }

  /** With distinct dates every success has its own entry. */
  lemma SummaryValueDistinct(dates: seq<string>, runs: seq<DateRun>, i: nat)
    requires |dates| == |runs| && Distinct(dates) && i < |runs| && runs[i].result.Succeeded?
    ensures dates[i] in Summarize(dates, runs)
    ensures Summarize(dates, runs)[dates[i]] == (runs[i].result.lats, runs[i].result.lgd)
  {
    SummaryValue(dates, runs, i);
  }

  /** Storing one entry adds at most one key, and exactly one for a new date. */
  lemma StoreAddsKey(m: Summary, d: string, v: (seq<real>, seq<real>))
    ensures |m[d := v].Keys| <= |m.Keys| + 1
    ensures d !in m ==> |m[d := v].Keys| == |m.Keys| + 1
  {
    assert m[d := v].Keys == m.Keys + {d};
  }

  /**
   * The summary never has more entries than `success_count`, and as many
   * when no date repeats.
   */
  lemma {:induction false} SummarySize(dates: seq<string>, runs: seq<DateRun>)
    requires |dates| == |runs|
    ensures |Summarize(dates, runs).Keys| <= SuccessCount(runs)
    ensures Distinct(dates) ==> |Summarize(dates, runs).Keys| == SuccessCount(runs)
    decreases |runs|
  {
    if runs != [] {
      var pd, pr := dates[..|dates| - 1], runs[..|runs| - 1];
      var d, last := dates[|dates| - 1], runs[|runs| - 1].result;
      SummarySize(pd, pr);
      var before := Summarize(pd, pr);
      if last.Succeeded? {
        assert Summarize(dates, runs) == before[d := (last.lats, last.lgd)];
        assert SuccessCount(runs) == SuccessCount(pr) + 1;
        StoreAddsKey(before, d, (last.lats, last.lgd));
        if Distinct(dates) {
          DistinctPrefix(dates);
          NotInPrefixSummary(dates, runs);
        }
      } else {
        assert Summarize(dates, runs) == before;
        assert SuccessCount(runs) == SuccessCount(pr);
      }
    }
  }

  lemma DistinctPrefix(dates: seq<string>)
    requires dates != [] && Distinct(dates)
    ensures Distinct(dates[..|dates| - 1])
  {
    var pd := dates[..|dates| - 1];
    forall i, j | 0 <= i < j < |pd|
      ensures pd[i] != pd[j]
    {
      assert pd[i] == dates[i] && pd[j] == dates[j];
    }
  }

  /** With distinct dates the last date is not yet in the summary of the runs before it. */
  lemma NotInPrefixSummary(dates: seq<string>, runs: seq<DateRun>)
    requires |dates| == |runs| && runs != [] && Distinct(dates)
    ensures dates[|dates| - 1] !in Summarize(dates[..|dates| - 1], runs[..|runs| - 1])
  {
    var pd, pr, d := dates[..|dates| - 1], runs[..|runs| - 1], dates[|dates| - 1];
    SummaryKeys(pd, pr);
    SucceededDateIndex(pd, pr, d);
    forall k | 0 <= k < |pd|
      ensures pd[k] != d
    {
      assert pd[k] == dates[k];
    }
  }

  /** A date in the success list is one of the input dates. */
  lemma {:induction false} SucceededDateIndex(dates: seq<string>, runs: seq<DateRun>, d: string)
    requires |dates| == |runs|
    ensures d in SucceededDates(dates, runs) ==> exists k :: 0 <= k < |dates| && dates[k] == d
    decreases |runs|
  {
    if runs != [] && d in SucceededDates(dates, runs) {
      var pd, pr := dates[..|dates| - 1], runs[..|runs| - 1];
      if d in SucceededDates(pd, pr) {
        SucceededDateIndex(pd, pr, d);
        var k :| 0 <= k < |pd| && pd[k] == d;
        assert dates[k] == d;
      } else {
        assert dates[|dates| - 1] == d;
      }
    }
  }

  /** A date listed twice and successful both times counts twice but is stored once, with the second series. */
  lemma RepeatedDate(dates: seq<string>, runs: seq<DateRun>)
    requires |dates| == |runs| == 2 && dates[0] == dates[1]
    requires runs[0].result.Succeeded? && runs[1].result.Succeeded?
    ensures SuccessCount(runs) == 2
    ensures |Summarize(dates, runs).Keys| == 1
    ensures Summarize(dates, runs)[dates[0]] == (runs[1].result.lats, runs[1].result.lgd)
  {
    var d1, r1 := dates[..1], runs[..1];
    assert d1[..0] == [] && r1[..0] == [] && r1[0] == runs[0];
    assert dates[..|dates| - 1] == d1 && runs[..|runs| - 1] == r1;
    assert SuccessCount(r1) == 1;
    assert Summarize(d1, r1) == map[dates[0] := (runs[0].result.lats, runs[0].result.lgd)];
    assert Summarize(dates, runs).Keys == {dates[0]};
  }

  /** The days of the `save_results` calls in a call trace, in order. */
  function SavedDays(calls: seq<Call>): seq<string>
  {
    if calls == [] then []
    else SavedDays(calls[..|calls| - 1]) + (if calls[|calls| - 1].SaveResults? then [calls[|calls| - 1].day] else [])
  }

  lemma {:induction false} SavedDaysAppend(a: seq<Call>, b: seq<Call>)
    ensures SavedDays(a + b) == SavedDays(a) + SavedDays(b)
    decreases |b|
  {
    if b != [] {
      var b' := b[..|b| - 1];
      assert (a + b)[..|a + b| - 1] == a + b' && (a + b)[|a + b| - 1] == b[|b| - 1];
      SavedDaysAppend(a, b');
      assert SavedDays(a + b) == SavedDays(a + b') + SavedDays([b[|b| - 1]]);
      assert SavedDays(b) == SavedDays(b') + SavedDays([b[|b| - 1]]);
    } else {
      assert a + b == a;
    }
  }

  /** In a trace whose i-th call is of stage i, only a sixth call can be a save. */
  lemma {:induction false} SavedDaysOfStaged(calls: seq<Call>)
    requires |calls| <= 6
    requires forall i :: 0 <= i < |calls| ==> StageOf(calls[i]) == i
    ensures |calls| == 6 ==> calls[5].SaveResults?
    ensures SavedDays(calls) == if |calls| == 6 then [calls[5].day] else []
    decreases |calls|
  {
    if calls != [] {
      var prefix := calls[..|calls| - 1];
      assert forall i :: 0 <= i < |prefix| ==> StageOf(prefix[i]) == i by {
        forall i | 0 <= i < |prefix|
          ensures StageOf(prefix[i]) == i
        {
          assert prefix[i] == calls[i];
        }
      }
      SavedDaysOfStaged(prefix);
      assert StageOf(calls[|calls| - 1]) == |calls| - 1;
    }
  }

  /** Only a success or a failed save reaches the sixth call. */
  lemma CallsMadeBound(r: DateResult)
    ensures CallsMade(r) <= 6
    ensures CallsMade(r) == 6 <==> r.Succeeded? || r == Crashed(SaveRaised)
  {
  }

  /** A run that does not raise saves results exactly when it succeeds, and then for its own date. */
  lemma SavedDaysOfTrace(r: DateRun, date: string)
    requires |r.calls| == CallsMade(r.result)
    requires forall i :: 0 <= i < |r.calls| ==> StageOf(r.calls[i]) == i
    requires |r.calls| == 6 ==> r.calls[5].SaveResults? && r.calls[5].day == date
    ensures !r.result.Crashed? ==> SavedDays(r.calls) == if r.result.Succeeded? then [date] else []
  {
    CallsMadeBound(r.result);
    SavedDaysOfStaged(r.calls);
  }

  /** A date's run saves results for that date exactly when it succeeds, unless saving itself raised. */
  lemma SavedDaysOfRun(c: Collaborators, cfg: Config, date: string, bg: Array)
    ensures var r := ProcessSingleDate(c, cfg, date, bg);
      !r.result.Crashed? ==> SavedDays(r.calls) == if r.result.Succeeded? then [date] else []
  {
    SavedDaysOfTrace(ProcessSingleDate(c, cfg, date, bg), date);
  }

  /**
   * Over dates that were processed without an exception, `save_results` is
   * called once per successful date, in list order, so as many times as
   * `success_count`.
   */
  lemma {:induction false} SavedDaysOfBatch(c: Collaborators, cfg: Config, bg: Array, dates: seq<string>, k: nat)
    requires k <= |dates| && NoCrash(Runs(c, cfg, bg, dates)[..k])
    ensures var runs := Runs(c, cfg, bg, dates)[..k];
      SavedDays(AllCalls(runs)) == SucceededDates(dates[..k], runs) &&
      |SavedDays(AllCalls(runs))| == SuccessCount(runs)
    decreases k
  {
    var all := Runs(c, cfg, bg, dates);
    var runs := all[..k];
    if k > 0 {
      var prefix := runs[..k - 1];
      assert prefix == all[..k - 1] && dates[..k][..k - 1] == dates[..k - 1];
      SavedDaysOfBatch(c, cfg, bg, dates, k - 1);
      RunsAt(c, cfg, bg, dates, k - 1);
      SavedDaysOfRun(c, cfg, dates[k - 1], bg);
      SavedDaysAppend(AllCalls(prefix), runs[k - 1].calls);
    }
    SuccessCountIsSucceededDates(dates[..k], runs);
  }
}
