/**
 * The composite keys under which the collaborators return summed variables:
 * the daily key `"+".join(vars)` and the background key `"mean_" + "+".join(vars)`.
 */
module CompositeKey {
  import opened Outcomes

  /** `config.get('variable_names', ['GWS_tavg'])`. */
  function VariableNames(configured: Option<seq<string>>): (vars: seq<string>)
    ensures configured.Some? ==> vars == configured.value
    ensures configured.None? ==> vars == ["GWS_tavg"]
  {
    match configured
    case Some(names) => names
    case None => ["GWS_tavg"]
  }

  /** The total number of characters in the names. */
  function NamesLength(names: seq<string>): nat
  {
    if names == [] then 0 else |names[0]| + NamesLength(names[1..])
  }

  /**
   * `"+".join(names)`: every character of every name, and one `+` between
   * each pair of neighbours; nothing is dropped or merged.
   */
  function Join(names: seq<string>): (r: string)
    ensures names == [] ==> r == ""
    ensures names != [] ==> |r| == NamesLength(names) + |names| - 1
  {
    if |names| == 0 then ""
    else if |names| == 1 then names[0]
    else names[0] + "+" + Join(names[1..])
  }

  predicate NoPlus(s: string) { forall i :: 0 <= i < |s| ==> s[i] != '+' }

  /** The position of the first '+' in `s`, if any. */
  function FirstPlus(s: string): (r: Option<nat>)
    ensures r.None? ==> NoPlus(s)
    ensures r.Some? ==> r.value < |s| && s[r.value] == '+' && NoPlus(s[..r.value])
  {
    if s == [] then None
    else if s[0] == '+' then Some(0)
    else
      match FirstPlus(s[1..])
      case None => None
      case Some(i) => Some(i + 1)
  }

  /** `s.split("+")`: the pieces between the separators, at least one of them. */
  function Split(s: string): (parts: seq<string>)
    ensures |parts| >= 1
    ensures forall i :: 0 <= i < |parts| ==> NoPlus(parts[i])
    decreases |s|
  {
    match FirstPlus(s)
    case None => [s]
    case Some(i) => [s[..i]] + Split(s[i + 1..])
  }

  /**
   * The key under which the reader returns the per-date sum (line 60): one
   * variable is its own key; `SplitJoin` shows the key splits back into the list.
   */
  function DailyKey(vars: seq<string>): (key: string)
    ensures |vars| == 1 ==> key == vars[0]
    ensures vars != [] ==> |key| == NamesLength(vars) + |vars| - 1
  {
    Join(vars)
  }

  const BackgroundPrefix: string := "mean_"

  /** The key under which the range mean is returned (line 208). */
  function BackgroundKey(vars: seq<string>): (key: string)
    ensures |key| == |DailyKey(vars)| + 5 && key[..5] == "mean_" && key[5..] == DailyKey(vars)
  {
    BackgroundPrefix + Join(vars)
  }

  /** Joining is order-preserving: the key of a concatenation is the two keys joined by '+'. */
  lemma {:induction false} JoinAppend(a: seq<string>, b: seq<string>)
    requires |a| > 0 && |b| > 0
    ensures Join(a + b) == Join(a) + "+" + Join(b)
    decreases |a|
  {
    if |a| == 1 {
      assert (a + b)[1..] == b;
    } else {
      assert (a + b)[1..] == a[1..] + b;
      JoinAppend(a[1..], b);
    }
  }

  lemma FirstPlusAfter(x: string, y: string)
    requires NoPlus(x)
    ensures FirstPlus(x + "+" + y) == Some(|x|)
    decreases |x|
  {
    if x != [] {
      assert (x + "+" + y)[1..] == x[1..] + "+" + y;
      FirstPlusAfter(x[1..], y);
    }
  }

  /** Splitting a key at '+' recovers the variable list, when no name contains '+'. */
  lemma {:induction false} SplitJoin(names: seq<string>)
    requires |names| > 0
    requires forall i :: 0 <= i < |names| ==> NoPlus(names[i])
    ensures Split(Join(names)) == names
    decreases |names|
  {
    if |names| == 1 {
      assert FirstPlus(names[0]) == None;
    } else {
      var head, key := names[0], Join(names[1..]);
      FirstPlusAfter(head, key);
      var s := head + "+" + key;
      assert s[..|head|] == head && s[|head| + 1..] == key;
      SplitJoin(names[1..]);
    }
  }

  /** Two '+'-free variable lists share a daily key only if they are the same list: no reordering, no deduplication. */
  lemma DailyKeyInjective(v: seq<string>, w: seq<string>)
    requires |v| > 0 && |w| > 0
    requires forall i :: 0 <= i < |v| ==> NoPlus(v[i])
    requires forall i :: 0 <= i < |w| ==> NoPlus(w[i])
    ensures DailyKey(v) == DailyKey(w) <==> v == w
  {
    SplitJoin(v);
    SplitJoin(w);
  }

  /** The background key is determined by, and determines, the daily key. */
  lemma BackgroundKeyMatchesDaily(v: seq<string>, w: seq<string>)
    ensures BackgroundKey(v) == BackgroundKey(w) <==> DailyKey(v) == DailyKey(w)
  {
    if BackgroundKey(v) == BackgroundKey(w) {
      assert BackgroundKey(v)[5..] == BackgroundKey(w)[5..];
    }
  }

  /** The keys of the documented configurations. */
  lemma KeyExamples()
    ensures DailyKey(["TWS_tavg"]) == "TWS_tavg"
    ensures DailyKey(["GWS_tavg", "SoilMoist_RZ_tavg"]) == "GWS_tavg+SoilMoist_RZ_tavg"
    ensures DailyKey(VariableNames(None)) == "GWS_tavg"
  {
    var two := ["GWS_tavg", "SoilMoist_RZ_tavg"];
    assert two[1..] == ["SoilMoist_RZ_tavg"];
    assert Join(two) == "GWS_tavg" + "+" + "SoilMoist_RZ_tavg";
  }

  /** The background key of the two-variable configuration. */
  lemma BackgroundKeyExample()
    ensures BackgroundKey(["GWS_tavg", "SoilMoist_RZ_tavg"]) == BackgroundPrefix + "GWS_tavg+SoilMoist_RZ_tavg"
  {
    KeyExamples();
  }
}
