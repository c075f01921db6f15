/** The statistic records a WakaTime summary list is made of, the activity
    filter of the default layout and the total-seconds reduction. */
module Stats {

  /** One entry of a WakaTime summary list (a language, an editor, ...).
      `percent` is the share precomputed by WakaTime; the card never recomputes it. */
  datatype Stat = Stat(
    name: string,
    text: string,
    totalSeconds: real,
    hours: int,
    minutes: int,
    percent: real)

  /** `stat.hours || stat.minutes`: a record is active when either count is non-zero. */
  predicate IsActive(s: Stat) {
    s.hours != 0 || s.minutes != 0
  }

  /** The records the default layout keeps, in input order. */
  function Active(stats: seq<Stat>): (r: seq<Stat>)
    ensures |r| <= |stats|
    ensures forall s :: s in r <==> s in stats && IsActive(s)
  {
    if |stats| == 0 then []
    else (if IsActive(stats[0]) then [stats[0]] else []) + Active(stats[1..])
  }

  /** The filter distributes over concatenation, so it keeps input order. */
  lemma {:induction false} ActiveAppend(a: seq<Stat>, b: seq<Stat>)
    ensures Active(a + b) == Active(a) + Active(b)
  {
    if |a| == 0 {
      assert a + b == b;
    } else {
      assert (a + b)[1..] == a[1..] + b;
      ActiveAppend(a[1..], b);
    }
  }

  /** A single record survives exactly when it is active. */
  lemma ActiveSingleton(s: Stat)
    ensures Active([s]) == (if IsActive(s) then [s] else [])
  {
  }

  /** A list with no inactive record is kept whole; a list with no active record vanishes. */
  lemma {:induction false} ActiveExtremes(stats: seq<Stat>)
    ensures (forall i :: 0 <= i < |stats| ==> IsActive(stats[i])) ==> Active(stats) == stats
    ensures (forall i :: 0 <= i < |stats| ==> !IsActive(stats[i])) ==> Active(stats) == []
  {
    if |stats| > 0 {
      ActiveExtremes(stats[1..]);
      assert forall i :: 1 <= i < |stats| ==> stats[1..][i - 1] == stats[i];
      if forall i :: 0 <= i < |stats| ==> IsActive(stats[i]) {
        assert forall i :: 0 <= i < |stats[1..]| ==> IsActive(stats[1..][i]);
        assert [stats[0]] + stats[1..] == stats;
      }
      if forall i :: 0 <= i < |stats| ==> !IsActive(stats[i]) {
        assert forall i :: 0 <= i < |stats[1..]| ==> !IsActive(stats[1..][i]);
      }
    }
  }

  /** `stats.reduce((acc, curr) => acc + curr.total_seconds, 0)`. */
  function TotalSeconds(stats: seq<Stat>): (r: real)
    ensures NonNegative(stats) ==> r >= 0.0
  {
    if |stats| == 0 then 0.0
    else
      assert forall i :: 1 <= i < |stats| ==> stats[1..][i - 1] == stats[i];
      stats[0].totalSeconds + TotalSeconds(stats[1..])
  }

  /** Every record reports a non-negative duration. */
  predicate NonNegative(stats: seq<Stat>) {
    forall i :: 0 <= i < |stats| ==> stats[i].totalSeconds >= 0.0
  }
}
