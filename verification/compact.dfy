/** The compact layout: records packed end to end as proportional bar
    segments across a track, plus a two-column label grid below it. */
module Compact {
  import opened Stats
  import opened Colors
  import opened Wrappers

  /** One `<rect>` of the composite bar. */
  datatype Segment = Segment(x: real, width: real, color: string)

  /** One entry of the label grid: a colour dot, the record name and its text. */
  datatype Label = Label(x: real, y: real, dot: string, name: string, text: string)

  /** The record's proportional share of the track, before any boost: it stands to
      the track as the record's duration stands to the total. */
  function Nominal(s: Stat, total: real, track: real): (w: real)
    requires total != 0.0
    ensures total > 0.0 && track >= 0.0 && s.totalSeconds >= 0.0 ==> w >= 0.0
  {
    s.totalSeconds / total * track
  }

  /** A share stands to the track as the record's duration stands to the total. */
  lemma NominalProportional(s: Stat, total: real, track: real)
    requires total != 0.0
    ensures Nominal(s, total, track) * total == s.totalSeconds * track
  {
  }

  /** The drawn width: a share narrower than 10 is widened by 10 so that it stays visible. */
  function Boost(w: real): (d: real)
    ensures d >= w
    ensures d <= w + 10.0
    ensures d == w <==> w >= 10.0
    ensures w < 10.0 ==> d == w + 10.0
    ensures w >= 0.0 ==> d >= 10.0
  {
    if w < 10.0 then w + 10.0 else w
  }

  /** Sum of the nominal (unboosted) widths of `stats`. */
  function SumNominal(stats: seq<Stat>, total: real, track: real): (sum: real)
    requires |stats| > 0 ==> total != 0.0
  {
    if |stats| == 0 then 0.0
    else Nominal(stats[0], total, track) + SumNominal(stats[1..], total, track)
  }

  /** The `stats.map` at wakatime-card.js:136-161 together with its running
      `progressOffset`, which starts at `offset` and advances by each nominal width. */
  function Pack(stats: seq<Stat>, table: ColorTable, total: real, track: real, offset: real): (segs: seq<Segment>)
    requires |stats| > 0 ==> total != 0.0
    ensures |segs| == |stats|
    ensures forall i :: 0 <= i < |stats| ==>
      segs[i].x == offset + SumNominal(stats[..i], total, track) &&
      segs[i].width == Boost(Nominal(stats[i], total, track)) &&
      segs[i].color == ColorOr(table, stats[i].name, Gray)
  {
    if |stats| == 0 then []
    else
      var w := Nominal(stats[0], total, track);
      var rest := Pack(stats[1..], table, total, track, offset + w);
      assert forall i :: 1 <= i < |stats| ==> stats[..i][1..] == stats[1..][..i - 1];
      [Segment(offset, Boost(w), ColorOr(table, stats[0].name, Gray))] + rest
  }

  /** One grid entry (`createCompactLangNode`). */
  function LangNode(s: Stat, table: ColorTable, x: real, y: real): (l: Label)
    ensures l.x == x && l.y == y
    ensures l.name == s.name && l.text == s.text
    ensures l.dot == ColorOr(table, s.name, Gray)
  {
    Label(x, y, ColorOr(table, s.name, Gray), s.name, s.text)
  }

  /** The position rule of `createLanguageTextNode`, called with x = 0 and y = 25. */
  function LabelAt(s: Stat, table: ColorTable, index: nat): (l: Label)
    ensures l.x == (if index % 2 == 0 then 0.0 else 150.0)
    ensures l.y == 25.0 + 25.0 * (index / 2) as real
    ensures l.name == s.name && l.text == s.text && l.dot == ColorOr(table, s.name, Gray)
  {
    assert index == 2 * (index / 2) + index % 2;
    if index % 2 == 0 then LangNode(s, table, 0.0, 12.5 * index as real + 25.0)
    else LangNode(s, table, 150.0, 12.5 + 12.5 * index as real)
  }

  /** The label grid: even records in the left column, odd ones in the right,
      each pair on one row, rows 25 apart starting at y = 25. */
  function Labels(stats: seq<Stat>, table: ColorTable): (ls: seq<Label>)
    ensures |ls| == |stats|
    ensures forall i :: 0 <= i < |ls| ==>
      ls[i].x == (if i % 2 == 0 then 0.0 else 150.0) &&
      ls[i].y == 25.0 + 25.0 * (i / 2) as real &&
      ls[i].name == stats[i].name && ls[i].text == stats[i].text &&
      ls[i].dot == ColorOr(table, stats[i].name, Gray)
  {
    seq(|stats|, i requires 0 <= i < |stats| => LabelAt(stats[i], table, i))
  }

  /** Scaling by `track / total` distributes over a sum of durations. */
  lemma ShareDistributes(a: real, b: real, total: real, track: real)
    requires total != 0.0
    ensures a / total * track + b / total * track == (a + b) / total * track
  {
  }

  /** The nominal widths add up to the records' share of the track. */
  lemma {:induction false} SumNominalScales(stats: seq<Stat>, total: real, track: real)
    requires total != 0.0
    ensures SumNominal(stats, total, track) == TotalSeconds(stats) / total * track
  {
    if |stats| > 0 {
      SumNominalScales(stats[1..], total, track);
      ShareDistributes(stats[0].totalSeconds, TotalSeconds(stats[1..]), total, track);
    }
  }

  /** With the real total, the nominal widths fill the track exactly (the mask width). */
  lemma SumNominalFillsTrack(stats: seq<Stat>, track: real)
    requires TotalSeconds(stats) > 0.0
    ensures SumNominal(stats, TotalSeconds(stats), track) == track
  {
    var total := TotalSeconds(stats);
    SumNominalScales(stats, total, track);
    WholeShare(total, track);
  }

  /** The whole duration's share is the whole track. */
  lemma WholeShare(total: real, track: real)
    requires total != 0.0
    ensures total / total * track == track
  {
  }

  /** The sum over a list is the sum over a prefix plus the sum over the rest. */
  lemma {:induction false} SumNominalSplit(stats: seq<Stat>, k: nat, total: real, track: real)
    requires total != 0.0
    requires k <= |stats|
    ensures SumNominal(stats, total, track) == SumNominal(stats[..k], total, track) + SumNominal(stats[k..], total, track)
  {
    if k > 0 {
      assert stats[..k][1..] == stats[1..][..k - 1];
      assert stats[k..] == stats[1..][k - 1..];
      SumNominalSplit(stats[1..], k - 1, total, track);
    } else {
      assert stats[..k] == [];
      assert stats[k..] == stats;
    }
  }

  /** No share is negative when durations are non-negative and the track is not reversed. */
  lemma {:induction false} SumNominalNonNegative(stats: seq<Stat>, total: real, track: real)
    requires total > 0.0 && track >= 0.0 && NonNegative(stats)
    ensures SumNominal(stats, total, track) >= 0.0
  {
    if |stats| > 0 {
      assert NonNegative(stats[1..]) by {
        assert forall i :: 1 <= i < |stats| ==> stats[1..][i - 1] == stats[i];
      }
      SumNominalNonNegative(stats[1..], total, track);
    }
  }

  /** Prefix sums never decrease. */
  lemma SumNominalPrefixMonotone(stats: seq<Stat>, i: nat, j: nat, total: real, track: real)
    requires total > 0.0 && track >= 0.0 && NonNegative(stats)
    requires i <= j <= |stats|
    ensures SumNominal(stats[..i], total, track) <= SumNominal(stats[..j], total, track)
  {
    var p := stats[..j];
    SumNominalSplit(p, i, total, track);
    assert p[..i] == stats[..i];
    assert NonNegative(p[i..]) by {
      assert forall k :: 0 <= k < |p[i..]| ==> p[i..][k] == stats[i + k];
    }
    SumNominalNonNegative(p[i..], total, track);
  }

  /** The offset before record i lies inside [0, track]. */
  lemma OffsetInTrack(stats: seq<Stat>, i: nat, track: real)
    requires TotalSeconds(stats) > 0.0 && track >= 0.0 && NonNegative(stats)
    requires i <= |stats|
    ensures 0.0 <= SumNominal(stats[..i], TotalSeconds(stats), track) <= track
  {
    var total := TotalSeconds(stats);
    SumNominalFillsTrack(stats, track);
    SumNominalPrefixMonotone(stats, 0, i, total, track);
    SumNominalPrefixMonotone(stats, i, |stats|, total, track);
    assert stats[..0] == [] && stats[..|stats|] == stats;
  }

  /** The segments the compact layout draws, when durations are non-negative and the
      track is not reversed: one per record in input order, offsets non-decreasing and
      inside the track, every drawn width at least 10. */
  lemma PackedSegmentsInTrack(stats: seq<Stat>, table: ColorTable, track: real)
    requires TotalSeconds(stats) > 0.0 && track >= 0.0 && NonNegative(stats)
    ensures var segs := Pack(stats, table, TotalSeconds(stats), track, 0.0);
      |segs| == |stats| &&
      (forall i :: 0 <= i < |segs| ==> 0.0 <= segs[i].x <= track && segs[i].width >= 10.0) &&
      (forall i, j :: 0 <= i <= j < |segs| ==> segs[i].x <= segs[j].x)
  {
    var total := TotalSeconds(stats);
    var segs := Pack(stats, table, total, track, 0.0);
    forall i | 0 <= i < |segs|
      ensures 0.0 <= segs[i].x <= track && segs[i].width >= 10.0
    {
      OffsetInTrack(stats, i, track);
    }
    forall i, j | 0 <= i <= j < |segs|
      ensures segs[i].x <= segs[j].x
    {
      SumNominalPrefixMonotone(stats, i, j, total, track);
    }
  }

  /** Consecutive segments abut at the previous segment's unboosted width: a boost
      overlaps the next segment instead of shifting it. */
  lemma PackAdvancesByNominal(stats: seq<Stat>, table: ColorTable, total: real, track: real, offset: real, i: nat)
    requires total != 0.0
    requires i + 1 < |stats|
    ensures var segs := Pack(stats, table, total, track, offset);
      segs[i + 1].x == segs[i].x + Nominal(stats[i], total, track)
  {
    SumNominalSplit(stats[..i + 1], i, total, track);
    assert stats[..i + 1][..i] == stats[..i];
    assert stats[..i + 1][i..] == [stats[i]];
    assert [stats[i]][1..] == [];
  }

  /** The two columns share rows and rows are 25 apart. */
  lemma LabelGrid(stats: seq<Stat>, table: ColorTable, k: nat)
    requires 2 * k + 1 < |stats|
    ensures var ls := Labels(stats, table);
      ls[2 * k].x == 0.0 && ls[2 * k + 1].x == 150.0 &&
      ls[2 * k].y == ls[2 * k + 1].y == 25.0 + 25.0 * k as real
  {
  }
}
