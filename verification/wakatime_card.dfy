/** `renderWakatimeCard`: from statistic records and options to a structured
    card (size, resolved colours, title settings and one of the two layouts). */
module WakatimeCard {
  import opened Wrappers
  import opened Stats
  import opened Colors
  import opened TextNode
  import opened Compact

  /** The options object, with numeric fields already parsed. `None` stands for an
      option left undefined. `colors` is itself undefined when the caller has no table. */
  datatype CardOptions = CardOptions(
    hideTitle: bool,
    hideBorder: bool,
    lineHeight: Option<int>,
    titleColor: Option<string>,
    iconColor: Option<string>,
    textColor: Option<string>,
    bgColor: Option<string>,
    theme: Option<string>,
    hideProgress: bool,
    customTitle: Option<string>,
    colors: Option<ColorTable>,
    cardWidth: Option<real>,
    layout: Option<string>)

  /** What the theme resolver is asked for. */
  datatype ThemeRequest = ThemeRequest(
    titleColor: Option<string>,
    iconColor: Option<string>,
    textColor: Option<string>,
    bgColor: Option<string>,
    theme: string)

  /** The four colours the theme resolver returns. */
  datatype Theme = Theme(titleColor: string, textColor: string, iconColor: string, bgColor: string)

  /** The collaborators the card calls but which are not part of this model:
      the theme resolver and the localised default title. */
  datatype Env = Env(getCardColors: ThemeRequest -> Theme, defaultTitle: string)

  /** The body inside the card frame. */
  datatype Body =
    | DefaultBody(rows: seq<TextRow>, gap: int)
    | CompactBody(maskWidth: real, segments: seq<Segment>, labels: seq<Label>)

  /** The `Card` the renderer configures; `langNameFill` is the fill of the compact labels. */
  datatype Card = Card(
    width: int,
    height: int,
    customTitle: Option<string>,
    defaultTitle: string,
    colors: Theme,
    hideBorder: bool,
    hideTitle: bool,
    langNameFill: string,
    body: Body)

  /** The only exception the renderer raises: a colour lookup on an undefined table. */
  datatype RenderError = ColorTableUndefined

  /** The outer card width, fixed whatever `card_width` says. */
  const CardWidth: int := 495

  /** `layout === "compact"`. */
  predicate IsCompact(opts: CardOptions) {
    opts.layout == Some("compact")
  }

  /** Width of the compact bar: `card_width` (300 when not a number) minus 50. */
  function TrackWidth(cardWidth: Option<real>): (t: real)
    ensures cardWidth.None? ==> t == 250.0
    ensures cardWidth.Some? ==> t + 50.0 == cardWidth.value
  {
    cardWidth.GetOr(300.0) - 50.0
  }

  /** `Math.round`: the nearest integer, halves rounded up. */
  function JsRound(x: real): (n: int)
    ensures n as real - 0.5 <= x < n as real + 0.5
  {
    (x + 0.5).Floor
  }

  /** Default-layout height; `count` is the number of ALL records, inactive ones included. */
  function DefaultHeight(count: nat, lineHeight: int): (h: int)
    ensures h >= 150
    ensures h >= 45 + (count + 1) * lineHeight
    ensures h == 150 || h == 45 + (count + 1) * lineHeight
  {
    if 45 + (count + 1) * lineHeight > 150 then 45 + (count + 1) * lineHeight else 150
  }

  /** Compact-layout height: `90 + Math.round(count / 2) * 25`, which for a count is
      90 plus 25 per started pair of records. */
  function CompactHeight(count: nat): (h: int)
    ensures h == 90 + 25 * ((count + 1) / 2)
    ensures h >= 90
  {
    var q := (count + 1) / 2;
    assert q as real - 0.5 <= count as real / 2.0 < q as real + 0.5;
    90 + JsRound(count as real / 2.0) * 25
  }

  /** The rows of the default layout: the `filter` of active records, then one
      `createTextNode` per record, called without an index. */
  function DefaultRows(stats: seq<Stat>, table: ColorTable, titleColor: string, hideProgress: bool): (rows: seq<TextRow>)
    ensures |rows| == |Active(stats)|
    ensures forall i :: 0 <= i < |rows| ==>
      var s := Active(stats)[i];
      rows[i].id == s.name && rows[i].labelText == s.name && rows[i].value == s.text &&
      rows[i].delay.None? &&
      rows[i].valueX == (if hideProgress then ValueXHidden else ValueXWithBar) &&
      (rows[i].progress.Some? ==>
        rows[i].progress.value == ProgressNode(110, 4, s.percent,
          ColorOr(table, s.name, titleColor), 220, s.name, ProgressBackground)) &&
      (rows[i].progress.None? <==> hideProgress) &&
      (rows[i].progress.Some? ==>
        rows[i].progress.value.progress == s.percent &&
        rows[i].progress.value.color == ColorOr(table, s.name, titleColor))
  {
    var active := Active(stats);
    seq(|active|, i requires 0 <= i < |active| =>
      CreateTextNode(active[i].name, active[i].name, active[i].text, None, active[i].percent,
        hideProgress, ColorOr(table, active[i].name, titleColor), ProgressBackground))
  }

  /** The compact layout body: the mask, the packed segments and the label grid.
      An empty list needs no total: it draws the mask alone. */
  function CompactLayout(stats: seq<Stat>, table: ColorTable, track: real): (b: Body)
    requires |stats| > 0 ==> TotalSeconds(stats) > 0.0
    ensures b.CompactBody? && b.maskWidth == track
    ensures |b.segments| == |stats| && |b.labels| == |stats|
    ensures forall i :: 0 <= i < |stats| ==>
      b.segments[i].x == SumNominal(stats[..i], TotalSeconds(stats), track) &&
      b.segments[i].width == Boost(Nominal(stats[i], TotalSeconds(stats), track)) &&
      b.segments[i].color == ColorOr(table, stats[i].name, Gray) &&
      b.labels[i].x == (if i % 2 == 0 then 0.0 else 150.0) &&
      b.labels[i].y == 25.0 + 25.0 * (i / 2) as real &&
      b.labels[i].name == stats[i].name && b.labels[i].text == stats[i].text &&
      b.labels[i].dot == ColorOr(table, stats[i].name, Gray)
  {
    CompactBody(track, Pack(stats, table, TotalSeconds(stats), track, 0.0), Labels(stats, table))
  }

  /** Whether rendering reads `colors[name]` at all: every record in the compact
      layout, every active record in the default one. */
  predicate LooksUpColors(stats: seq<Stat>, opts: CardOptions) {
    if IsCompact(opts) then |stats| > 0 else |Active(stats)| > 0
  }

  /** `renderWakatimeCard`. The compact layout divides by the total duration. */
  function Render(stats: seq<Stat>, opts: CardOptions, env: Env): (r: Result<Card, RenderError>)
    requires IsCompact(opts) && |stats| > 0 && opts.colors.Some? ==> TotalSeconds(stats) > 0.0
    ensures r.Failure? <==> opts.colors.None? && LooksUpColors(stats, opts)
    ensures r.Success? ==> r.value.width == CardWidth
    ensures r.Success? ==> r.value.colors == env.getCardColors(ThemeRequest(opts.titleColor,
      opts.iconColor, opts.textColor, opts.bgColor, opts.theme.GetOr("default")))
    ensures r.Success? ==> r.value.langNameFill == r.value.colors.textColor
    ensures r.Success? ==> (r.value.body.CompactBody? <==> IsCompact(opts))
    ensures r.Success? ==> r.value.hideTitle == opts.hideTitle && r.value.hideBorder == opts.hideBorder
    ensures r.Success? ==> r.value.customTitle == opts.customTitle && r.value.defaultTitle == env.defaultTitle
    ensures r.Success? && !IsCompact(opts) ==> r.value.height >= 150
    ensures r.Success? && !IsCompact(opts) ==>
      r.value.height == DefaultHeight(|stats|, opts.lineHeight.GetOr(25))
    ensures r.Success? && IsCompact(opts) ==> r.value.height == 90 + 25 * ((|stats| + 1) / 2)
  {
    var theme := env.getCardColors(ThemeRequest(opts.titleColor, opts.iconColor, opts.textColor,
      opts.bgColor, opts.theme.GetOr("default")));
    var lineHeight := opts.lineHeight.GetOr(25);
    if opts.colors.None? && LooksUpColors(stats, opts) then Failure(ColorTableUndefined)
    else
      var table := opts.colors.GetOr(map[]);
      var body := if IsCompact(opts) then CompactLayout(stats, table, TrackWidth(opts.cardWidth))
        else DefaultBody(DefaultRows(stats, table, theme.titleColor, opts.hideProgress), lineHeight);
      var height := if IsCompact(opts) then CompactHeight(|stats|) else DefaultHeight(|stats|, lineHeight);
      Success(Card(CardWidth, height, opts.customTitle, env.defaultTitle, theme,
        opts.hideBorder, opts.hideTitle, theme.textColor, body))
  }

  /** An empty list in the compact layout divides by nothing: the card is 90 high
      and draws the mask alone, with no segment and no label. */
  lemma EmptyCompactCard(opts: CardOptions, env: Env)
    requires IsCompact(opts)
    ensures var r := Render([], opts, env);
      r.Success? && r.value.height == 90 &&
      r.value.body == CompactBody(TrackWidth(opts.cardWidth), [], [])
  {
  }

  /** An undefined theme renders exactly like the theme named "default". */
  lemma UndefinedThemeIsDefault(stats: seq<Stat>, opts: CardOptions, env: Env)
    requires IsCompact(opts) && |stats| > 0 && opts.colors.Some? ==> TotalSeconds(stats) > 0.0
    ensures Render(stats, opts.(theme := None), env) == Render(stats, opts.(theme := Some("default")), env)
  {
  }

  /** Rows of a concatenation are the rows of the parts, and an inactive record
      yields no row: the default layout keeps the active records in input order. */
  lemma DefaultRowsAppend(a: seq<Stat>, b: seq<Stat>, table: ColorTable, titleColor: string, hideProgress: bool)
    ensures DefaultRows(a + b, table, titleColor, hideProgress)
      == DefaultRows(a, table, titleColor, hideProgress) + DefaultRows(b, table, titleColor, hideProgress)
  {
    ActiveAppend(a, b);
  }

  /** A single record yields one row when active and none otherwise. */
  lemma DefaultRowsSingleton(s: Stat, table: ColorTable, titleColor: string, hideProgress: bool)
    ensures |DefaultRows([s], table, titleColor, hideProgress)| == (if IsActive(s) then 1 else 0)
  {
  }

  /** Hiding the progress bars removes exactly the bars: the same rows keep their
      label and value, and the value moves from x = 350 to x = 170. */
  lemma HideProgressKeepsText(stats: seq<Stat>, table: ColorTable, titleColor: string)
    ensures var shown := DefaultRows(stats, table, titleColor, false);
      var hidden := DefaultRows(stats, table, titleColor, true);
      |shown| == |hidden| &&
      forall i :: 0 <= i < |shown| ==>
        hidden[i] == shown[i].(progress := None, valueX := ValueXHidden) &&
        shown[i].progress.Some? && shown[i].valueX == ValueXWithBar
  {
  }

  /** A taller line height or more records never shrinks the default card. */
  lemma DefaultHeightMonotone(m: nat, n: nat, lineHeight: int)
    requires m <= n && lineHeight >= 0
    ensures DefaultHeight(m, lineHeight) <= DefaultHeight(n, lineHeight)
  {
  }

  /** An inactive record adds no row but still counts towards the default height. */
  lemma InactiveRecordOnlyGrowsHeight(stats: seq<Stat>, s: Stat, opts: CardOptions, env: Env)
    requires !IsCompact(opts) && !IsActive(s)
    ensures var before := Render(stats, opts, env);
      var after := Render(stats + [s], opts, env);
      before.Success? == after.Success? &&
      (after.Success? ==>
        after.value.body.rows == before.value.body.rows &&
        after.value.height == DefaultHeight(|stats| + 1, opts.lineHeight.GetOr(25)))
  {
    ActiveAppend(stats, [s]);
    ActiveSingleton(s);
    assert Active(stats + [s]) == Active(stats);
  }

  /** The default layout, as rendered: one row per active record; a record without
      a usable colour gets the theme's title colour for its bar. */
  lemma DefaultLayoutRows(stats: seq<Stat>, opts: CardOptions, env: Env)
    requires !IsCompact(opts)
    ensures var r := Render(stats, opts, env);
      r.Success? ==>
        var theme := r.value.colors;
        var table := opts.colors.GetOr(map[]);
        r.value.body.gap == opts.lineHeight.GetOr(25) &&
        |r.value.body.rows| == |Active(stats)| &&
        forall i :: 0 <= i < |r.value.body.rows| ==>
          var row := r.value.body.rows[i];
          var name := Active(stats)[i].name;
          row.labelText == name &&
          (row.progress.None? <==> opts.hideProgress) &&
          (row.progress.Some? && name !in table ==> row.progress.value.color == theme.titleColor) &&
          (row.progress.Some? && name in table && table[name].Some? && table[name].value != "" ==>
            row.progress.value.color == table[name].value)
  {
  }

  /** The compact layout, as rendered with non-negative durations and a track of
      non-negative width: the mask spans the track, which the nominal widths fill
      exactly; one segment per record, starting inside the track, in non-decreasing
      order, at least 10 wide; one label per record in the two-column grid, its dot
      the segment's colour, which is the table's colour or gray. */
  lemma CompactLayoutSegments(stats: seq<Stat>, opts: CardOptions, env: Env)
    requires IsCompact(opts) && TotalSeconds(stats) > 0.0 && NonNegative(stats)
    requires TrackWidth(opts.cardWidth) >= 0.0
    ensures var r := Render(stats, opts, env);
      r.Success? ==>
        var track := TrackWidth(opts.cardWidth);
        var segs := r.value.body.segments;
        var table := opts.colors.GetOr(map[]);
        r.value.body.maskWidth == track &&
        SumNominal(stats, TotalSeconds(stats), track) == track &&
        |segs| == |stats| && |r.value.body.labels| == |stats| &&
        (forall i :: 0 <= i < |segs| ==> 0.0 <= segs[i].x <= track && segs[i].width >= 10.0) &&
        (forall i, j :: 0 <= i <= j < |segs| ==> segs[i].x <= segs[j].x) &&
        (forall i :: 0 <= i < |stats| ==>
          var l := r.value.body.labels[i];
          segs[i].color == ColorOr(table, stats[i].name, Gray) && l.dot == segs[i].color &&
          l.x == (if i % 2 == 0 then 0.0 else 150.0) && l.y == 25.0 + 25.0 * (i / 2) as real) &&
        (forall i :: 0 <= i < |stats| && stats[i].name !in table ==>
          segs[i].color == Gray && r.value.body.labels[i].dot == Gray)
  {
    var r := Render(stats, opts, env);
    if r.Success? {
      var table := opts.colors.GetOr(map[]);
      PackedSegmentsInTrack(stats, table, TrackWidth(opts.cardWidth));
      SumNominalFillsTrack(stats, TrackWidth(opts.cardWidth));
    }
  }

  /** Three records where the last is inactive: two default rows, in order. */
  lemma TwoActiveOneIdleRows(stats: seq<Stat>, opts: CardOptions, env: Env)
    requires |stats| == 3 && IsActive(stats[0]) && IsActive(stats[1]) && !IsActive(stats[2])
    requires opts.colors.Some? && !IsCompact(opts)
    ensures var r := Render(stats, opts, env);
      r.Success? && |r.value.body.rows| == 2 &&
      r.value.body.rows[0].labelText == stats[0].name && r.value.body.rows[1].labelText == stats[1].name
  {
    assert stats == [stats[0]] + [stats[1]] + [stats[2]];
    ActiveAppend([stats[0]] + [stats[1]], [stats[2]]);
    ActiveAppend([stats[0]], [stats[1]]);
    ActiveSingleton(stats[0]);
    ActiveSingleton(stats[1]);
    ActiveSingleton(stats[2]);
    assert Active(stats) == [stats[0], stats[1]];
  }

  /** Records of one hour, one hour and nothing on the default 300 width: three
      segments and three labels; the hour-long records take half of the 250-wide
      track each, and the empty record is widened to 10 despite its zero share. */
  lemma HourHourNothingSegments(stats: seq<Stat>, opts: CardOptions, env: Env)
    requires |stats| == 3
    requires stats[0].totalSeconds == 3600.0 && stats[1].totalSeconds == 3600.0
    requires stats[2].totalSeconds == 0.0
    requires opts.colors.Some? && IsCompact(opts) && opts.cardWidth.None?
    ensures TotalSeconds(stats) == 7200.0
    ensures var r := Render(stats, opts, env);
      r.Success? &&
      var segs := r.value.body.segments;
      |segs| == 3 && |r.value.body.labels| == 3 &&
      segs[0].width == 125.0 && segs[1].width == 125.0 && segs[2].width == 10.0 &&
      segs[2].x == 250.0
  {
    assert stats[1..][1..][1..] == [];
    assert TotalSeconds(stats[1..][1..]) == 0.0;
    assert TotalSeconds(stats[1..]) == 3600.0;
    assert TotalSeconds(stats) == 7200.0;
    var total, track := 7200.0, 250.0;
    assert Nominal(stats[0], total, track) == 125.0 by { assert 3600.0 / 7200.0 == 0.5; }
    assert Nominal(stats[1], total, track) == 125.0 by { assert 3600.0 / 7200.0 == 0.5; }
    assert Nominal(stats[2], total, track) == 0.0;
    var segs := Pack(stats, opts.colors.value, total, track, 0.0);
    PackAdvancesByNominal(stats, opts.colors.value, total, track, 0.0, 0);
    PackAdvancesByNominal(stats, opts.colors.value, total, track, 0.0, 1);
    assert stats[..0] == [];
    assert segs[2].x == 250.0;
  }
}
