# WakaTime card: layout geometry and cache lifetime

A Dafny model of the WakaTime statistics card of github-readme-stats and of the
endpoint that serves it. The card turns a list of WakaTime records (a name, a
display text, a duration in seconds, hour and minute counts, a percentage) into
an image in one of two layouts:

- the **default** layout, one row per active record, each with a label, a value
  and an optional progress bar;
- the **compact** layout, one horizontal bar made of proportional segments packed
  end to end, with a two-column grid of labels below it.

The model renders into a structured value instead of markup. That value holds the
card size, the resolved colours, the title settings, and either the rows or the
segments, mask width and label positions. The endpoint part models two things:
the Cache-Control lifetime it computes, and the options object it passes to the card.

Modules, following the source:

- `Wrappers`: `Option` for undefined fields and `Result` for thrown errors.
- `Stats`: the record, the activity filter and the total-seconds reduction.
- `Colors`: the per-name colour table and its fallback rule.
- `TextNode`: `createTextNode`, its progress-bar arguments and the stagger delay.
- `Compact`: segment packing, with the rule that boosts narrow segments, and the label grid.
- `WakatimeCard`: `renderWakatimeCard`, the two height formulas, the layout choice,
  and the error raised by a missing colour table.
- `Handler`: the endpoint's cache lifetime, its options object, and how its response is built.

## Behaviour the model follows

Some descriptions of this card say otherwise. The code does the following, and so does the model:

- A compact segment narrower than 10 is drawn 10 wider than its own width, not
  10 wider than the card. The running offset still advances by the unboosted
  width, so a boosted segment overlaps its successor; it does not shift it.
- The default height counts every record, inactive ones included.
- The rows show only active records.
- A default-layout bar whose record has no usable colour takes the theme's title
  colour, not gray. Only the compact layout falls back to `#858585`.
- The percentage on a default row is the record's own `percent` field. The card
  never divides by the total to get it.
- `createTextNode` is called without an index, so no row gets a numeric stagger
  delay (`TextRow.delay` is `None`). The formula `(index + 3) * 150` is modelled
  for an index that is supplied.
- The endpoint forwards `hide_progress` raw, so the card tests the query string's
  truthiness. Any non-empty value hides the bars, the string "false" included.
- The endpoint passes `colors[stat]` as the colour table, which is undefined for
  a `stat` the colour file lacks. The first colour lookup on it throws, and the
  endpoint answers with an error card. This happens when a default layout has an
  active record, or a compact layout has any record.

## Model

| member | source | states |
|---|---|---|
| `Stats.Active` | src/cards/wakatime-card.js:180-182 | the kept records are exactly the input's active ones (`IsActive`: hours or minutes non-zero, the truthiness test of line 182), and no more of them than the input has |
| `Stats.ActiveAppend` | src/cards/wakatime-card.js:180-182 | filtering distributes over concatenation, so kept records stay in input order |
| `Stats.ActiveSingleton` | src/cards/wakatime-card.js:182 | one record survives the filter exactly when it is active |
| `Stats.ActiveExtremes` | src/cards/wakatime-card.js:182 | an all-active list is kept whole, and an all-inactive list is dropped entirely |
| `Stats.TotalSeconds` | src/cards/wakatime-card.js:112-114 | the total duration is non-negative when every record's duration is |
| `Colors.ColorOr` | src/cards/wakatime-card.js:53-57 | the result is the table's colour for the name when that colour is present and non-empty; otherwise it is the fallback |
| `TextNode.StaggerDelay` | src/cards/wakatime-card.js:24 | a delay for a non-negative index is at least 450 ms and a multiple of 150 |
| `TextNode.StaggerStep` | src/cards/wakatime-card.js:24 | consecutive indices differ by exactly 150 ms, and the delay grows with the index |
| `TextNode.CreateTextNode` | src/cards/wakatime-card.js:14-50 | a row keeps its id, label and value; its bar is absent iff progress is hidden; the value sits at 170 iff hidden, else 350; the bar is at x 110, width 220, with the given colour and background; a delay exists iff an index is supplied |
| `Compact.Nominal` | src/cards/wakatime-card.js:139-142 | a record's unboosted share is non-negative when its duration, the total and the track are |
| `Compact.NominalProportional` | src/cards/wakatime-card.js:139-142 | a share stands to the track as the record's duration stands to the total |
| `Compact.Boost` | src/cards/wakatime-card.js:144-145 | a share below 10 is drawn exactly 10 wider, and a share of 10 or more is drawn unchanged; so the drawn width is never below the nominal one, and it is at least 10 for any non-negative share |
| `Compact.Pack` | src/cards/wakatime-card.js:133-161 | one segment per record, in order; segment i starts at the sum of the unboosted widths of records 0..i-1; its width is that record's boosted share; its colour falls back to gray |
| `Compact.ShareDistributes` | src/cards/wakatime-card.js:139-142 | scaling durations by track/total distributes over their sum |
| `Compact.SumNominalScales` | src/cards/wakatime-card.js:139-142 | `SumNominal`, the sum of the unboosted shares that the running offset at line 158 accumulates, is the summed durations' share of the track |
| `Compact.SumNominalFillsTrack` | src/cards/wakatime-card.js:163-167 | with the real total, the nominal widths fill the track exactly, which is the mask width |
| `Compact.SumNominalSplit` | src/cards/wakatime-card.js:158 | the running offset over a list is its prefix sum plus the sum over the remaining records |
| `Compact.SumNominalNonNegative` | src/cards/wakatime-card.js:139-142 | no share sum is negative for non-negative durations and a non-negative track |
| `Compact.SumNominalPrefixMonotone` | src/cards/wakatime-card.js:158 | the running offset never decreases |
| `Compact.OffsetInTrack` | src/cards/wakatime-card.js:133-167 | the running offset before any record lies inside [0, track] |
| `Compact.PackedSegmentsInTrack` | src/cards/wakatime-card.js:133-167 | with non-negative durations and track, every segment starts inside [0, track], offsets do not decrease, and every drawn width is at least 10 |
| `Compact.PackAdvancesByNominal` | src/cards/wakatime-card.js:158 | the next segment starts exactly the unboosted width after the previous one |
| `Compact.LangNode` | src/cards/wakatime-card.js:52-63 | a label sits at the given x and y and shows the record's name and text; its dot is the table's colour when that colour is present and non-empty, and gray otherwise |
| `Compact.LabelAt` | src/cards/wakatime-card.js:66-84 | the record at an even index goes to x 0 and the one at an odd index to x 150; both sit at y 25 + 25 * (index / 2); the dot is colour-or-gray |
| `Compact.Labels` | src/cards/wakatime-card.js:65-86 | one label per record; even records sit at x 0 and odd ones at x 150; record i is at y 25 + 25 * (i / 2); dots fall back to gray |
| `Compact.LabelGrid` | src/cards/wakatime-card.js:66-84 | records 2k and 2k+1 share the row at y 25 + 25k, in the left and right columns |
| `WakatimeCard.TrackWidth` | src/cards/wakatime-card.js:126 | the track is the given width minus 50, or 250 when no width is given |
| `WakatimeCard.JsRound` | src/cards/wakatime-card.js:131 | rounding picks the integer within half a unit, rounding halves up |
| `WakatimeCard.DefaultHeight` | src/cards/wakatime-card.js:125 | the default height is at least 150 and at least 45 + (count + 1) * lineHeight, and equals one of the two |
| `WakatimeCard.CompactHeight` | src/cards/wakatime-card.js:131 | 90 + round(n / 2) * 25 equals 90 + 25 * ((n + 1) / 2) for every count n, so it is at least 90 |
| `WakatimeCard.DefaultRows` | src/cards/wakatime-card.js:179-194 | one row per active record, in order. Each row's id and label are the name, its value is the text, and it has no delay. The value sits at x 170 when progress is hidden and at 350 otherwise. The bar is absent iff progress is hidden; otherwise it sits at (110, 4), is 220 wide, has background `#ededed`, carries the record's own percent, and takes the table's colour or else the title colour |
| `WakatimeCard.CompactLayout` | src/cards/wakatime-card.js:163-177 | the compact body has a mask as wide as the track, and one segment and one label per record. Segment i starts at the sum of the earlier unboosted shares, is drawn at its boosted share, and is coloured from the table or gray. Label i sits at x 0 (even i) or 150 (odd i) and y 25 + 25 * (i / 2), with the same colour-or-gray dot. An empty list needs no total |
| `WakatimeCard.Render` | src/cards/wakatime-card.js:88-239 | rendering fails iff the colour table is undefined and some colour lookup happens; the card is always 495 wide; its colours are what the theme resolver returns for the four colour options and the theme, which defaults to "default"; the label fill is the text colour; the compact body is chosen iff layout is "compact"; the title and border flags pass through; the default height is at least 150 and is computed from the count of all records, inactive ones included; the compact height is 90 + 25 * ((n + 1) / 2) |
| `WakatimeCard.EmptyCompactCard` | src/cards/wakatime-card.js:130-177 | an empty list in the compact layout renders without dividing: the card is 90 high and holds the mask alone |
| `WakatimeCard.UndefinedThemeIsDefault` | src/cards/wakatime-card.js:97 | an undefined theme renders exactly like the theme "default" |
| `WakatimeCard.DefaultRowsAppend` | src/cards/wakatime-card.js:180-193 | the rows of a concatenation are the rows of its parts |
| `WakatimeCard.DefaultRowsSingleton` | src/cards/wakatime-card.js:182-193 | a single record gives one row if active and none otherwise |
| `WakatimeCard.HideProgressKeepsText` | src/cards/wakatime-card.js:26-47 | hiding progress removes exactly the bars: the same rows keep label and value, and the value moves from x 350 to x 170 |
| `WakatimeCard.DefaultHeightMonotone` | src/cards/wakatime-card.js:125 | the default height does not decrease with the record count when the line height is non-negative |
| `WakatimeCard.InactiveRecordOnlyGrowsHeight` | src/cards/wakatime-card.js:125-193 | appending an inactive record leaves the rows unchanged, but the height is computed from the larger count |
| `WakatimeCard.DefaultLayoutRows` | src/cards/wakatime-card.js:179-203 | as rendered, the default body has one row per active record and the gap is the line height (default 25); a bar with no table entry takes the theme's title colour |
| `WakatimeCard.CompactLayoutSegments` | src/cards/wakatime-card.js:130-177 | as rendered, the mask spans the track and the nominal widths fill it. There is one segment and one label per record. Segments start inside the track, in non-decreasing order, and are at least 10 wide. Segment and dot colours are the table's colour or gray, and labels sit in the two-column grid |
| `WakatimeCard.TwoActiveOneIdleRows` | src/cards/wakatime-card.js:179-193 | of three records where only the last is inactive, the default layout shows exactly the first two, in order |
| `WakatimeCard.HourHourNothingSegments` | src/cards/wakatime-card.js:133-161 | records of 1 h, 1 h and 0 s on the 300 default width give three segments and three labels; the first two are 125 wide, and the empty one is widened to 10 at x 250 |
| `Handler.Clamp` | api/wakatime.js:34-38 | the result lies in [lo, hi]; values inside are unchanged, values below become lo, values above become hi |
| `Handler.CacheLifetime` | api/wakatime.js:34-42 | no request gives FOUR_HOURS; a request gives its value clamped into [TWO_HOURS, ONE_DAY] |
| `Handler.ZeroIsClampedNotDefaulted` | api/wakatime.js:34-42 | a requested "0" becomes TWO_HOURS, which differs from the FOUR_HOURS default |
| `Handler.BuildOptions` | api/wakatime.js:45-57 | layout and card width are never set, so the track is 250; only the title and border flags go through parseBoolean; hide_progress is forwarded raw and read by JavaScript truthiness (`Truthy`: present and non-empty); the other fields are forwarded; the colour table is colors[stat], undefined iff stat is missing |
| `Handler.StatsFor` | api/wakatime.js:59 | the card gets last7Days[stat] when the key exists, and otherwise the renderer's default empty list (src/cards/wakatime-card.js line 88) |
| `Handler.Handle` | api/wakatime.js:31-63 | max-age is exactly the cache lifetime of the request: FOUR_HOURS without one, otherwise the request clamped into [TWO_HOURS, ONE_DAY]. The answer is an error card iff the colour table is missing and the list has an active record. A card is always the 495-wide default layout |
| `Handler.HandlerPairsStatsWithColors` | api/wakatime.js:56-59 | the rows are the active records of last7Days[stat], in order; the bars take colours from colors[stat]; rows exist only if colors[stat] exists |

## Left out

- SVG and CSS text. The model emits rows, segments and labels, not markup. Row placement inside `FlexLayout` is not modelled; it is not part of this model. The title block, border and style sheet assembled by `Card` and `getStyles` are also outside it.
- `getCardColors` and the localised default title are not part of this model. They are parameters (`WakatimeCard.Env`), so theme precedence is not stated.
- `parseBoolean` is not part of this model; it is a parameter of `Handler.BuildOptions`. `clampValue` is modelled by the ordinary clamp contract its call implies.
- The values of `TWO_HOURS`, `FOUR_HOURS` and `ONE_DAY` live in a utilities file that is not part of this model. They are parameters (`Handler.Durations`), and only TWO_HOURS <= ONE_DAY is assumed.
- `Compact.Pack`: widths and offsets are exact reals. The source rounds each share to two decimals with `toFixed(2)` and parses it back, so its offsets can differ from the model's by up to 0.005 per segment.
- `Compact.Boost`: the test is applied to the exact share. The source applies it to the share rounded to two decimals, so a share in [9.995, 10) rounds to "10.00" and is not boosted there. The model draws such a segment up to 10 wider. Records of 39988 s and 960012 s on the 250 track are an example: the source draws the first segment 10.00 wide, and the model draws 19.997.
- `parseInt` and `isNaN` on `line_height`, `card_width` and `cache_seconds` are not modelled. The model takes already-numeric values, with `None` for an undefined option, so NaN heights and NaN clamping are not modelled.
- `WakatimeCard.Render` requires a positive total duration for a compact layout that has a non-empty list and a defined colour table. When such a list totals zero, the source divides zero by zero and draws NaN-wide segments. With an undefined table, the lookup at line 138 of src/cards/wakatime-card.js throws before any division, and the model returns that failure. An empty list needs no division and is modelled.
- The "no coding activity" branch of the default layout cannot run: `stats` is always an array, and an array is truthy.
- Fetching the statistics, `dotenv`, the response headers and sending are I/O. A fetch failure is also left out, because its error card is produced before any of the modelled logic runs.
- The sum of the records' `percent` fields is not stated, because the card never computes percentages.
- Colour lookups treat the table as a plain map. Keys inherited from JavaScript's object prototype are not modelled.
- `Handler.Handle`: `last7Days` maps each key to a record list. A `stat` that names some other value, or a key inherited from the object prototype such as `toString`, makes the source's `reduce` throw, and the answer is an error card. The model cannot represent that case, so its error-card condition covers only the missing colour table.
