/** The WakaTime endpoint (api/wakatime.js): the cache lifetime it announces and
    the options it hands to the card renderer. */
module Handler {
  import opened Wrappers
  import opened Stats
  import opened Colors
  import opened WakatimeCard

  /** The duration constants, in seconds, that the handler reads from its utilities. */
  datatype Durations = Durations(twoHours: int, fourHours: int, oneDay: int)

  /** The query parameters. Numeric ones are already parsed; `cacheSeconds` is `None`
      when the parameter is falsy (absent or empty), and `Some(0)` stands for the
      truthy string "0". `stat` selects the summary list and its colour table. */
  datatype Query = Query(
    username: Option<string>,
    stat: string,
    titleColor: Option<string>,
    iconColor: Option<string>,
    hideBorder: Option<string>,
    lineHeight: Option<int>,
    textColor: Option<string>,
    bgColor: Option<string>,
    theme: Option<string>,
    cacheSeconds: Option<int>,
    hideTitle: Option<string>,
    hideProgress: Option<string>,
    customTitle: Option<string>)

  /** What is sent back: the `max-age` of the Cache-Control header and either the card
      or the error card that replaces it when rendering throws. */
  datatype ResponseBody = Svg(card: Card) | ErrorCard(error: RenderError)
  datatype Response = Response(maxAge: int, body: ResponseBody)

  /** `clampValue`, with the contract its call implies. */
  function Clamp(v: int, lo: int, hi: int): (r: int)
    requires lo <= hi
    ensures lo <= r <= hi
    ensures lo <= v <= hi ==> r == v
    ensures v < lo ==> r == lo
    ensures v > hi ==> r == hi
  {
    if v < lo then lo else if v > hi then hi else v
  }

  /** The Cache-Control lifetime: a requested value is clamped into
      [TWO_HOURS, ONE_DAY]; no request at all means FOUR_HOURS instead. */
  function CacheLifetime(requested: Option<int>, d: Durations): (r: int)
    requires d.twoHours <= d.oneDay
    ensures requested.None? ==> r == d.fourHours
    ensures requested.Some? ==> d.twoHours <= r <= d.oneDay
    ensures requested.Some? && requested.value < d.twoHours ==> r == d.twoHours
    ensures requested.Some? && requested.value > d.oneDay ==> r == d.oneDay
    ensures requested.Some? && d.twoHours <= requested.value <= d.oneDay ==> r == requested.value
  {
    var cacheSeconds := Clamp(requested.GetOr(d.twoHours), d.twoHours, d.oneDay);
    if requested.None? then d.fourHours else cacheSeconds
  }

  /** A requested "0" is truthy: it is clamped up to TWO_HOURS, not replaced by FOUR_HOURS. */
  lemma ZeroIsClampedNotDefaulted(d: Durations)
    requires 0 < d.twoHours <= d.oneDay
    ensures CacheLifetime(Some(0), d) == d.twoHours
    ensures d.fourHours != d.twoHours ==> CacheLifetime(Some(0), d) != CacheLifetime(None, d)
  {
  }

  /** JavaScript truthiness of a raw query string. */
  predicate Truthy(raw: Option<string>) {
    raw.Some? && raw.value != ""
  }

  /** The options object of api/wakatime.js:45-57. `parseBoolean` is the utility
      the handler applies to `hide_title` and `hide_border`. */
  function BuildOptions(q: Query, colorFile: map<string, ColorTable>, parseBoolean: Option<string> -> bool): (o: CardOptions)
    ensures o.layout.None? && !IsCompact(o)
    ensures o.cardWidth.None? && TrackWidth(o.cardWidth) == 250.0
    ensures o.hideTitle == parseBoolean(q.hideTitle) && o.hideBorder == parseBoolean(q.hideBorder)
    ensures o.hideProgress <==> Truthy(q.hideProgress)
    ensures o.lineHeight == q.lineHeight && o.customTitle == q.customTitle && o.theme == q.theme
    ensures o.titleColor == q.titleColor && o.iconColor == q.iconColor
    ensures o.textColor == q.textColor && o.bgColor == q.bgColor
    ensures o.colors.Some? <==> q.stat in colorFile
    ensures o.colors.Some? ==> o.colors.value == colorFile[q.stat]
  {
    CardOptions(
      hideTitle := parseBoolean(q.hideTitle),
      hideBorder := parseBoolean(q.hideBorder),
      lineHeight := q.lineHeight,
      titleColor := q.titleColor,
      iconColor := q.iconColor,
      textColor := q.textColor,
      bgColor := q.bgColor,
      theme := q.theme,
      hideProgress := Truthy(q.hideProgress),
      customTitle := q.customTitle,
      colors := if q.stat in colorFile then Some(colorFile[q.stat]) else None,
      cardWidth := None,
      layout := None)
  }

  /** `last7Days[stat]`, where an undefined list becomes the renderer's default `[]`. */
  function StatsFor(stat: string, last7Days: map<string, seq<Stat>>): (stats: seq<Stat>)
    ensures stat in last7Days ==> stats == last7Days[stat]
    ensures stat !in last7Days ==> stats == []
  {
    if stat in last7Days then last7Days[stat] else []
  }

  /** The handler once the statistics have been fetched. */
  function Handle(
    q: Query, last7Days: map<string, seq<Stat>>, colorFile: map<string, ColorTable>,
    parseBoolean: Option<string> -> bool, env: Env, d: Durations): (resp: Response)
    requires d.twoHours <= d.oneDay
    ensures resp.maxAge == CacheLifetime(q.cacheSeconds, d)
    ensures q.cacheSeconds.None? ==> resp.maxAge == d.fourHours
    ensures q.cacheSeconds.Some? ==> d.twoHours <= resp.maxAge <= d.oneDay
    ensures resp.body.ErrorCard? <==> q.stat !in colorFile && |Active(StatsFor(q.stat, last7Days))| > 0
    ensures resp.body.Svg? ==> resp.body.card.body.DefaultBody? && resp.body.card.width == CardWidth
  {
    var maxAge := CacheLifetime(q.cacheSeconds, d);
    var opts := BuildOptions(q, colorFile, parseBoolean);
    match Render(StatsFor(q.stat, last7Days), opts, env)
    case Success(card) => Response(maxAge, Svg(card))
    case Failure(e) => Response(maxAge, ErrorCard(e))
  }

  /** One `stat` key picks both the rows and their colours: every row is an active
      record of `last7Days[stat]`, in order, and its bar takes its colour from
      `colors[stat]` whenever that table has a usable colour for it. */
  lemma HandlerPairsStatsWithColors(
    q: Query, last7Days: map<string, seq<Stat>>, colorFile: map<string, ColorTable>,
    parseBoolean: Option<string> -> bool, env: Env, d: Durations)
    requires d.twoHours <= d.oneDay
    ensures var resp := Handle(q, last7Days, colorFile, parseBoolean, env, d);
      var active := Active(StatsFor(q.stat, last7Days));
      resp.body.Svg? ==>
        var rows := resp.body.card.body.rows;
        |rows| == |active| &&
        (|rows| > 0 ==> q.stat in colorFile) &&
        forall i :: 0 <= i < |rows| ==>
          var name := active[i].name;
          rows[i].labelText == name &&
          (rows[i].progress.None? <==> Truthy(q.hideProgress)) &&
          (rows[i].progress.Some? && q.stat in colorFile && name in colorFile[q.stat] &&
            colorFile[q.stat][name].Some? && colorFile[q.stat][name].value != "" ==>
            rows[i].progress.value.color == colorFile[q.stat][name].value)
  {
  }
}
