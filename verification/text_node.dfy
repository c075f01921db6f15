/** One row of the default layout: label, value, optional progress bar and
    the stagger delay of its fade-in animation. */
module TextNode {
  import opened Wrappers

  /** The arguments `createTextNode` passes to the progress-bar builder. */
  datatype ProgressNode = ProgressNode(
    x: int,
    y: int,
    progress: real,
    color: string,
    width: int,
    name: string,
    background: string)

  /** A default-layout row. `delay` is absent when no index was supplied, where
      the source computes `(undefined + 3) * 150`, which is not a number. */
  datatype TextRow = TextRow(
    id: string,
    labelText: string,
    value: string,
    delay: Option<int>,
    valueX: int,
    progress: Option<ProgressNode>)

  /** Animation delay, in milliseconds, of the row at `index`. */
  function StaggerDelay(index: int): (d: int)
    ensures index >= 0 ==> d >= 450
    ensures d % 150 == 0
  {
    (index + 3) * 150
  }

  /** Consecutive rows start 150 ms apart, so delays grow with the index. */
  lemma StaggerStep(i: int, j: int)
    ensures StaggerDelay(i + 1) == StaggerDelay(i) + 150
    ensures i <= j ==> StaggerDelay(i) <= StaggerDelay(j)
  {
  }

  /** Where the value text sits: right after the label when the bar is hidden,
      after the 220-wide bar otherwise. */
  const ValueXHidden: int := 170
  const ValueXWithBar: int := 350

  /** `createTextNode`. */
  function CreateTextNode(
    id: string, labelText: string, value: string, index: Option<int>, percent: real,
    hideProgress: bool, barColor: string, barBackground: string): (r: TextRow)
    ensures r.id == id && r.labelText == labelText && r.value == value
    ensures r.delay.Some? <==> index.Some?
    ensures index.Some? ==> r.delay.value == StaggerDelay(index.value)
    ensures r.progress.None? <==> hideProgress
    ensures r.valueX == ValueXHidden <==> hideProgress
    ensures r.valueX == ValueXHidden || r.valueX == ValueXWithBar
    ensures r.progress.Some? ==>
      r.progress.value == ProgressNode(110, 4, percent, barColor, 220, labelText, barBackground)
  {
    var bar := if hideProgress then None
      else Some(ProgressNode(110, 4, percent, barColor, 220, labelText, barBackground));
    var delay := if index.Some? then Some(StaggerDelay(index.value)) else None;
    TextRow(id, labelText, value, delay, if hideProgress then ValueXHidden else ValueXWithBar, bar)
  }
}
