/** The symptom trend chart (client/src/components/SymptonChart.jsx): the
    `chartData` handed to the line chart, projected from the data points. */
module SymptomChart {
  import opened Base

  datatype Point = Point(labelText: string, value: real)

  /** The single series and its styling. */
  datatype Dataset = Dataset(
    seriesLabel: string,
    data: seq<real>,
    borderColor: string,
    backgroundColor: string,
    tension: real,
    fill: bool)

  datatype ChartData = ChartData(labels: seq<string>, datasets: seq<Dataset>)

  function Label(p: Point): string { p.labelText }

  function Value(p: Point): real { p.value }

  /** Parallel label and value columns: `data.map(d => d.label)` and
      `data.map(d => d.value)` in one dataset. */
  function Chart(data: seq<Point>): (c: ChartData)
    ensures |c.datasets| == 1
    ensures |c.labels| == |c.datasets[0].data| == |data|
    ensures forall i :: 0 <= i < |data| ==> c.labels[i] == data[i].labelText && c.datasets[0].data[i] == data[i].value
  {
    ChartData(
      MapSeq(Label, data),
      [Dataset("Cholera Cases", MapSeq(Value, data), "#00F2E5", "rgba(0, 242, 229, 0.15)", 0.4, true)])
  }

  /** Pairs labels with values again. */
  function Zip(labels: seq<string>, values: seq<real>): (ps: seq<Point>)
    requires |labels| == |values|
  {
    seq(|labels|, i requires 0 <= i < |labels| => Point(labels[i], values[i]))
  }

  /** The chart loses nothing: zipping its columns gives back the points in
      their original order. */
  lemma ChartRoundTrip(data: seq<Point>)
    ensures var c := Chart(data); Zip(c.labels, c.datasets[0].data) == data
  {
  }
}
