/** The line chart's configuration logic: which y axis each line uses,
    which axes exist, and which value formatter the tooltip applies. */
module LineChart {
  import opened Common

  /** One entry of the `lines` prop; `yAxisId` is optional. */
  datatype LineConfig = LineConfig(dataKey: string, name: string, color: string, yAxisId: Option<string>)

  /** A rendered `<Line>`. */
  datatype LineElement = LineElement(dataKey: string, name: string, stroke: string, yAxisId: string)

  /** A rendered `<YAxis>`; `secondary` says which formatter labels its ticks. */
  datatype YAxis = YAxis(id: string, orientation: string, secondary: bool)

  /** `line.yAxisId || "left"`: an absent or empty id falls back to "left". */
  function AxisOf(line: LineConfig): (axis: string)
    ensures axis != ""
    ensures line.yAxisId.Some? && line.yAxisId.value != "" ==> axis == line.yAxisId.value
    ensures line.yAxisId == None || line.yAxisId == Some("") ==> axis == "left"
  {
    match line.yAxisId
    case Some(id) => if id != "" then id else "left"
    case None => "left"
  }

  /** `lines.find(line => line.dataKey === key)`. */
  function FindLine(lines: seq<LineConfig>, key: string): (found: Option<LineConfig>)
    ensures found.None? <==> forall i :: 0 <= i < |lines| ==> lines[i].dataKey != key
    ensures found.Some? ==>
              exists i :: 0 <= i < |lines| && lines[i] == found.value && lines[i].dataKey == key
                          && forall j :: 0 <= j < i ==> lines[j].dataKey != key
  {
    FindFirst(lines, (l: LineConfig) => l.dataKey == key)
  }

  /** The tooltip picks the secondary formatter iff the first line
      configured for the key has `yAxisId === "right"`. */
  predicate UsesSecondary(lines: seq<LineConfig>, key: string)
  {
    match FindLine(lines, key)
    case Some(line) => line.yAxisId == Some("right")
    case None => false
  }

  /** The tooltip `formatter`: the formatted value and the series name
      unchanged. */
  function TooltipFormat(lines: seq<LineConfig>, key: string, value: real, name: string,
                         formatValue: real -> string, formatSecondaryValue: real -> string): (shown: (string, string))
    ensures shown.1 == name
    ensures UsesSecondary(lines, key) ==> shown.0 == formatSecondaryValue(value)
    ensures !UsesSecondary(lines, key) ==> shown.0 == formatValue(value)
  {
    if UsesSecondary(lines, key) then (formatSecondaryValue(value), name) else (formatValue(value), name)
  }

  /** The tooltip uses the secondary formatter exactly when the first line
      with that key is drawn against the "right" axis; keys no line
      configures use the primary formatter. */
  lemma FormatterFollowsRenderedAxis(lines: seq<LineConfig>, key: string)
    ensures UsesSecondary(lines, key) <==>
              exists i :: 0 <= i < |lines| && lines[i].dataKey == key && AxisOf(lines[i]) == "right"
                          && forall j :: 0 <= j < i ==> lines[j].dataKey != key
    ensures (forall i :: 0 <= i < |lines| ==> lines[i].dataKey != key) ==> !UsesSecondary(lines, key)
  {
    var found := FindLine(lines, key);
    if found.Some? {
      var i :| 0 <= i < |lines| && lines[i] == found.value && lines[i].dataKey == key
               && forall j :: 0 <= j < i ==> lines[j].dataKey != key;
      // Any other first match is this one, so the two readings agree.
      forall k | 0 <= k < |lines| && lines[k].dataKey == key && forall j :: 0 <= j < k ==> lines[j].dataKey != key
        ensures k == i
      {
        assert !(k < i) && !(i < k);
      }
      assert AxisOf(found.value) == "right" <==> found.value.yAxisId == Some("right");
    }
  }

  /** The y axes: "left" always, "right" iff `showSecondaryAxis`. */
  function YAxes(showSecondaryAxis: bool): (axes: seq<YAxis>)
    ensures |axes| >= 1 && axes[0] == YAxis("left", "left", false)
    ensures (exists i :: 0 <= i < |axes| && axes[i].id == "right") <==> showSecondaryAxis
    ensures forall i :: 0 <= i < |axes| ==> axes[i].id == axes[i].orientation
                                            && (axes[i].secondary <==> axes[i].id == "right")
  {
    if showSecondaryAxis then
      var axes := [YAxis("left", "left", false), YAxis("right", "right", true)];
      assert axes[1].id == "right";
      axes
    else
      [YAxis("left", "left", false)]
  }

  /** Exactly one rendered line per configuration entry, in declared order,
      each on its defaulted axis. */
  function LineElements(lines: seq<LineConfig>): (els: seq<LineElement>)
    ensures |els| == |lines|
    ensures forall i :: 0 <= i < |lines| ==>
              els[i] == LineElement(lines[i].dataKey, lines[i].name, lines[i].color, AxisOf(lines[i]))
  {
    if lines == [] then []
    else [LineElement(lines[0].dataKey, lines[0].name, lines[0].color, AxisOf(lines[0]))] + LineElements(lines[1..])
  }
}
