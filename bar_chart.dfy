/** The bar chart's data shaping: the range window over the series, the
    series-key to display-name map used by the tooltip, the bars it draws
    and the week-range subtitle. Rendering itself is out of the model. */
module BarChart {
  import opened Common

  /** One entry of the `bars` prop. */
  datatype BarConfig = BarConfig(dataKey: string, name: string, color: string)

  /** A rendered `<Bar>`: its key, legend name, fill and stack id. */
  datatype BarElement = BarElement(dataKey: string, name: string, fill: string, stackId: Option<string>)

  /** The slider's initial value and its bounds (one step per week). */
  const InitialWeeks: int := 4
  const SliderMin: int := 2
  const SliderMax: int := 12

  function Max(a: int, b: int): int { if a >= b then a else b }
  function Min(a: int, b: int): int { if a <= b then a else b }

  /** The series actually drawn: with range filtering on and a non-empty
      series, `data.slice(max(0, |data| - weeks), |data|)` (a start past the
      end gives the empty slice, as in JavaScript); otherwise `data` itself. */
  function RangeWindow<T>(data: seq<T>, weeks: int, filterByRange: bool): (shown: seq<T>)
    ensures |shown| <= |data|
    ensures shown == data[|data| - |shown|..]
    ensures filterByRange && weeks >= 0 ==> |shown| == Min(weeks, |data|)
    ensures filterByRange && weeks <= 0 ==> shown == []
    ensures !filterByRange || data == [] ==> shown == data
  {
    if filterByRange && |data| > 0 then
      var start := Max(0, |data| - weeks);
      if start <= |data| then data[start..] else []
    else
      data
  }

  /** `namesMap` as a fold from the left: a later bar with the same
      `dataKey` overwrites an earlier one. */
  ghost function NamesMapOf(bars: seq<BarConfig>): map<string, string>
  {
    if bars == [] then map[]
    else NamesMapOf(bars[..|bars| - 1])[bars[|bars| - 1].dataKey := bars[|bars| - 1].name]
  }

  /** The `reduce` that builds `namesMap` by writing into an accumulator. */
  method BuildNamesMap(bars: seq<BarConfig>) returns (acc: map<string, string>)
    ensures acc == NamesMapOf(bars)
  {
    acc := map[];
    for i := 0 to |bars|
      invariant acc == NamesMapOf(bars[..i])
    {
      assert bars[..i + 1][..i] == bars[..i];
      acc := acc[bars[i].dataKey := bars[i].name];
    }
    assert bars[..|bars|] == bars;
  }

  /** The map's keys are exactly the configured data keys. */
  lemma {:induction false} NamesMapKeys(bars: seq<BarConfig>)
    ensures NamesMapOf(bars).Keys == set i | 0 <= i < |bars| :: bars[i].dataKey
  {
    if bars != [] {
      var init := bars[..|bars| - 1];
      NamesMapKeys(init);
      assert forall i :: 0 <= i < |init| ==> init[i] == bars[i];
      assert (set i | 0 <= i < |bars| :: bars[i].dataKey)
          == (set i | 0 <= i < |init| :: init[i].dataKey) + {bars[|bars| - 1].dataKey};
    }
  }

  /** A key maps to the name of the LAST bar carrying it. */
  lemma {:induction false} NamesMapLastWins(bars: seq<BarConfig>, i: int)
    requires 0 <= i < |bars|
    requires forall j :: i < j < |bars| ==> bars[j].dataKey != bars[i].dataKey
    ensures bars[i].dataKey in NamesMapOf(bars)
    ensures NamesMapOf(bars)[bars[i].dataKey] == bars[i].name
  {
    if i < |bars| - 1 {
      var init := bars[..|bars| - 1];
      assert init[i] == bars[i];
      NamesMapLastWins(init, i);
    }
  }

  /** The tooltip label: `namesMap[dataKey] || entry.name`. */
  function TooltipLabel(namesMap: map<string, string>, entryKey: string, entryName: string): (caption: string)
    ensures entryKey in namesMap && namesMap[entryKey] != "" ==> caption == namesMap[entryKey]
    ensures entryKey !in namesMap || namesMap[entryKey] == "" ==> caption == entryName
  {
    if entryKey in namesMap && namesMap[entryKey] != "" then namesMap[entryKey] else entryName
  }

  /** Configured series show their configured (last, non-empty) name; keys
      that no bar configures, or whose name is empty, show the entry's own name. */
  lemma TooltipLabelOfBars(bars: seq<BarConfig>, entryKey: string, entryName: string)
    ensures forall i :: 0 <= i < |bars| && bars[i].dataKey == entryKey && bars[i].name != ""
                        && (forall j :: i < j < |bars| ==> bars[j].dataKey != entryKey)
                        ==> TooltipLabel(NamesMapOf(bars), entryKey, entryName) == bars[i].name
    ensures forall i :: 0 <= i < |bars| && bars[i].dataKey == entryKey && bars[i].name == ""
                        && (forall j :: i < j < |bars| ==> bars[j].dataKey != entryKey)
                        ==> TooltipLabel(NamesMapOf(bars), entryKey, entryName) == entryName
    ensures (forall i :: 0 <= i < |bars| ==> bars[i].dataKey != entryKey)
            ==> TooltipLabel(NamesMapOf(bars), entryKey, entryName) == entryName
  {
    forall i | 0 <= i < |bars| && bars[i].dataKey == entryKey
               && (forall j :: i < j < |bars| ==> bars[j].dataKey != entryKey)
    {
      NamesMapLastWins(bars, i);
    }
    NamesMapKeys(bars);
  }

  /** The bars drawn: one per configuration entry, in configuration order,
      all sharing stack id "a" when stacked and none otherwise. */
  function BarElements(bars: seq<BarConfig>, stacked: bool): (els: seq<BarElement>)
    ensures |els| == |bars|
    ensures forall i :: 0 <= i < |bars| ==>
              els[i].dataKey == bars[i].dataKey && els[i].name == bars[i].name && els[i].fill == bars[i].color
    ensures forall i :: 0 <= i < |els| ==> els[i].stackId == if stacked then Some("a") else None
  {
    if bars == [] then []
    else
      [BarElement(bars[0].dataKey, bars[0].name, bars[0].color, if stacked then Some("a") else None)]
      + BarElements(bars[1..], stacked)
  }

  /** The subtitle `Semanas <first> a <last>` over the shown series, with
      `show` the template-literal conversion of a value; empty when
      filtering is off or nothing is shown. */
  function WeekRange(filterByRange: bool, shown: seq<Record>, xAxisDataKey: string, show: Value -> string): (subtitle: string)
    ensures subtitle == "" <==> !filterByRange || shown == []
    ensures subtitle != "" ==>
              subtitle == "Semanas " + show(Lookup(shown[0], xAxisDataKey)) + " a "
                          + show(Lookup(shown[|shown| - 1], xAxisDataKey))
  {
    if filterByRange && |shown| > 0 then
      "Semanas " + show(Lookup(shown[0], xAxisDataKey)) + " a " + show(Lookup(shown[|shown| - 1], xAxisDataKey))
    else
      ""
  }

  /** Over a window of `weeks` >= 1 weeks, the subtitle spans the element
      `min(weeks, |data|)` from the end up to the last element of the data. */
  lemma WeekRangeOfWindow(data: seq<Record>, weeks: int, xAxisDataKey: string, show: Value -> string)
    requires data != [] && weeks >= 1
    ensures var shown := RangeWindow(data, weeks, true);
            WeekRange(true, shown, xAxisDataKey, show)
            == "Semanas " + show(Lookup(data[|data| - Min(weeks, |data|)], xAxisDataKey)) + " a "
               + show(Lookup(data[|data| - 1], xAxisDataKey))
  {
    var shown := RangeWindow(data, weeks, true);
    assert shown[0] == data[|data| - Min(weeks, |data|)];
    assert shown[|shown| - 1] == data[|data| - 1];
  }

  /** The chart's state: the slider value and the series last produced by
      the filtering effect. */
  class RangeFilter {
    var weeksToShow: int
    var filteredData: seq<Record>

    /** The slider only ever produces whole weeks within its bounds. */
    ghost predicate Valid()
      reads this
    {
      SliderMin <= weeksToShow <= SliderMax
    }

    /** `useState(4)` and `useState(data)`. */
    constructor (data: seq<Record>)
      ensures Valid()
      ensures weeksToShow == InitialWeeks && filteredData == data
    {
      weeksToShow := InitialWeeks;
      filteredData := data;
    }

    /** The slider's `onValueChange`: it reports one integer in [2, 12]. */
    method OnSliderChange(vals: seq<int>)
      requires Valid()
      requires |vals| > 0 && SliderMin <= vals[0] <= SliderMax
      modifies this`weeksToShow
      ensures Valid()
      ensures weeksToShow == vals[0]
    {
      weeksToShow := vals[0];
    }

    /** The effect that re-derives `filteredData` from the props and the
      slider value. */
    method RunFilterEffect(data: seq<Record>, filterByRange: bool)
      requires Valid()
      modifies this`filteredData
      ensures Valid()
      ensures filteredData == RangeWindow(data, weeksToShow, filterByRange)
      ensures filterByRange ==> |filteredData| == Min(weeksToShow, |data|)
      ensures filterByRange && |data| >= SliderMin ==> |filteredData| >= SliderMin
    {
      filteredData := RangeWindow(data, weeksToShow, filterByRange);
    }
  }
}
