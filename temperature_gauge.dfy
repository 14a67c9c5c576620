/** The temperature gauge: the three-way status of a reading against the
    optimal band, the marker position as a percentage of the scale, and the
    geometry of the highlighted optimal band. */
module TemperatureGauge {
  import opened Common

  /** An interval `{ min, max }` of degrees Celsius. */
  datatype Band = Band(min: real, max: real)

  /** The gauge's props after defaulting. */
  datatype GaugeProps = GaugeProps(value: real, min: real, max: real, optimal: Band)

  const DefaultMin: real := 0.0
  const DefaultMax: real := 10.0
  const DefaultOptimal: Band := Band(2.0, 6.0)

  /** Destructuring with defaults: an omitted prop takes its default. */
  function WithDefaults(value: real, min: Option<real>, max: Option<real>, optimal: Option<Band>): (props: GaugeProps)
    ensures props.value == value
    ensures props.min == (if min.Some? then min.value else 0.0)
    ensures props.max == (if max.Some? then max.value else 10.0)
    ensures props.optimal == (if optimal.Some? then optimal.value else Band(2.0, 6.0))
  {
    GaugeProps(value,
               match min case Some(m) => m case None => DefaultMin,
               match max case Some(m) => m case None => DefaultMax,
               match optimal case Some(o) => o case None => DefaultOptimal)
  }

  datatype Status = Low | Optimal | High

  /** The comparisons shared by the status colour and the status text. */
  function Classify(value: real, optimal: Band): (s: Status)
    ensures s == Low <==> value < optimal.min
    ensures s == High <==> optimal.min <= value && optimal.max < value
    ensures s == Optimal <==> optimal.min <= value <= optimal.max
  {
    if value < optimal.min then Low else if value > optimal.max then High else Optimal
  }

  function ColorOf(s: Status): string
  {
    match s
    case Low => "text-blue-500"
    case High => "text-red-500"
    case Optimal => "text-green-500"
  }

  function TextOf(s: Status): string
  {
    match s
    case Low => "Temperatura Baja"
    case High => "Temperatura Alta"
    case Optimal => "Temperatura Óptima"
  }

  /** The `let statusColor` if/else chain. */
  function StatusColor(value: real, optimal: Band): (color: string)
    ensures color == ColorOf(Classify(value, optimal))
  {
    if value < optimal.min then "text-blue-500"
    else if value > optimal.max then "text-red-500"
    else "text-green-500"
  }

  /** The status text's nested ternary. */
  function StatusText(value: real, optimal: Band): (text: string)
    ensures text == TextOf(Classify(value, optimal))
  {
    if value < optimal.min then "Temperatura Baja"
    else if value > optimal.max then "Temperatura Alta"
    else "Temperatura Óptima"
  }

  /** The text and the colour always name the same status. */
  lemma StatusTextAgreesWithColor(value: real, optimal: Band)
    ensures StatusText(value, optimal) == "Temperatura Baja" <==> StatusColor(value, optimal) == "text-blue-500"
    ensures StatusText(value, optimal) == "Temperatura Alta" <==> StatusColor(value, optimal) == "text-red-500"
    ensures StatusText(value, optimal) == "Temperatura Óptima" <==> StatusColor(value, optimal) == "text-green-500"
  {
  }

  /** Both ends of a non-empty band count as optimal. */
  lemma OptimalBoundsInclusive(optimal: Band)
    requires optimal.min <= optimal.max
    ensures Classify(optimal.min, optimal) == Optimal
    ensures Classify(optimal.max, optimal) == Optimal
  {
  }

  /** `((value - min) / (max - min)) * 100`; `None` stands for the
      non-finite number JavaScript produces when `max == min`. No clamping. */
  function Percentage(value: real, min: real, max: real): (pct: Option<real>)
    ensures pct.None? <==> max == min
    ensures pct.Some? ==> pct.value * (max - min) == (value - min) * 100.0
  {
    if max == min then None else Some(((value - min) / (max - min)) * 100.0)
  }

  /** 0 at the scale's minimum, 100 at its maximum. */
  lemma PercentageAtEnds(min: real, max: real)
    requires min != max
    ensures Percentage(min, min, max) == Some(0.0)
    ensures Percentage(max, min, max) == Some(100.0)
  {
    assert (max - min) / (max - min) == 1.0;
  }

  /** On an increasing scale the marker moves strictly with the reading and
      is not clamped: below the minimum it is negative, above the maximum it
      exceeds 100. */
  lemma PercentageMonotone(v1: real, v2: real, min: real, max: real)
    requires min < max
    ensures v1 < v2 ==> Percentage(v1, min, max).value < Percentage(v2, min, max).value
    ensures v1 < min ==> Percentage(v1, min, max).value < 0.0
    ensures v1 > max ==> Percentage(v1, min, max).value > 100.0
  {
    var d := max - min;
    var p1, p2 := Percentage(v1, min, max).value, Percentage(v2, min, max).value;
    assert p1 * d == (v1 - min) * 100.0;
    assert p2 * d == (v2 - min) * 100.0;
    if v1 < v2 {
      MulSub(p2, p1, d);
      PositiveFactor(p2 - p1, d, (v2 - v1) * 100.0);
    }
    if v1 < min {
      MulSub(0.0, p1, d);
      PositiveFactor(0.0 - p1, d, (min - v1) * 100.0);
    }
    if v1 > max {
      MulSub(p1, 100.0, d);
      assert 100.0 * d == max * 100.0 - min * 100.0;
      PositiveFactor(p1 - 100.0, d, (v1 - max) * 100.0);
    }
  }

  lemma MulSub(a: real, b: real, d: real)
    ensures (a - b) * d == a * d - b * d
  {
  }

  /** A product that is positive, with a positive factor, has a positive
      other factor. */
  lemma PositiveFactor(x: real, d: real, y: real)
    requires d > 0.0 && x * d == y && y > 0.0
    ensures x > 0.0
  {
    assert x == y / d;
  }

  /** The optimal band's `left` and `width`, in percent of the scale. */
  function OptimalBand(min: real, max: real, optimal: Band): (band: Option<(real, real)>)
    ensures band.None? <==> max == min
    ensures band.Some? ==>
              Percentage(optimal.min, min, max) == Some(band.value.0)
              && Percentage(optimal.max, min, max) == Some(band.value.0 + band.value.1)
  {
    if max == min then None
    else
      var left := ((optimal.min - min) / (max - min)) * 100.0;
      var width := ((optimal.max - optimal.min) / (max - min)) * 100.0;
      assert left + width == ((optimal.max - min) / (max - min)) * 100.0 by {
        DivAdd(optimal.min - min, optimal.max - optimal.min, max - min);
      }
      Some((left, width))
  }

  lemma DivAdd(a: real, b: real, d: real)
    requires d != 0.0
    ensures (a / d) * 100.0 + (b / d) * 100.0 == ((a + b) / d) * 100.0
  {
  }

  /** With the defaults the band spans 20% to 60% of the gauge. */
  lemma DefaultBandGeometry()
    ensures OptimalBand(DefaultMin, DefaultMax, DefaultOptimal) == Some((20.0, 40.0))
  {
  }
}
