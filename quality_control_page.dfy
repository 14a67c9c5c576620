/** The quality-control page: the demo-data generator (with each random
    draw taken as an input within its declared bounds), the facility (CEDIS)
    filter, the row-expansion map and the average-temperature colour rule. */
module QualityControlPage {
  import opened Common
  import TemperatureGauge

  datatype Cedis = Cedis(id: string, name: string)

  /** The facility selector's entries; "all" is the catch-all entry. */
  const CedisList: seq<Cedis> := [
    Cedis("all", "Todos"),
    Cedis("cedis1", "CEDIS Norte"),
    Cedis("cedis2", "CEDIS Sur"),
    Cedis("cedis3", "CEDIS Centro"),
    Cedis("cedis4", "CEDIS Oeste")
  ]

  /** `cedisList.filter(c => c.id !== "all")`, the list vehicles are assigned from. */
  function RealCedis(): (facilities: seq<Cedis>)
    ensures forall i :: 0 <= i < |facilities| ==> facilities[i].id != "all" && facilities[i] in CedisList
  {
    var r := Filter(CedisList, IsRealCedis);
    forall i | 0 <= i < |r| ensures r[i] in CedisList {
      FilterMembership(CedisList, IsRealCedis, r[i]);
    }
    r
  }

  predicate IsRealCedis(c: Cedis) { c.id != "all" }

  lemma RealCedisAreTheFour()
    ensures RealCedis() == CedisList[1..]
  {
    var facilities := CedisList[1..];
    assert facilities == [CedisList[1], CedisList[2], CedisList[3], CedisList[4]];
    assert !IsRealCedis(CedisList[0]) && CedisList[1..] == facilities;
    assert Filter(CedisList, IsRealCedis) == Filter(facilities, IsRealCedis);
    FilterAll(facilities, IsRealCedis);
  }

  const VehicleCount: nat := 15
  const TimelineDays: nat := 28
  const MaxIncidents: nat := 8
  /** The cold-chain threshold the incident sub-table is about. */
  const Threshold: real := 6.0

  const VehicleKinds: seq<string> := ["Refrigerado", "Congelado", "Mixto"]
  const VehicleStatuses: seq<string> := ["Óptimo", "Advertencia", "Alerta"]
  const IncidentDetails: seq<string> := [
    "Puerta abierta durante descarga",
    "Falla en sistema de refrigeración",
    "Demora prolongada en entrega",
    "Carga incorrecta de producto"
  ]

  datatype Incident = Incident(id: string, date: string, time: string, temperature: real,
                               location: string, client: string, details: string)

  datatype Vehicle = Vehicle(id: string, numEco: string, kind: string, status: string,
                             incidentCount: int, minTemp: real, maxTemp: real, avgTemp: real,
                             cedis: string, incidents: seq<Incident>)

  /** One day of the temperature timeline; `day` is a day number. */
  datatype TimelinePoint = TimelinePoint(day: int, avgTemp: real, minTemp: real, maxTemp: real)

  datatype Kpis = Kpis(deliveriesBelow6C: int, deliveriesAbove6C: int, averageTemperature: real)

  datatype MockData = MockData(vehicles: seq<Vehicle>, temperatureTimeline: seq<TimelinePoint>, kpis: Kpis)

  /** The random draws behind one incident: the formatted date and time, the
      temperature, the city, the company and an index into the details list. */
  datatype IncidentDraw = IncidentDraw(date: string, time: string, temperature: real,
                                       location: string, client: string, detail: nat)

  /** The random draws behind one vehicle; list choices are indices. An
      endless supply of incident draws is cut to `incidentCount`. */
  datatype VehicleDraw = VehicleDraw(kind: nat, status: nat, incidentCount: int,
                                     minTemp: real, maxTemp: real, avgTemp: real,
                                     cedis: nat, incidents: seq<IncidentDraw>)

  datatype TimelineDraw = TimelineDraw(avgTemp: real, minTemp: real, maxTemp: real)

  datatype Draws = Draws(vehicles: seq<VehicleDraw>, timeline: seq<TimelineDraw>, kpis: Kpis)

  predicate Within(x: real, lo: real, hi: real) { lo <= x <= hi }

  /** The bounds each `faker` call declares. */
  predicate IncidentDrawOk(d: IncidentDraw)
  {
    Within(d.temperature, 6.1, 10.5) && d.detail < |IncidentDetails|
  }

  predicate VehicleDrawOk(d: VehicleDraw)
  {
    && d.kind < |VehicleKinds| && d.status < |VehicleStatuses|
    && 0 <= d.incidentCount <= MaxIncidents
    && Within(d.minTemp, 1.5, 5.0) && Within(d.maxTemp, 5.5, 10.5) && Within(d.avgTemp, 3.5, 7.0)
    && d.cedis < |RealCedis()|
    && d.incidentCount <= |d.incidents|
    && forall j :: 0 <= j < |d.incidents| ==> IncidentDrawOk(d.incidents[j])
  }

  predicate TimelineDrawOk(d: TimelineDraw)
  {
    Within(d.avgTemp, 2.0, 6.0) && Within(d.minTemp, 1.5, 3.5) && Within(d.maxTemp, 4.5, 6.5)
  }

  predicate KpisOk(k: Kpis)
  {
    180 <= k.deliveriesBelow6C <= 220 && 10 <= k.deliveriesAbove6C <= 40 && Within(k.averageTemperature, 2.5, 5.8)
  }

  predicate DrawsOk(d: Draws)
  {
    && |d.vehicles| == VehicleCount && (forall i :: 0 <= i < |d.vehicles| ==> VehicleDrawOk(d.vehicles[i]))
    && |d.timeline| == TimelineDays && (forall i :: 0 <= i < |d.timeline| ==> TimelineDrawOk(d.timeline[i]))
    && KpisOk(d.kpis)
  }

  /** `V-${1000 + i}`: "V-" followed by the decimal digits of 1000 + i. */
  function VehicleId(i: nat): (id: string)
    ensures |id| >= 4 && id[..2] == "V-"
    ensures forall k :: 2 <= k < |id| ==> '0' <= id[k] <= '9'
  {
    var digits := NatToString(1000 + i);
    var id := "V-" + digits;
    assert forall k :: 2 <= k < |id| ==> id[k] == digits[k - 2];
    id
  }

  /** Different positions give different vehicle ids. */
  lemma VehicleIdInjective(i: nat, j: nat)
    requires VehicleId(i) == VehicleId(j)
    ensures i == j
  {
    assert VehicleId(i)[2..] == NatToString(1000 + i);
    assert VehicleId(j)[2..] == NatToString(1000 + j);
    NatToStringInjective(1000 + i, 1000 + j);
  }

  function DetailOf(d: IncidentDraw): string
    requires IncidentDrawOk(d)
  {
    IncidentDetails[d.detail]
  }

  /** The incident list a vehicle with `count` incidents receives. */
  function MakeIncidents(i: nat, draws: seq<IncidentDraw>, count: nat): (incidents: seq<Incident>)
    requires count <= |draws|
    requires forall j :: 0 <= j < |draws| ==> IncidentDrawOk(draws[j])
    ensures |incidents| == count
    ensures forall j :: 0 <= j < count ==> incidents[j].temperature == draws[j].temperature
                                            && incidents[j].details == DetailOf(draws[j])
  {
    seq(count, j requires 0 <= j < count =>
      Incident("INC-" + NatToString(i) + "-" + NatToString(j), draws[j].date, draws[j].time,
               draws[j].temperature, draws[j].location, draws[j].client, DetailOf(draws[j])))
  }

  /** The vehicle built at position `i`; its incident list stays empty
      unless `incidentCount > 0`. */
  function MakeVehicle(i: nat, d: VehicleDraw): (v: Vehicle)
    requires VehicleDrawOk(d)
    ensures v.id == VehicleId(i) && v.numEco == "ECO-" + NatToString(1000 + i)
    ensures v.kind == VehicleKinds[d.kind] && v.status == VehicleStatuses[d.status]
    ensures v.minTemp == d.minTemp && v.maxTemp == d.maxTemp && v.avgTemp == d.avgTemp
    ensures v.cedis == RealCedis()[d.cedis].id
    ensures v.incidentCount == d.incidentCount && |v.incidents| == v.incidentCount
    ensures forall j :: 0 <= j < |v.incidents| ==> Threshold < v.incidents[j].temperature <= 10.5
  {
    var v := Vehicle(VehicleId(i), "ECO-" + NatToString(1000 + i), VehicleKinds[d.kind], VehicleStatuses[d.status],
                     d.incidentCount, d.minTemp, d.maxTemp, d.avgTemp, RealCedis()[d.cedis].id, []);
    if v.incidentCount > 0 then v.(incidents := MakeIncidents(i, d.incidents, d.incidentCount)) else v
  }

  /** The fifteen vehicles, before the facility filter. */
  function AllVehicles(draws: Draws): (vs: seq<Vehicle>)
    requires DrawsOk(draws)
    ensures |vs| == VehicleCount
    ensures forall i :: 0 <= i < |vs| ==> vs[i] == MakeVehicle(i, draws.vehicles[i])
  {
    seq(VehicleCount, i requires 0 <= i < VehicleCount => MakeVehicle(i, draws.vehicles[i]))
  }

  /** The facility filter: "all" keeps every vehicle, any other id keeps the
      vehicles assigned to it. */
  function FilterByCedis(vehicles: seq<Vehicle>, cedisFilter: string): (shown: seq<Vehicle>)
    ensures cedisFilter == "all" ==> shown == vehicles
    ensures cedisFilter != "all" ==> forall i :: 0 <= i < |shown| ==> shown[i].cedis == cedisFilter
    ensures IsSubsequence(shown, vehicles)
  {
    if cedisFilter != "all" then
      FilterIsSubsequence(vehicles, (v: Vehicle) => v.cedis == cedisFilter);
      Filter(vehicles, (v: Vehicle) => v.cedis == cedisFilter)
    else
      SubsequenceRefl(vehicles);
      vehicles
  }

  /** A facility other than "all" shows each vehicle assigned to it, and no
      other vehicle. */
  lemma FacilityFilterExact(vehicles: seq<Vehicle>, cedisFilter: string, v: Vehicle)
    requires cedisFilter != "all"
    ensures multiset(FilterByCedis(vehicles, cedisFilter))[v] == if v.cedis == cedisFilter then multiset(vehicles)[v] else 0
  {
    FilterMultiset(vehicles, (x: Vehicle) => x.cedis == cedisFilter, v);
  }

  /** The 28-day timeline ending today (`today` is a day number). */
  function Timeline(today: int, draws: seq<TimelineDraw>): (points: seq<TimelinePoint>)
    requires |draws| == TimelineDays
    ensures |points| == TimelineDays
    ensures forall i :: 0 <= i < |points| ==>
              points[i] == TimelinePoint(today - 27 + i, draws[i].avgTemp, draws[i].minTemp, draws[i].maxTemp)
  {
    seq(TimelineDays, i requires 0 <= i < TimelineDays =>
      TimelinePoint(today - 27 + i, draws[i].avgTemp, draws[i].minTemp, draws[i].maxTemp))
  }

  /** What every generated vehicle satisfies: assigned to one of the four
      real facilities (never "all"), at most eight incidents, exactly
      `incidentCount` of them listed, each above the threshold. */
  predicate GeneratedShape(v: Vehicle)
  {
    && v.cedis in {"cedis1", "cedis2", "cedis3", "cedis4"} && v.cedis != "all"
    && 0 <= v.incidentCount <= MaxIncidents && |v.incidents| == v.incidentCount
    && (forall j :: 0 <= j < |v.incidents| ==> Threshold < v.incidents[j].temperature)
  }

  lemma AllVehiclesShape(draws: Draws, k: int)
    requires DrawsOk(draws) && 0 <= k < VehicleCount
    ensures GeneratedShape(AllVehicles(draws)[k])
  {
    RealCedisAreTheFour();
    var d := draws.vehicles[k];
    assert VehicleDrawOk(d);
    assert AllVehicles(draws)[k].cedis == CedisList[1..][d.cedis].id;
  }

  /** `generateMockData(cedisFilter)`. */
  function GenerateMockData(cedisFilter: string, today: int, draws: Draws): (data: MockData)
    requires DrawsOk(draws)
    ensures cedisFilter == "all" ==> |data.vehicles| == VehicleCount
    ensures IsSubsequence(data.vehicles, AllVehicles(draws))
    ensures forall k :: 0 <= k < |data.vehicles| ==> GeneratedShape(data.vehicles[k])
    ensures cedisFilter != "all" ==> forall k :: 0 <= k < |data.vehicles| ==> data.vehicles[k].cedis == cedisFilter
    ensures forall i :: 0 <= i < VehicleCount && AllVehicles(draws)[i].cedis == cedisFilter ==> AllVehicles(draws)[i] in data.vehicles
    ensures data.vehicles == FilterByCedis(AllVehicles(draws), cedisFilter)
    ensures data.temperatureTimeline == Timeline(today, draws.timeline)
    ensures data.temperatureTimeline[TimelineDays - 1].day == today
    ensures data.kpis == draws.kpis && KpisOk(data.kpis)
  {
    var all := AllVehicles(draws);
    var shown := FilterByCedis(all, cedisFilter);
    forall k | 0 <= k < |shown|
      ensures GeneratedShape(shown[k])
    {
      SubsequenceMember(shown, all, k);
      var i :| 0 <= i < |all| && all[i] == shown[k];
      AllVehiclesShape(draws, i);
    }
    forall i | 0 <= i < VehicleCount && all[i].cedis == cedisFilter && cedisFilter != "all"
      ensures all[i] in shown
    {
      FacilityFilterExact(all, cedisFilter, all[i]);
      assert all[i] in multiset(all);
    }
    MockData(shown, Timeline(today, draws.timeline), draws.kpis)
  }

  /** The facility filter reaches the vehicles only: the timeline and the
      KPIs come out the same whatever facility is selected. */
  lemma KpisIgnoreFacility(f1: string, f2: string, today: int, draws: Draws)
    requires DrawsOk(draws)
    ensures GenerateMockData(f1, today, draws).kpis == GenerateMockData(f2, today, draws).kpis
    ensures GenerateMockData(f1, today, draws).temperatureTimeline == GenerateMockData(f2, today, draws).temperatureTimeline
  {
  }

  /** The generated vehicles carry pairwise distinct ids, so a row's
      expansion flag belongs to one vehicle. */
  lemma GeneratedIdsDistinct(draws: Draws, i: int, j: int)
    requires DrawsOk(draws)
    requires 0 <= i < j < VehicleCount
    ensures AllVehicles(draws)[i].id != AllVehicles(draws)[j].id
  {
    if AllVehicles(draws)[i].id == AllVehicles(draws)[j].id {
      VehicleIdInjective(i, j);
    }
  }

  /** `!!expandedRows[id]`: an absent entry reads as collapsed. */
  function IsExpanded(expanded: map<string, bool>, id: string): (open: bool)
    ensures id !in expanded ==> !open
    ensures id in expanded ==> open == expanded[id]
  {
    id in expanded && expanded[id]
  }

  /** `{ ...prev, [id]: !prev[id] }`. */
  function Toggle(expanded: map<string, bool>, id: string): (next: map<string, bool>)
    ensures IsExpanded(next, id) == !IsExpanded(expanded, id)
    ensures next.Keys == expanded.Keys + {id}
    ensures forall k :: k in expanded && k != id ==> next[k] == expanded[k]
  {
    expanded[id := !IsExpanded(expanded, id)]
  }

  /** Toggling a row twice restores how every row reads. */
  lemma ToggleTwice(expanded: map<string, bool>, id: string, k: string)
    ensures IsExpanded(Toggle(Toggle(expanded, id), id), k) == IsExpanded(expanded, k)
  {
  }

  /** The red / blue / green class for an average temperature. */
  function AvgTempColor(avgTemp: real): (cls: string)
    ensures avgTemp > Threshold ==> cls == "text-red-500 font-medium"
    ensures avgTemp < 2.0 ==> cls == "text-blue-500 font-medium"
    ensures 2.0 <= avgTemp <= Threshold ==> cls == "text-green-500 font-medium"
  {
    if avgTemp > 6.0 then "text-red-500 font-medium"
    else if avgTemp < 2.0 then "text-blue-500 font-medium"
    else "text-green-500 font-medium"
  }

  /** The table colours agree with the gauge's status for its default band. */
  lemma AvgTempColorMatchesGauge(avgTemp: real)
    ensures AvgTempColor(avgTemp) == "text-red-500 font-medium"
            <==> TemperatureGauge.Classify(avgTemp, TemperatureGauge.DefaultOptimal) == TemperatureGauge.High
    ensures AvgTempColor(avgTemp) == "text-blue-500 font-medium"
            <==> TemperatureGauge.Classify(avgTemp, TemperatureGauge.DefaultOptimal) == TemperatureGauge.Low
  {
  }

  /** The first cell of a vehicle's row. */
  datatype ExpandCell = Chevron(down: bool) | Dash

  /** A chevron button for a vehicle with incidents, pointing down while its
      row is expanded; a dash for a vehicle without incidents. */
  function ExpandControl(expanded: map<string, bool>, v: Vehicle): (cell: ExpandCell)
    ensures cell.Chevron? <==> v.incidentCount > 0
    ensures cell.Chevron? ==> (cell.down <==> IsExpanded(expanded, v.id))
  {
    if v.incidentCount > 0 then Chevron(IsExpanded(expanded, v.id)) else Dash
  }

  /** Clicking a row's button flips its chevron and leaves every other
      vehicle's cell as it was. */
  lemma ToggleFlipsChevron(expanded: map<string, bool>, v: Vehicle, w: Vehicle)
    requires v.incidentCount > 0
    ensures ExpandControl(Toggle(expanded, v.id), v) == Chevron(!ExpandControl(expanded, v).down)
    ensures w.id != v.id ==> ExpandControl(Toggle(expanded, v.id), w) == ExpandControl(expanded, w)
  {
    if w.id != v.id {
      assert IsExpanded(Toggle(expanded, v.id), w.id) == IsExpanded(expanded, w.id);
    }
  }

  /** The incident sub-table under a row: the vehicle's incidents, in
      order, shown only while the row is expanded and has incidents. */
  function IncidentSubTable(expanded: map<string, bool>, v: Vehicle): (rows: Option<seq<Incident>>)
    ensures rows.Some? <==> IsExpanded(expanded, v.id) && |v.incidents| > 0
    ensures rows.Some? ==> rows.value == v.incidents
  {
    if IsExpanded(expanded, v.id) && |v.incidents| > 0 then Some(v.incidents) else None
  }

  /** For generated vehicles a sub-table never appears without its button,
      and the button then points down. */
  lemma IncidentTableNeedsControl(draws: Draws, cedisFilter: string, today: int, expanded: map<string, bool>, k: int)
    requires DrawsOk(draws)
    requires 0 <= k < |GenerateMockData(cedisFilter, today, draws).vehicles|
    ensures IncidentSubTable(expanded, GenerateMockData(cedisFilter, today, draws).vehicles[k]).Some?
            ==> ExpandControl(expanded, GenerateMockData(cedisFilter, today, draws).vehicles[k]) == Chevron(true)
  {
  }

  /** The page's state: selected facility, current data, expanded rows. */
  class QualityPage {
    var selectedCedis: string
    var mockData: MockData
    var expandedRows: map<string, bool>

    constructor (today: int, draws: Draws)
      requires DrawsOk(draws)
      ensures selectedCedis == "all"
      ensures mockData == GenerateMockData("all", today, draws)
      ensures expandedRows == map[]
    {
      selectedCedis := "all";
      mockData := GenerateMockData("all", today, draws);
      expandedRows := map[];
    }

    /** `handleCedisChange`: select, regenerate with fresh draws, collapse all. */
    method HandleCedisChange(value: string, today: int, draws: Draws)
      requires DrawsOk(draws)
      modifies this
      ensures selectedCedis == value
      ensures mockData == GenerateMockData(value, today, draws)
      ensures expandedRows == map[]
    {
      selectedCedis := value;
      mockData := GenerateMockData(value, today, draws);
      expandedRows := map[];
    }

    /** `toggleRowExpansion`: flips one row, leaves every other row alone. */
    method ToggleRowExpansion(vehicleId: string)
      modifies this`expandedRows
      ensures expandedRows == Toggle(old(expandedRows), vehicleId)
      ensures IsExpanded(expandedRows, vehicleId) == !IsExpanded(old(expandedRows), vehicleId)
      ensures forall k :: k != vehicleId ==> IsExpanded(expandedRows, k) == IsExpanded(old(expandedRows), k)
    {
      expandedRows := expandedRows[vehicleId := !IsExpanded(expandedRows, vehicleId)];
    }
  }
}
