# Fleet dashboard core, modelled in Dafny

The flota dashboard is a React single-page application. It has financial, operational, quality-control, executive-action and agenda pages. Almost all of it is markup. This project models the decision logic inside those components and proves it:

- the bar chart's range window, its series-name map and its tooltip label fallback;
- the line chart's axis defaulting and formatter choice;
- the temperature gauge's three-way status, marker percentage and optimal-band geometry;
- the alerts list's severity tabs and badge counts;
- the quality page: the demo-data generator (every random draw is an input within its declared bounds), the facility (CEDIS) filter, row expansion and the colour rules;
- the agenda's date and event selection and its `accion` URL parameter;
- the actions page's form record, with its per-field handlers and its reset;
- the registration handler: the order of its checks, its loading flag and its messages;
- the two drill-down dialogs (the financial one formats pesos, the operational one hides "color");
- the generic data table, the theme context and the sidebar.

There is one module per source file: `BarChart`, `LineChart`, `TemperatureGauge`, `AlertsList`, `QualityControlPage`, `AgendaPage`, `AccionesPage`, `Register`, `FinancieroPage`, `OperativoPage`, `DataTable`, `ThemeContext` and `Sidebar`.

Three modules are shared:
- `DrillDown` holds the dialog state, which both pages write the same way.
- `MockData` holds the sample fixtures, used as concrete values.
- `Common` holds option values, JavaScript-like records, a generic `filter`/`find` with its subsequence lemmas, decimal printing and capitalisation.

Modelling choices:
- A component's state becomes a class whose methods are its handlers.
- Pure rules become functions with their properties as `ensures` clauses and lemmas.
- A JavaScript object read by key becomes a `seq<Field>`; looking up a key returns the first match, or `Undefined`.
- Calendar dates are day numbers counted from 1 January 2023 (day 1); 20 May 2023 is day 140.
- Money counts and temperatures are `int` and `real`.
- Library calls (`toLocaleString`, `parseInt`, the sign-up service) are parameters of the functions that use them. Their results are inputs.

The quality page's KPIs and timeline do not follow the facility filter: they are drawn without reference to it, and `QualityControlPage.KpisIgnoreFacility` proves it. The model also keeps four other behaviours of the code as they are:
- the `||` fallbacks on empty names and axis ids;
- the sample event whose `accionId` 4 names no action;
- the "Incidencias" card, which reads a KPI field that the sample object lacks;
- the two estado colour tables, which disagree on "pendiente".

## Model

| member | source | states |
|---|---|---|
| BarChart.RangeWindow | src/components/charts/BarChart.tsx:57-65 | The shown series is a suffix of the data; with filtering on it has min(N, length) elements, and none for N <= 0; with filtering off or empty data it is the data unchanged |
| BarChart.BuildNamesMap | src/components/charts/BarChart.tsx:51-54 | The accumulator loop builds exactly the left-to-right fold of the bars into key-to-name entries |
| BarChart.NamesMapKeys | src/components/charts/BarChart.tsx:51-54 | The map's keys are exactly the configured data keys |
| BarChart.NamesMapLastWins | src/components/charts/BarChart.tsx:51-54 | On duplicate keys the last bar carrying a key gives its name |
| BarChart.TooltipLabel | src/components/charts/BarChart.tsx:81 | The label is the mapped name when present and non-empty, else the entry's own name |
| BarChart.TooltipLabelOfBars | src/components/charts/BarChart.tsx:51-81 | A configured key shows the last bar's name when that name is non-empty, and the entry name when it is empty; an unconfigured key shows the entry name |
| BarChart.BarElements | src/components/charts/BarChart.tsx:140-147 | One bar per configuration entry, in order, with its key, name and colour; all get stack id "a" when stacked and none otherwise |
| BarChart.WeekRange | src/components/charts/BarChart.tsx:91-93 | The subtitle is empty iff filtering is off or nothing is shown; otherwise it names the first and last shown x values |
| BarChart.WeekRangeOfWindow | src/components/charts/BarChart.tsx:58-93 | Over a window of N >= 1 weeks, the subtitle runs from element min(N, length) from the end to the last element |
| BarChart.RangeFilter.constructor | src/components/charts/BarChart.tsx:47-48 | The window starts at 4 weeks with the series unfiltered |
| BarChart.RangeFilter.OnSliderChange | src/components/charts/BarChart.tsx:108-113 | The slider stores its first value, an integer in [2, 12] |
| BarChart.RangeFilter.RunFilterEffect | src/components/charts/BarChart.tsx:57-65 | The filtered series becomes the range window of the current slider value; with filtering on it has min(N, length) elements |
| LineChart.AxisOf | src/components/charts/LineChart.tsx:90 | A line's axis is its non-empty `yAxisId`, else "left" |
| LineChart.FindLine | src/components/charts/LineChart.tsx:75 | `find` gives nothing iff no line has the key; otherwise the first line with it |
| LineChart.TooltipFormat | src/components/charts/LineChart.tsx:74-78 | The name is passed through; the value goes through the secondary formatter iff the matched line uses "right" |
| LineChart.FormatterFollowsRenderedAxis | src/components/charts/LineChart.tsx:75-90 | The secondary formatter is used iff the first line with the key is drawn on the "right" axis; unknown keys use the primary one |
| LineChart.YAxes | src/components/charts/LineChart.tsx:58-71 | The left axis is always first; a right axis exists iff the secondary axis is enabled |
| LineChart.LineElements | src/components/charts/LineChart.tsx:82-92 | One line per configuration entry, in declared order, each on its defaulted axis |
| TemperatureGauge.WithDefaults | src/components/quality/TemperatureGauge.tsx:13-19 | Omitted props take min 0, max 10 and an optimal band of [2, 6] |
| TemperatureGauge.Classify | src/components/quality/TemperatureGauge.tsx:24-31 | The status is low iff value < optimal.min, high iff not low and value > optimal.max, and optimal otherwise |
| TemperatureGauge.StatusColor | src/components/quality/TemperatureGauge.tsx:24-31 | The colour is the one of the classified status |
| TemperatureGauge.StatusText | src/components/quality/TemperatureGauge.tsx:77-79 | The text is the one of the classified status |
| TemperatureGauge.StatusTextAgreesWithColor | src/components/quality/TemperatureGauge.tsx:24-79 | Baja goes with blue, Alta with red and Óptima with green, in both directions |
| TemperatureGauge.OptimalBoundsInclusive | src/components/quality/TemperatureGauge.tsx:25-30 | Both ends of a non-empty optimal band are optimal |
| TemperatureGauge.Percentage | src/components/quality/TemperatureGauge.tsx:21 | Undefined iff max == min; otherwise percentage × (max - min) = (value - min) × 100 |
| TemperatureGauge.PercentageAtEnds | src/components/quality/TemperatureGauge.tsx:21 | 0 at min and 100 at max |
| TemperatureGauge.PercentageMonotone | src/components/quality/TemperatureGauge.tsx:21 | Strictly increasing in the value; negative below min and above 100 past max (no clamping) |
| TemperatureGauge.OptimalBand | src/components/quality/TemperatureGauge.tsx:49-50 | The band starts at the percentage of optimal.min and ends (left + width) at the percentage of optimal.max |
| TemperatureGauge.DefaultBandGeometry | src/components/quality/TemperatureGauge.tsx:15-50 | With the defaults the band starts at 20% and is 40% wide |
| AlertsList.TabSeverity | src/components/quality/AlertsList.tsx:39-43 | "high" and "medium" filter on themselves; every other tab value filters on "low" |
| AlertsList.VisibleAlerts | src/components/quality/AlertsList.tsx:36-44 | Tab "all" shows the list unchanged; other tabs show only alerts of the tab's severity; always a subsequence of the input |
| AlertsList.TabShowsExactlyItsSeverity | src/components/quality/AlertsList.tsx:38-44 | A severity tab keeps every alert of that severity as often as it occurs, and no other alert |
| AlertsList.BadgeCounts | src/components/quality/AlertsList.tsx:58-67 | Each badge counts the list its tab shows; "all" counts the whole list |
| AlertsList.BadgesPartition | src/components/quality/AlertsList.tsx:58-67 | The three severity badges sum to at most the total, and to exactly the total when every alert has one of the three severities |
| AlertsList.IconFor | src/components/quality/AlertsList.tsx:97-103 | high → red triangle, medium → amber triangle, anything else → blue info, each iff |
| AlertsList.StatusColorFor | src/components/quality/AlertsList.tsx:120-126 | "Nueva" → red, "En revisión" → amber, anything else → green, each iff |
| AlertsList.ValueCell | src/components/quality/AlertsList.tsx:108-110 | Temperature alerts get a "°C" suffix; others show the bare value |
| AlertsList.Rows | src/components/quality/AlertsList.tsx:94-137 | One row per shown alert, in order, with its icon and status colour |
| AlertsList.TableBody | src/components/quality/AlertsList.tsx:87-95 | An empty list gives the single "no alerts" row; otherwise one row per alert, in order |
| AlertsList.AlertsTabs.constructor | src/components/quality/AlertsList.tsx:33 | The selected tab starts as "all" |
| AlertsList.AlertsTabs.OnTabChange | src/components/quality/AlertsList.tsx:55 | The selected tab becomes the one chosen |
| AlertsList.AlertsTabs.Shown | src/components/quality/AlertsList.tsx:36-44 | The list shown is the filter for the selected tab, a subsequence of the alerts |
| QualityControlPage.RealCedis | src/pages/QualityControlPage.tsx:47 | The assignable facilities are entries of the facility list and none is "all" |
| QualityControlPage.RealCedisAreTheFour | src/pages/QualityControlPage.tsx:26-47 | They are exactly the four real facilities, in list order |
| QualityControlPage.VehicleId | src/pages/QualityControlPage.tsx:39 | The id is "V-" followed by decimal digits |
| QualityControlPage.VehicleIdInjective | src/pages/QualityControlPage.tsx:39 | Different positions give different `V-<1000+i>` ids |
| QualityControlPage.MakeIncidents | src/pages/QualityControlPage.tsx:53-66 | Exactly `count` incidents, each with its drawn temperature and detail |
| QualityControlPage.MakeVehicle | src/pages/QualityControlPage.tsx:38-69 | The vehicle carries its id, economic number, drawn kind, status, temperatures and facility; its incident list has `incidentCount` entries, each above 6 °C and at most 10.5 °C |
| QualityControlPage.AllVehicles | src/pages/QualityControlPage.tsx:37-70 | Fifteen vehicles, vehicle i built from draw i |
| QualityControlPage.FilterByCedis | src/pages/QualityControlPage.tsx:73-75 | "all" keeps every vehicle; any other id keeps only vehicles of that facility; always a subsequence, in order |
| QualityControlPage.FacilityFilterExact | src/pages/QualityControlPage.tsx:73-75 | A facility keeps each of its vehicles as often as it occurs, and no other vehicle |
| QualityControlPage.Timeline | src/pages/QualityControlPage.tsx:78-89 | 28 points; point i is for day today - 27 + i and carries draw i's temperatures |
| QualityControlPage.AllVehiclesShape | src/pages/QualityControlPage.tsx:43-57 | Every generated vehicle has a real facility, at most 8 incidents, exactly `incidentCount` listed, all above 6 °C |
| QualityControlPage.GenerateMockData | src/pages/QualityControlPage.tsx:35-103 | The vehicles are exactly the facility filter applied to the fifteen generated ones: all of them for "all", otherwise every generated vehicle of the chosen facility and no other, in order; each has the generated shape; the timeline is the 28 points ending today; the KPIs are the drawn ones, within their bounds |
| QualityControlPage.KpisIgnoreFacility | src/pages/QualityControlPage.tsx:78-101 | The timeline and KPIs are the same whatever facility is selected |
| QualityControlPage.GeneratedIdsDistinct | src/pages/QualityControlPage.tsx:39 | Generated vehicle ids are pairwise distinct |
| QualityControlPage.IsExpanded | src/pages/QualityControlPage.tsx:258 | A row with no entry reads as collapsed; otherwise it reads as its stored flag |
| QualityControlPage.Toggle | src/pages/QualityControlPage.tsx:119-124 | The given row's flag flips (absent reads as collapsed); every other entry is unchanged |
| QualityControlPage.ToggleTwice | src/pages/QualityControlPage.tsx:119-124 | Toggling a row twice restores how every row reads |
| QualityControlPage.AvgTempColor | src/pages/QualityControlPage.tsx:272-277 | Above 6 red, below 2 blue, otherwise green |
| QualityControlPage.AvgTempColorMatchesGauge | src/pages/QualityControlPage.tsx:272-277 | Red iff the gauge's default band calls it high, blue iff low |
| QualityControlPage.ExpandControl | src/pages/QualityControlPage.tsx:252-263 | A chevron button iff the vehicle has incidents, pointing down iff its row is expanded; a dash otherwise |
| QualityControlPage.ToggleFlipsChevron | src/pages/QualityControlPage.tsx:119-124 | Clicking a row's button flips its chevron and leaves every other vehicle's first cell unchanged |
| QualityControlPage.IncidentSubTable | src/pages/QualityControlPage.tsx:284-316 | The sub-table is shown iff the row is expanded and the vehicle has incidents; it lists exactly the vehicle's incidents, in order |
| QualityControlPage.IncidentTableNeedsControl | src/pages/QualityControlPage.tsx:252-284 | For generated vehicles the incident sub-table only appears where the expand button does, and the button then points down |
| QualityControlPage.QualityPage.constructor | src/pages/QualityControlPage.tsx:107-109 | Starts on "all", with data generated for "all" and no row expanded |
| QualityControlPage.QualityPage.HandleCedisChange | src/pages/QualityControlPage.tsx:112-116 | Sets the facility, regenerates the data for it and collapses every row |
| QualityControlPage.QualityPage.ToggleRowExpansion | src/pages/QualityControlPage.tsx:119-124 | Flips the given row only; every other row reads as before |
| AgendaPage.EventsByDate | src/pages/AgendaPage.tsx:34-38 | Only events of that day, as a subsequence of the calendar |
| AgendaPage.EventsByDateExact | src/pages/AgendaPage.tsx:34-38 | Every event of that day is kept as often as it occurs, and no other |
| AgendaPage.FirstEventOfDay | src/pages/AgendaPage.tsx:34-71 | Empty iff no event is on that day; otherwise its head is the first such event in the list |
| AgendaPage.DotColor | src/pages/AgendaPage.tsx:74-89 | completado green, pendiente primary, vencido danger, proximo amber, anything else secondary, each iff |
| AgendaPage.DayMarker | src/pages/AgendaPage.tsx:67-89 | No marker iff the day has no event; otherwise the colour of the first event of the day |
| AgendaPage.EventById | src/pages/AgendaPage.tsx:52-54 | A found event has the id and is in the calendar; nothing iff the id is null or unused |
| AgendaPage.EventByOwnId | src/pages/AgendaPage.tsx:52-54 | With distinct ids, an event's id finds that event |
| AgendaPage.AccionForEvent | src/pages/AgendaPage.tsx:56-59 | null iff no event; undefined iff no action has the event's `accionId`; otherwise the first such action |
| AgendaPage.SampleEventFourHasNoAction | src/data/mock-data.ts:276-282 | The 25 May sample event finds no action; the other three find theirs |
| AgendaPage.EventForAccionParam | src/pages/AgendaPage.tsx:23-32 | Nothing for an absent, empty or non-numeric parameter or when no event matches; otherwise the first event with that `accionId` |
| AgendaPage.SampleEventIdsDistinct | src/data/mock-data.ts:254-283 | The sample events' ids are distinct |
| AgendaPage.SampleEventById | src/pages/AgendaPage.tsx:52-54 | Each sample event is found again by its own id |
| AgendaPage.AccionEstadoColor | src/pages/AgendaPage.tsx:181-189 | completada green, en progreso primary, pendiente amber, anything else danger, each iff |
| AgendaPage.DialogTitle | src/pages/AgendaPage.tsx:152 | The event's non-empty title, else "Detalle de evento" |
| AgendaPage.Agenda.constructor | src/pages/AgendaPage.tsx:18-20 | Today selected, dialog closed, no event |
| AgendaPage.Agenda.ApplyAccionParam | src/pages/AgendaPage.tsx:23-32 | A matching event is selected and the dialog opened, and it is then the selected event; no match changes nothing |
| AgendaPage.Agenda.HandleDateSelect | src/pages/AgendaPage.tsx:40-50 | An undefined date changes nothing; a date is selected, and if it has events the first is selected and the dialog opens; otherwise nothing else changes |
| AgendaPage.Agenda.HandleChangeEstado | src/pages/AgendaPage.tsx:61-64 | Only closes the dialog |
| AgendaPage.Agenda.OnOpenChange | src/pages/AgendaPage.tsx:148 | The dialog's open flag follows the request |
| AgendaPage.Agenda.SelectedEvent | src/pages/AgendaPage.tsx:52-54 | A selected event has the selected id and is a sample event; nothing iff the id is null or no sample event has it |
| AgendaPage.Agenda.SelectedAccion | src/pages/AgendaPage.tsx:56-59 | null iff no event is selected; undefined iff an event is selected and no sample action has its `accionId`; otherwise the first sample action with that id |
| AgendaPage.AccionParamFourShowsNoDetails | src/pages/AgendaPage.tsx:23-59 | `?accion=4` opens the 25 May event, and its dialog has no action details |
| AccionesPage.InitialForm | src/pages/AccionesPage.tsx:44-56 | The form is well formed: blank texts, assignment today, evaluation seven days later, no evidence |
| AccionesPage.SetField | src/pages/AccionesPage.tsx:60 | The spread update sets the named field and leaves every other field as it was |
| AccionesPage.HandlersKeepShape | src/pages/AccionesPage.tsx:58-77 | Every field name the handlers receive, with a value of its kind, keeps the form well formed |
| AccionesPage.CustomInputsIndependent | src/pages/AccionesPage.tsx:294-386 | Choosing "Otro" in one select reveals its own custom input and leaves the other input's visibility unchanged |
| AccionesPage.TipoColor | src/pages/AccionesPage.tsx:124 | "preventiva" primary, else danger, each iff |
| AccionesPage.EstadoColor | src/pages/AccionesPage.tsx:139-155 | completada green, en progreso primary, pendiente secondary, anything else danger, each iff |
| AccionesPage.EstadoTablesDifferOnPendiente | src/pages/AccionesPage.tsx:139-155 | This page's estado colours agree with the agenda dialog's exactly except on "pendiente" |
| AccionesPage.AgendaLinkParam | src/pages/AccionesPage.tsx:165 | The `accion` parameter is never empty, and for a non-negative id it is all decimal digits |
| AccionesPage.AgendaLinkParamInjective | src/pages/AccionesPage.tsx:165 | Different non-negative action ids give different parameters |
| AccionesPage.AgendaLink | src/pages/AccionesPage.tsx:165 | The link is `/agenda?accion=` followed by the parameter |
| AccionesPage.VerOpensTheActionsEvent | src/pages/AccionesPage.tsx:165 | Following "Ver" for a sample action opens its event, and that event's dialog finds the same action |
| AccionesPage.AccionesState.constructor | src/pages/AccionesPage.tsx:43-104 | Dialogs closed, initial form, no selected action |
| AccionesPage.AccionesState.HandleInputChange | src/pages/AccionesPage.tsx:58-61 | Sets only the named field; an input name keeps the form well formed |
| AccionesPage.AccionesState.HandleSelectChange | src/pages/AccionesPage.tsx:63-65 | Sets only the named field; a select name keeps the form well formed |
| AccionesPage.AccionesState.HandleDateChange | src/pages/AccionesPage.tsx:67-71 | Undefined leaves the form alone; otherwise sets only the named date |
| AccionesPage.AccionesState.HandleFileChange | src/pages/AccionesPage.tsx:73-77 | The first file, if any, becomes the evidence; no file changes nothing |
| AccionesPage.AccionesState.HandleSubmit | src/pages/AccionesPage.tsx:79-101 | Closes the dialog and resets the form to its initial value for now |
| AccionesPage.AccionesState.SetDialogOpen | src/pages/AccionesPage.tsx:195-212 | The dialog's open flag follows the request |
| AccionesPage.AccionesState.AskToNotify | src/pages/AccionesPage.tsx:174-177 | Selects the row and opens the confirmation |
| AccionesPage.AccionesState.SetConfirmOpen | src/pages/AccionesPage.tsx:445 | The confirmation's open flag follows the request |
| AccionesPage.AccionesState.HandleSendNotification | src/pages/AccionesPage.tsx:106-118 | With no selection nothing changes; otherwise the confirmation closes and the selection clears |
| Register.Validate | src/pages/Register.tsx:23-31 | Accepted iff the passwords match and have at least 6 characters; the mismatch is reported first, then the length |
| Register.ValidationBoundary | src/pages/Register.tsx:23-31 | Mismatch wins over shortness; 6 characters pass and 5 do not |
| Register.ErrorMessage | src/pages/Register.tsx:55-60 | "already registered" gives the duplicate message; else the error's own non-empty message; else the default |
| Register.RegisterTrace | src/pages/Register.tsx:20-64 | A submission always has at least one effect |
| Register.RejectedSubmissionOnlyWarns | src/pages/Register.tsx:23-31 | A failed check shows its message only: no sign-up and no loading change |
| Register.SignUpBracketedByLoading | src/pages/Register.tsx:33-63 | Sign-up happens iff both checks pass, right after loading turns on; loading turns off last; nothing between touches it |
| Register.NavigatesOnlyOnSuccess | src/pages/Register.tsx:47-54 | Navigation happens iff the password checks pass, there is no error and a user is returned; it goes to /login, right after the success toast |
| Register.RegisterForm.constructor | src/pages/Register.tsx:12-17 | Empty fields, not loading, no effects |
| Register.RegisterForm.HandleRegister | src/pages/Register.tsx:20-64 | The effects grow by the submission's trace; a rejected submission leaves loading as it was; an attempted one ends not loading |
| FinancieroPage.SaldoTotal | src/pages/FinancieroPage.tsx:65 | The reduce starts from 0, so no accounts give 0; with no negative balance the total is non-negative |
| FinancieroPage.SaldoTotalAppend | src/pages/FinancieroPage.tsx:65 | The total over a concatenation is the sum of the totals |
| FinancieroPage.SaldoTotalBoundsEach | src/pages/FinancieroPage.tsx:65 | With no negative balance the total is at least each account's balance |
| FinancieroPage.SampleSaldoTotal | src/data/mock-data.ts:54-58 | The sample accounts total 285000 |
| FinancieroPage.FormatPesos | src/pages/FinancieroPage.tsx:29 | A "$" followed by the locale rendering, one character longer |
| FinancieroPage.IsCurrencyCell | src/pages/FinancieroPage.tsx:141 | True iff the value is a number and the key is one of ingresos, gastos, saldo and value |
| FinancieroPage.FinancieroCell | src/pages/FinancieroPage.tsx:141-143 | Shown as pesos iff the value is a number under ingresos, gastos, saldo or value; else raw |
| FinancieroPage.FinancieroHeaders | src/pages/FinancieroPage.tsx:126-128 | No headers without rows; otherwise the first row's keys, capitalised, in order |
| FinancieroPage.FinancieroRow | src/pages/FinancieroPage.tsx:139-145 | One cell per field of the row, in order |
| FinancieroPage.RowAlignsWithHeaders | src/pages/FinancieroPage.tsx:126-145 | A row with the first row's keys lines up with the headers cell by cell |
| FinancieroPage.GastosRowsShowPesos | src/pages/FinancieroPage.tsx:126-143 | The expenses drill-down has headers Name, Value, Color, and shows each amount as pesos |
| DrillDown.CapitalizeAll | src/pages/FinancieroPage.tsx:126-128 | One header per key, each the key capitalised |
| DrillDown.CapitalizeOnlyFirst | src/pages/FinancieroPage.tsx:128 | Capitalising changes at most the first character, and only a lower-case letter |
| Common.Capitalize | src/pages/FinancieroPage.tsx:128 | Same length; the first character upper-cased, the rest unchanged; a key already starting with a capital is unchanged |
| Common.CapitalizeIdempotent | src/pages/FinancieroPage.tsx:128 | Capitalising twice is capitalising once |
| Common.ToUpper | src/pages/FinancieroPage.tsx:128 | a-z map to A-Z, á é í ó ú ñ to their capitals, and every other character to itself |
| Common.Keys | src/pages/FinancieroPage.tsx:126 | One key per own property, in property order |
| Common.Lookup | src/components/ui/data-table.tsx:38-39 | The value of the first property with the key; undefined when no property has it; any other value comes from a property with the key |
| Common.Filter | src/components/quality/AlertsList.tsx:38-44 | Every element kept passes the test, and there are no more of them than in the input |
| Common.FilterMultiset | src/components/quality/AlertsList.tsx:38-44 | Each passing element is kept as often as it occurs, and no failing one |
| Common.FilterIsSubsequence | src/components/quality/AlertsList.tsx:38-44 | The kept elements are in their original order |
| Common.FindFirst | src/pages/AgendaPage.tsx:53 | Nothing iff no element passes; otherwise the first element that passes |
| DrillDown.DrillDownDialog.constructor | src/pages/FinancieroPage.tsx:18-20 | Closed, with no rows and no title |
| DrillDown.DrillDownDialog.HandleShowData | src/pages/FinancieroPage.tsx:22-26 | Stores the rows and the title and opens the dialog |
| DrillDown.DrillDownDialog.SetOpen | src/pages/FinancieroPage.tsx:117 | The open flag follows the request; rows and title stay |
| OperativoPage.VisibleFields | src/pages/OperativoPage.tsx:120-121 | No "color" field; a subsequence of the row |
| OperativoPage.VisibleFieldsExact | src/pages/OperativoPage.tsx:120-121 | Every non-"color" field is kept as often as it occurs |
| OperativoPage.HeaderKeys | src/pages/OperativoPage.tsx:105-106 | None without rows; never "color"; otherwise a subsequence of the first row's keys |
| OperativoPage.OperativoHeaders | src/pages/OperativoPage.tsx:105-110 | Each remaining key capitalised |
| OperativoPage.OperativoRow | src/pages/OperativoPage.tsx:120-127 | One unformatted cell per visible field, numbers included |
| OperativoPage.RawCells | src/pages/OperativoPage.tsx:123-125 | One unformatted cell per field, in order |
| OperativoPage.KeysOfVisibleFields | src/pages/OperativoPage.tsx:105-121 | Hiding "color" commutes with taking the keys |
| OperativoPage.RowAlignsWithHeaders | src/pages/OperativoPage.tsx:105-127 | A row with the first row's keys has one cell under each header, for the key it capitalises |
| OperativoPage.ViajesDrillDown | src/pages/OperativoPage.tsx:105-127 | The trips drill-down has headers Name and Value, and rows of name and count only |
| OperativoPage.FormatViajes | src/pages/OperativoPage.tsx:34 | A non-empty string with no "$"; all digits for a non-negative count |
| OperativoPage.ViajesNeverLookLikePesos | src/pages/OperativoPage.tsx:33-34 | A trip count never renders like a peso amount |
| OperativoPage.IncidenciasCardIsUndefined | src/pages/OperativoPage.tsx:45-66 | The "Incidencias" card reads undefined; the fields the other cards read are present |
| DataTable.Heading | src/components/ui/data-table.tsx:18 | A heading is drawn iff the title is given and non-empty; it shows the title's text |
| DataTable.HeaderRow | src/components/ui/data-table.tsx:22-26 | One header per column, in column order |
| DataTable.CellFor | src/components/ui/data-table.tsx:37-39 | Rendered iff the column has a renderer, which receives the field and the row; else the raw field |
| DataTable.BodyRow | src/components/ui/data-table.tsx:35-41 | One cell per column, in order |
| DataTable.Body | src/components/ui/data-table.tsx:30-43 | One row per data element, in order |
| DataTable.BodyAlignsWithHeaders | src/components/ui/data-table.tsx:22-41 | Every row has as many cells as there are headers; a missing field in a plain column shows undefined |
| DataTable.BodyAppend | src/components/ui/data-table.tsx:30-43 | The body of appended data is the appended bodies |
| ThemeContext.ClassOf | src/contexts/ThemeContext.tsx:24 | "dark" iff dark, "light" iff light |
| ThemeContext.Toggle | src/contexts/ThemeContext.tsx:16-18 | Dark goes to light and light to dark |
| ThemeContext.ToggleTwice | src/contexts/ThemeContext.tsx:17 | Toggling twice restores the theme |
| ThemeContext.TokenSetMembers | src/contexts/ThemeContext.tsx:22-24 | The root's token set holds exactly the classes of its attribute |
| ThemeContext.TokenSetDistinct | src/contexts/ThemeContext.tsx:22-24 | No class occurs twice in the token set |
| ThemeContext.TokenSetSubsequence | src/contexts/ThemeContext.tsx:22-24 | The token set is a subsequence of the attribute |
| ThemeContext.TokenSetOrder | src/contexts/ThemeContext.tsx:22-24 | The token set lists the classes in the order of their first occurrence in the attribute |
| ThemeContext.TokenSetOfDistinct | src/contexts/ThemeContext.tsx:22-24 | A class list without repeats is its own token set |
| ThemeContext.KeptTokens | src/contexts/ThemeContext.tsx:23 | After the removal, each non-theme class of the list remains exactly once, in the order of its first occurrence, and no theme class remains |
| ThemeContext.ApplyTheme | src/contexts/ThemeContext.tsx:22-24 | Each non-theme class remains iff it was there, exactly once and in first-occurrence order; the current theme's class appears once, last; the other theme's class is absent; the result has no repeats, and for a list without repeats the other classes are unchanged |
| ThemeContext.AddClass | src/contexts/ThemeContext.tsx:24 | The class is present afterwards and is not added twice, so a list without repeats stays without repeats |
| ThemeContext.ApplyThemeIdempotent | src/contexts/ThemeContext.tsx:22-24 | Running the effect again for the same theme changes nothing |
| ThemeContext.UseTheme | src/contexts/ThemeContext.tsx:32-37 | Throws the provider message iff there is no context; otherwise gives the context's theme |
| ThemeContext.ThemeProvider.constructor | src/contexts/ThemeContext.tsx:14 | The theme starts dark |
| ThemeContext.ThemeProvider.ToggleTheme | src/contexts/ThemeContext.tsx:16-18 | The theme becomes the other one |
| ThemeContext.ThemeProvider.ApplyToRoot | src/contexts/ThemeContext.tsx:21-25 | The root's classes become the theme applied to them: the current class present, the other absent, no class twice |
| Sidebar.ItemClasses | src/components/layout/Sidebar.tsx:76-78 | Highlighted classes iff the path is the current pathname |
| Sidebar.AtMostOneActive | src/components/layout/Sidebar.tsx:22-76 | At most one entry is highlighted, and each entry's own path highlights exactly that entry |
| Sidebar.LabelClasses | src/components/layout/Sidebar.tsx:82-96 | "lg:hidden" is added iff the sidebar is closed |
| Sidebar.SidebarState.constructor | src/components/layout/Sidebar.tsx:9 | The sidebar starts open |
| Sidebar.SidebarState.ToggleSidebar | src/components/layout/Sidebar.tsx:20 | The open flag flips |
| Sidebar.SidebarState.LabelsHidden | src/components/layout/Sidebar.tsx:82-96 | Labels are hidden iff the label classes carry "lg:hidden" |

## Left out

- Rendering: JSX markup, Tailwind presentation, the recharts internals, toasts' appearance and `console.log` are not modelled. Class names are kept only where a rule chooses them.
- QualityMap.tsx, Login.tsx, App.tsx, DoughnutChart.tsx, stat-card.tsx, PageHeader.tsx, AppLayout.tsx, ThemeToggle.tsx and the generated database types are not part of this model. They are DOM construction, timers, routing glue or thin wrappers.
- Randomness: every `faker` draw in the quality page's generator is an input bounded by the range the call declares. `fractionDigits: 1` rounding is not modelled, so draws are any reals in range. The city and company names and the incident dates are free strings.
- Library functions are parameters or free inputs: `toLocaleString`, `toFixed`, `toLocaleDateString`/`toLocaleTimeString`, date-fns `format`, `parseInt` (none stands for NaN) and the sign-up service's reply.
- Time: `new Date()` is one `now` / `today` day number. The generator's and the form's separate clock reads are taken as the same instant.
- Date parsing: `new Date("2023-05-20")` is UTC midnight, so west of UTC `isSameDay` puts the sample events on the previous local day. The model compares day numbers directly.
- React scheduling: hooks and `useEffect` timing are not modelled; effects are methods called explicitly. The sidebar's mobile initialiser, which calls `setIsOpen` inside a `useState` initialiser, is not modelled.
- Register's input setters (one `onChange` per field) are not modelled. `RegisterForm` reads whatever the fields hold.
- `AccionesPage.AccionesState.HandleSendNotification`: the `try`/`catch` is not modelled, because the guarded block only shows a toast and sets state and cannot throw.
- Toasts are recorded as effects only on the registration page. Elsewhere the success toast is noted in the method's comment and omitted.
- `AccionesPage.AccionesState.HandleSubmit`: nothing is stored. The page discards the submitted form, and the actions table keeps showing the sample actions.
- Strings are sequences of characters, not UTF-16 code units. `Register.Validate`'s length check therefore counts characters, which differs from JavaScript only for characters outside the Basic Multilingual Plane.
- `ThemeContext.ApplyTheme` no longer promises that repeated classes keep their count: the root's `classList` is an ordered set, so a repeated class in the `class` attribute is kept once.
- `Common.Capitalize` upper-cases ASCII letters and the accented letters á é í ó ú ñ only, not the full Unicode case mapping. Every key in the data is ASCII.
- `OperativoPage.FormatViajes` is modelled on integers: trip counts in the data are whole numbers, and `toString` of a fractional number is not modelled.
- `FinancieroPage.SaldoTotal` sums integers: the balances in the data are whole numbers, and floating-point addition is not modelled.
- `TemperatureGauge.Percentage` uses exact real arithmetic, not IEEE doubles. The `max == min` case, where JavaScript yields a non-finite number, is modelled as no value.
