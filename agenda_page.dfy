/** The evaluation agenda: events by calendar day, the day marker colour,
    the action behind an event, and the page's date / event / dialog state
    driven by the calendar, the `accion` URL parameter and the estado
    buttons. Calendar days are day numbers. */
module AgendaPage {
  import opened Common
  import opened MockData

  /** `getEventsByDate`: the events on that calendar day, in list order. */
  function EventsByDate(events: seq<Evento>, day: int): (onDay: seq<Evento>)
    ensures forall i :: 0 <= i < |onDay| ==> onDay[i].date == day
    ensures IsSubsequence(onDay, events)
  {
    FilterIsSubsequence(events, (e: Evento) => e.date == day);
    Filter(events, (e: Evento) => e.date == day)
  }

  /** Every event of the day is listed, as often as it occurs, and no other. */
  lemma EventsByDateExact(events: seq<Evento>, day: int, e: Evento)
    ensures multiset(EventsByDate(events, day))[e] == if e.date == day then multiset(events)[e] else 0
  {
    FilterMultiset(events, (x: Evento) => x.date == day, e);
  }

  /** The first event of a day is the first event in the list with that date. */
  lemma {:induction false} FirstEventOfDay(events: seq<Evento>, day: int)
    ensures EventsByDate(events, day) == [] <==> forall i :: 0 <= i < |events| ==> events[i].date != day
    ensures EventsByDate(events, day) != [] ==>
              exists i :: 0 <= i < |events| && events[i] == EventsByDate(events, day)[0] && events[i].date == day
                          && forall j :: 0 <= j < i ==> events[j].date != day
  {
    FilterHeadIsFindFirst(events, (e: Evento) => e.date == day);
  }

  /** The `switch` on the event's estado in `renderDay`. */
  function DotColor(estado: string): (bg: string)
    ensures bg == "bg-green-500" <==> estado == "completado"
    ensures bg == "bg-flota-primary" <==> estado == "pendiente"
    ensures bg == "bg-flota-danger" <==> estado == "vencido"
    ensures bg == "bg-amber-500" <==> estado == "proximo"
    ensures bg == "bg-flota-secondary" <==> estado !in {"completado", "pendiente", "vencido", "proximo"}
  {
    if estado == "completado" then "bg-green-500"
    else if estado == "pendiente" then "bg-flota-primary"
    else if estado == "vencido" then "bg-flota-danger"
    else if estado == "proximo" then "bg-amber-500"
    else "bg-flota-secondary"
  }

  /** `renderDay`: no marker on a day without events; otherwise the dot
      coloured by the first event of that day. */
  function DayMarker(events: seq<Evento>, day: int): (marker: Option<string>)
    ensures marker.None? <==> forall i :: 0 <= i < |events| ==> events[i].date != day
    ensures marker.Some? ==>
              exists i :: 0 <= i < |events| && events[i].date == day && marker.value == DotColor(events[i].estado)
                          && forall j :: 0 <= j < i ==> events[j].date != day
  {
    FirstEventOfDay(events, day);
    var onDay := EventsByDate(events, day);
    if onDay == [] then None else Some(DotColor(onDay[0].estado))
  }

  /** `eventosCalendario.find(e => e.id === selectedEventId)`; a null id
      matches no event. */
  function EventById(events: seq<Evento>, id: Option<int>): (found: Option<Evento>)
    ensures found.Some? ==> id == Some(found.value.id) && found.value in events
    ensures found.None? <==> id.None? || forall i :: 0 <= i < |events| ==> events[i].id != id.value
  {
    match id
    case None => None
    case Some(n) =>
      var r := FindFirst(events, (e: Evento) => e.id == n);
      r
  }

  /** With distinct ids, an event's own id finds that event. */
  lemma EventByOwnId(events: seq<Evento>, k: int)
    requires 0 <= k < |events|
    requires forall i, j :: 0 <= i < j < |events| ==> events[i].id != events[j].id
    ensures EventById(events, Some(events[k].id)) == Some(events[k])
  {
    var r := EventById(events, Some(events[k].id));
    var i :| 0 <= i < |events| && events[i] == r.value && events[i].id == events[k].id
             && forall j :: 0 <= j < i ==> events[j].id != events[k].id;
    assert i == k;
  }

  /** The result of `getAccionForEvent`: `null` without an event, `undefined`
      when no action has the event's `accionId`, or the action found. */
  datatype AccionLookup = NoEvent | Missing | Found(accion: Accion)

  function AccionForEvent(acciones: seq<Accion>, evento: Option<Evento>): (r: AccionLookup)
    ensures r.NoEvent? <==> evento.None?
    ensures r.Missing? <==> evento.Some? && forall i :: 0 <= i < |acciones| ==> acciones[i].id != evento.value.accionId
    ensures r.Found? ==>
              exists i :: 0 <= i < |acciones| && acciones[i] == r.accion && acciones[i].id == evento.value.accionId
                          && forall j :: 0 <= j < i ==> acciones[j].id != evento.value.accionId
  {
    match evento
    case None => NoEvent
    case Some(e) =>
      match FindFirst(acciones, (a: Accion) => a.id == e.accionId)
      case Some(a) => Found(a)
      case None => Missing
  }

  /** The sample event scheduled for 25 May points at action 4, which does
      not exist; the other three sample events find their action. */
  lemma SampleEventFourHasNoAction()
    ensures AccionForEvent(AccionesEjecutivas, Some(EventosCalendario[3])) == Missing
    ensures forall k :: 0 <= k < 3 ==> AccionForEvent(AccionesEjecutivas, Some(EventosCalendario[k])).Found?
  {
    assert AccionesEjecutivas[0].id == 1 && AccionesEjecutivas[1].id == 2 && AccionesEjecutivas[2].id == 3;
  }

  /** The event the `accion` URL parameter opens: nothing for an absent or
      empty parameter; otherwise the first event whose `accionId` equals
      `parseInt` of it (`None` stands for NaN, which equals nothing). */
  function EventForAccionParam(events: seq<Evento>, accionParam: Option<string>,
                               parseInt: string -> Option<int>): (target: Option<Evento>)
    ensures target.Some? ==>
              && accionParam.Some? && accionParam.value != ""
              && parseInt(accionParam.value) == Some(target.value.accionId)
              && exists i :: 0 <= i < |events| && events[i] == target.value
                             && forall j :: 0 <= j < i ==> events[j].accionId != target.value.accionId
    ensures target.None? <==>
              || accionParam.None? || accionParam.value == "" || parseInt(accionParam.value).None?
              || forall i :: 0 <= i < |events| ==> events[i].accionId != parseInt(accionParam.value).value
  {
    match accionParam
    case None => None
    case Some(s) =>
      if s == "" then None
      else
        match parseInt(s)
        case None => None
        case Some(n) => FindFirst(events, (e: Evento) => e.accionId == n)
  }

  /** The ids of the sample events are distinct. */
  lemma SampleEventIdsDistinct()
    ensures forall i, j :: 0 <= i < j < |EventosCalendario| ==> EventosCalendario[i].id != EventosCalendario[j].id
  {
  }

  /** Any sample event is found again by its own id. */
  lemma SampleEventById(e: Evento)
    requires e in EventosCalendario
    ensures EventById(EventosCalendario, Some(e.id)) == Some(e)
  {
    SampleEventIdsDistinct();
    var k :| 0 <= k < |EventosCalendario| && EventosCalendario[k] == e;
    EventByOwnId(EventosCalendario, k);
  }

  /** The estado colour in the event dialog's action details (this table
      gives "pendiente" amber; the actions page gives it the secondary colour). */
  function AccionEstadoColor(estado: string): (cls: string)
    ensures cls == "text-green-500" <==> estado == "completada"
    ensures cls == "text-flota-primary" <==> estado == "en progreso"
    ensures cls == "text-amber-500" <==> estado == "pendiente"
    ensures cls == "text-flota-danger" <==> estado !in {"completada", "en progreso", "pendiente"}
  {
    if estado == "completada" then "text-green-500"
    else if estado == "en progreso" then "text-flota-primary"
    else if estado == "pendiente" then "text-amber-500"
    else "text-flota-danger"
  }

  /** `selectedEvent?.title || "Detalle de evento"`. */
  function DialogTitle(selected: Option<Evento>): (title: string)
    ensures selected.Some? && selected.value.title != "" ==> title == selected.value.title
    ensures selected.None? || selected.value.title == "" ==> title == "Detalle de evento"
  {
    if selected.Some? && selected.value.title != "" then selected.value.title else "Detalle de evento"
  }

  /** The page's state over the sample calendar. */
  class Agenda {
    var selectedDate: Option<int>
    var isDialogOpen: bool
    var selectedEventId: Option<int>

    /** The calendar starts on today, with the dialog closed. */
    constructor (today: int)
      ensures selectedDate == Some(today) && !isDialogOpen && selectedEventId == None
    {
      selectedDate := Some(today);
      isDialogOpen := false;
      selectedEventId := None;
    }

    /** The effect run for the `accion` URL parameter: a matching event is
        selected and the dialog opened; otherwise nothing changes. */
    method ApplyAccionParam(accionParam: Option<string>, parseInt: string -> Option<int>)
      modifies this`isDialogOpen, this`selectedEventId
      ensures var target := EventForAccionParam(EventosCalendario, accionParam, parseInt);
              && (target.Some? ==> selectedEventId == Some(target.value.id) && isDialogOpen)
              && (target.None? ==> selectedEventId == old(selectedEventId) && isDialogOpen == old(isDialogOpen))
      ensures EventForAccionParam(EventosCalendario, accionParam, parseInt).Some? ==>
                SelectedEvent() == EventForAccionParam(EventosCalendario, accionParam, parseInt)
    {
      var target := EventForAccionParam(EventosCalendario, accionParam, parseInt);
      if target.Some? {
        selectedEventId := Some(target.value.id);
        isDialogOpen := true;
        SampleEventById(target.value);
      }
    }

    /** `handleDateSelect`: an undefined date changes nothing; a date is
        selected, and when it has events the first one is opened. */
    method HandleDateSelect(date: Option<int>)
      modifies this
      ensures date.None? ==> selectedDate == old(selectedDate) && isDialogOpen == old(isDialogOpen)
                             && selectedEventId == old(selectedEventId)
      ensures date.Some? ==> selectedDate == date
      ensures date.Some? && EventsByDate(EventosCalendario, date.value) != [] ==>
                selectedEventId == Some(EventsByDate(EventosCalendario, date.value)[0].id) && isDialogOpen
                && SelectedEvent() == Some(EventsByDate(EventosCalendario, date.value)[0])
      ensures date.Some? && EventsByDate(EventosCalendario, date.value) == [] ==>
                selectedEventId == old(selectedEventId) && isDialogOpen == old(isDialogOpen)
    {
      if date.Some? {
        selectedDate := date;
        var eventos := EventsByDate(EventosCalendario, date.value);
        if |eventos| > 0 {
          selectedEventId := Some(eventos[0].id);
          isDialogOpen := true;
          SubsequenceMember(eventos, EventosCalendario, 0);
          SampleEventById(eventos[0]);
        }
      }
    }

    /** `handleChangeEstado`: a toast (not modelled) and the dialog closes;
        no event or action record changes. */
    method HandleChangeEstado(estado: string)
      modifies this`isDialogOpen
      ensures !isDialogOpen
    {
      isDialogOpen := false;
    }

    /** The dialog's `onOpenChange`. */
    method OnOpenChange(open: bool)
      modifies this`isDialogOpen
      ensures isDialogOpen == open
    {
      isDialogOpen := open;
    }

    /** `getSelectedEvent()`. */
    function SelectedEvent(): (e: Option<Evento>)
      reads this
      ensures e.Some? ==> selectedEventId == Some(e.value.id) && e.value in EventosCalendario
      ensures e.None? <==> selectedEventId.None?
                           || forall i :: 0 <= i < |EventosCalendario| ==> EventosCalendario[i].id != selectedEventId.value
    {
      EventById(EventosCalendario, selectedEventId)
    }

    /** The action shown in the dialog. */
    function SelectedAccion(): (r: AccionLookup)
      reads this
      ensures r.NoEvent? <==> SelectedEvent().None?
      ensures r.Missing? <==> SelectedEvent().Some?
                              && forall i :: 0 <= i < |AccionesEjecutivas| ==> AccionesEjecutivas[i].id != SelectedEvent().value.accionId
      ensures r.Found? ==> r.accion in AccionesEjecutivas && r.accion.id == SelectedEvent().value.accionId
      ensures r.Found? ==>
                exists i :: 0 <= i < |AccionesEjecutivas| && AccionesEjecutivas[i] == r.accion
                            && forall j :: 0 <= j < i ==> AccionesEjecutivas[j].id != SelectedEvent().value.accionId
    {
      AccionForEvent(AccionesEjecutivas, SelectedEvent())
    }
  }

  /** Opening the page with `?accion=4` selects the 25 May event, whose
      dialog then shows its title and no action details. */
  lemma AccionParamFourShowsNoDetails(parseInt: string -> Option<int>)
    requires parseInt("4") == Some(4)
    ensures EventForAccionParam(EventosCalendario, Some("4"), parseInt) == Some(EventosCalendario[3])
    ensures AccionForEvent(AccionesEjecutivas, Some(EventosCalendario[3])) == Missing
  {
    SampleEventFourHasNoAction();
  }
}
