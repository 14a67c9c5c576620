/** The executive-actions page: the new-action form record with its
    per-field handlers and its reset on submit, the notification
    confirmation, the tipo / estado colour rules, and the "Ver" link into
    the agenda. Dates are day numbers; `now` is today's day number. */
module AccionesPage {
  import opened Common
  import opened MockData
  import AgendaPage

  /** An uploaded file, by name. */
  datatype File = File(name: string)

  /** The value of a form field: text, a date, or the optional evidence file. */
  datatype FormValue = Text(s: string) | Day(d: int) | Evidence(file: Option<File>)

  /** The form's text fields, its two date fields and the evidence field. */
  const TextFields: set<string> := {"tipo", "descripcion", "categoria", "categoriaPersonalizada", "usuarioAsignado",
                                    "resultadoEsperado", "resultadoPersonalizado", "notas"}
  const DateFields: set<string> := {"fechaAsignacion", "fechaEvaluacion"}
  const EvidenceField: string := "evidencia"

  /** The names the form's inputs and textareas pass to `handleInputChange`,
      and those its selects pass to `handleSelectChange`. */
  const InputNames: set<string> := {"descripcion", "categoriaPersonalizada", "resultadoPersonalizado", "notas"}
  const SelectNames: set<string> := {"tipo", "usuarioAsignado", "categoria", "resultadoEsperado"}

  /** The form record has exactly its eleven fields, each of its kind. */
  predicate WellFormed(form: map<string, FormValue>)
  {
    && form.Keys == TextFields + DateFields + {EvidenceField}
    && (forall k :: k in TextFields ==> form[k].Text?)
    && (forall k :: k in DateFields ==> form[k].Day?)
    && form[EvidenceField].Evidence?
  }

  /** The empty form: blank texts, assigned today, evaluated a week later,
      no evidence. */
  function InitialForm(now: int): (form: map<string, FormValue>)
    ensures WellFormed(form)
    ensures forall k :: k in TextFields ==> form[k] == Text("")
    ensures form["fechaAsignacion"] == Day(now) && form["fechaEvaluacion"] == Day(now + 7)
    ensures form[EvidenceField] == Evidence(None)
  {
    map["tipo" := Text(""), "descripcion" := Text(""), "categoria" := Text(""),
        "categoriaPersonalizada" := Text(""), "usuarioAsignado" := Text(""),
        "fechaAsignacion" := Day(now), "resultadoEsperado" := Text(""),
        "resultadoPersonalizado" := Text(""), "fechaEvaluacion" := Day(now + 7),
        "notas" := Text(""), EvidenceField := Evidence(None)]
  }

  /** `{ ...prev, [name]: value }`: the named field takes the value, every
      other field keeps its own. */
  function SetField(form: map<string, FormValue>, name: string, value: FormValue): (next: map<string, FormValue>)
    ensures name in next && next[name] == value
    ensures next.Keys == form.Keys + {name}
    ensures forall k :: k in form && k != name ==> next[k] == form[k]
  {
    form[name := value]
  }

  /** Every name the page passes to a handler keeps the form well formed. */
  lemma HandlersKeepShape(form: map<string, FormValue>, name: string, value: FormValue)
    requires WellFormed(form)
    requires || (name in InputNames + SelectNames && value.Text?)
             || (name in DateFields && value.Day?)
             || (name == EvidenceField && value.Evidence?)
    ensures WellFormed(SetField(form, name, value))
  {
  }

  /** The custom-category input is shown iff the category is "Otro". */
  predicate ShowCustomCategory(form: map<string, FormValue>)
  {
    "categoria" in form && form["categoria"] == Text("Otro")
  }

  /** The custom-result input is shown iff the expected result is "Otro". */
  predicate ShowCustomResult(form: map<string, FormValue>)
  {
    "resultadoEsperado" in form && form["resultadoEsperado"] == Text("Otro")
  }

  /** Only the select that chose "Otro" reveals its custom input: setting
      one select leaves the other input's visibility alone. */
  lemma CustomInputsIndependent(form: map<string, FormValue>, v: string)
    ensures ShowCustomCategory(SetField(form, "categoria", Text(v))) <==> v == "Otro"
    ensures ShowCustomResult(SetField(form, "categoria", Text(v))) <==> ShowCustomResult(form)
    ensures ShowCustomResult(SetField(form, "resultadoEsperado", Text(v))) <==> v == "Otro"
    ensures ShowCustomCategory(SetField(form, "resultadoEsperado", Text(v))) <==> ShowCustomCategory(form)
  {
  }

  /** The tipo column: "preventiva" in the primary colour, anything else danger. */
  function TipoColor(tipo: string): (cls: string)
    ensures cls == "text-flota-primary" <==> tipo == "preventiva"
    ensures cls == "text-flota-danger" <==> tipo != "preventiva"
  {
    if tipo == "preventiva" then "text-flota-primary" else "text-flota-danger"
  }

  /** The estado column's `switch`. */
  function EstadoColor(estado: string): (cls: string)
    ensures cls == "text-green-500" <==> estado == "completada"
    ensures cls == "text-flota-primary" <==> estado == "en progreso"
    ensures cls == "text-flota-secondary" <==> estado == "pendiente"
    ensures cls == "text-flota-danger" <==> estado !in {"completada", "en progreso", "pendiente"}
  {
    if estado == "completada" then "text-green-500"
    else if estado == "en progreso" then "text-flota-primary"
    else if estado == "pendiente" then "text-flota-secondary"
    else "text-flota-danger"
  }

  /** The two estado tables agree except on "pendiente", which the agenda's
      dialog shows amber and this table shows in the secondary colour. */
  lemma EstadoTablesDifferOnPendiente(estado: string)
    ensures EstadoColor(estado) == AgendaPage.AccionEstadoColor(estado) <==> estado != "pendiente"
  {
  }

  /** The "Ver" button's target and the value its `accion` parameter carries. */
  function AgendaLinkParam(id: int): (param: string)
    ensures param != ""
    ensures id >= 0 ==> forall i :: 0 <= i < |param| ==> '0' <= param[i] <= '9'
  {
    IntToString(id)
  }

  /** Different action ids give different link parameters. */
  lemma AgendaLinkParamInjective(a: int, b: int)
    requires a >= 0 && b >= 0
    requires AgendaLinkParam(a) == AgendaLinkParam(b)
    ensures a == b
  {
    NatToStringInjective(a, b);
  }

  function AgendaLink(id: int): (link: string)
    ensures link == "/agenda?accion=" + AgendaLinkParam(id)
  {
    "/agenda?accion=" + IntToString(id)
  }

  /** Following "Ver" for a sample action with a scheduled event opens the
      agenda dialog on that event, and the dialog finds that same action. */
  lemma VerOpensTheActionsEvent(k: int, parseInt: string -> Option<int>)
    requires 0 <= k < |AccionesEjecutivas|
    requires parseInt(AgendaLinkParam(AccionesEjecutivas[k].id)) == Some(AccionesEjecutivas[k].id)
    ensures var target := AgendaPage.EventForAccionParam(EventosCalendario, Some(AgendaLinkParam(AccionesEjecutivas[k].id)), parseInt);
            && target.Some? && target.value.accionId == AccionesEjecutivas[k].id
            && AgendaPage.AccionForEvent(AccionesEjecutivas, target) == AgendaPage.Found(AccionesEjecutivas[k])
  {
    var a := AccionesEjecutivas[k];
    assert EventosCalendario[2 - k].accionId == a.id;
    var target := AgendaPage.EventForAccionParam(EventosCalendario, Some(AgendaLinkParam(a.id)), parseInt);
    assert target.Some?;
    assert AccionesEjecutivas[0].id == 1 && AccionesEjecutivas[1].id == 2 && AccionesEjecutivas[2].id == 3;
  }

  /** The page's state: the new-action dialog and its form, and the
      notification confirmation with the row it is about. */
  class AccionesState {
    var isDialogOpen: bool
    var formData: map<string, FormValue>
    var openConfirmDialog: bool
    var selectedAction: Option<Accion>

    ghost predicate Valid()
      reads this
    {
      WellFormed(formData)
    }

    constructor (now: int)
      ensures Valid()
      ensures !isDialogOpen && formData == InitialForm(now)
      ensures !openConfirmDialog && selectedAction == None
    {
      isDialogOpen := false;
      formData := InitialForm(now);
      openConfirmDialog := false;
      selectedAction := None;
    }

    /** `handleInputChange` for an input or textarea named `name`. */
    method HandleInputChange(name: string, value: string)
      modifies this`formData
      ensures formData == SetField(old(formData), name, Text(value))
      ensures old(Valid()) && name in InputNames ==> Valid()
    {
      formData := SetField(formData, name, Text(value));
    }

    /** `handleSelectChange`. */
    method HandleSelectChange(name: string, value: string)
      modifies this`formData
      ensures formData == SetField(old(formData), name, Text(value))
      ensures old(Valid()) && name in SelectNames ==> Valid()
    {
      formData := SetField(formData, name, Text(value));
    }

    /** `handleDateChange`: an undefined date leaves the form alone. */
    method HandleDateChange(name: string, date: Option<int>)
      modifies this`formData
      ensures date.None? ==> formData == old(formData)
      ensures date.Some? ==> formData == SetField(old(formData), name, Day(date.value))
      ensures old(Valid()) && name in DateFields ==> Valid()
    {
      if date.Some? {
        formData := SetField(formData, name, Day(date.value));
      }
    }

    /** `handleFileChange`: the first selected file, if there is one,
        becomes the evidence; `None` is a null file list. */
    method HandleFileChange(files: Option<seq<File>>)
      modifies this`formData
      ensures files.Some? && files.value != [] ==>
                formData == SetField(old(formData), EvidenceField, Evidence(Some(files.value[0])))
      ensures files.None? || files.value == [] ==> formData == old(formData)
      ensures old(Valid()) ==> Valid()
    {
      if files.Some? && |files.value| > 0 {
        formData := SetField(formData, EvidenceField, Evidence(Some(files.value[0])));
      }
    }

    /** `handleSubmit`: a toast (not modelled), the dialog closes and the
        form is reset; the actions table keeps showing the sample actions. */
    method HandleSubmit(now: int)
      modifies this`isDialogOpen, this`formData
      ensures Valid()
      ensures !isDialogOpen && formData == InitialForm(now)
    {
      isDialogOpen := false;
      formData := InitialForm(now);
    }

    /** The "Nueva Acción" button, and the dialog's `onOpenChange`. */
    method SetDialogOpen(open: bool)
      modifies this`isDialogOpen
      ensures isDialogOpen == open
    {
      isDialogOpen := open;
    }

    /** The row's "Enviar" button. */
    method AskToNotify(row: Accion)
      modifies this`selectedAction, this`openConfirmDialog
      ensures selectedAction == Some(row) && openConfirmDialog
    {
      selectedAction := Some(row);
      openConfirmDialog := true;
    }

    /** The confirmation dialog's `onOpenChange`. */
    method SetConfirmOpen(open: bool)
      modifies this`openConfirmDialog
      ensures openConfirmDialog == open
    {
      openConfirmDialog := open;
    }

    /** `handleSendNotification`: nothing without a selected action;
        otherwise a toast (not modelled), the confirmation closes and the
        selection is cleared. */
    method HandleSendNotification()
      modifies this`openConfirmDialog, this`selectedAction
      ensures old(selectedAction).None? ==> openConfirmDialog == old(openConfirmDialog) && selectedAction == None
      ensures old(selectedAction).Some? ==> !openConfirmDialog && selectedAction == None
    {
      if selectedAction.None? {
        return;
      }
      openConfirmDialog := false;
      selectedAction := None;
    }
  }
}
