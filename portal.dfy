/** The public visitor portal of src/views/PublicPortal.jsx: the two-step request form with
    its required-field checks, and the six-character code box. The form and the step belong to
    the application state (`App.portalForm`, `App.portalStep`); the error messages belong to the
    portal itself. */
module Portal {
  import opened VisitModel
  import opened Store

  /** The form inputs (src/views/PublicPortal.jsx:64-66, 80-85), which are also the keys an
      error message can be shown under. */
  datatype FormField = VisitorNameField | EmailField | CompanyField | TypeField | MotiveField
                     | DateField | TimeField

  function FieldValue(form: PortalForm, f: FormField): string {
    match f
    case VisitorNameField => form.visitorName
    case EmailField => form.email
    case CompanyField => form.company
    case TypeField => form.visitType
    case MotiveField => form.motive
    case DateField => form.date
    case TimeField => form.time
  }

  /** `{...formData, [field]: value}`: one input's change handler. */
  function WithField(form: PortalForm, f: FormField, value: string): (r: PortalForm)
    ensures FieldValue(r, f) == value
    ensures forall g :: g != f ==> FieldValue(r, g) == FieldValue(form, g)
    ensures r.cedula == form.cedula && r.phone == form.phone && r.residenceType == form.residenceType &&
            r.passport == form.passport
  {
    match f
    case VisitorNameField => form.(visitorName := value)
    case EmailField => form.(email := value)
    case CompanyField => form.(company := value)
    case TypeField => form.(visitType := value)
    case MotiveField => form.(motive := value)
    case DateField => form.(date := value)
    case TimeField => form.(time := value)
  }

  /** The fields step 1 requires, each with its message. */
  function RequiredMessage(f: FormField): Option<string> {
    match f
    case VisitorNameField => Some("Ingresa tu nombre completo")
    case EmailField => Some("El correo es obligatorio")
    case CompanyField => Some("La empresa es obligatoria")
    case _ => None
  }

  /** The error map `validateStep1` builds (src/views/PublicPortal.jsx:24-27): one message for
      each required field left empty, and nothing else. */
  function Step1Errors(form: PortalForm): (e: map<FormField, string>)
    ensures forall f :: f in e <==> RequiredMessage(f).Some? && FieldValue(form, f) == ""
    ensures forall f :: f in e ==> e[f] == RequiredMessage(f).value
  {
    var e0: map<FormField, string> := map[];
    var e1 := if form.visitorName == "" then e0[VisitorNameField := "Ingresa tu nombre completo"] else e0;
    var e2 := if form.email == "" then e1[EmailField := "El correo es obligatorio"] else e1;
    if form.company == "" then e2[CompanyField := "La empresa es obligatoria"] else e2
  }

  /** Step 1 passes exactly when name, e-mail and company are all filled in. */
  lemma Step1PassesIffRequiredFilled(form: PortalForm)
    ensures Step1Errors(form) == map[] <==>
            form.visitorName != "" && form.email != "" && form.company != ""
  {
    if form.visitorName == "" {
      assert VisitorNameField in Step1Errors(form);
    } else if form.email == "" {
      assert EmailField in Step1Errors(form);
    } else if form.company == "" {
      assert CompanyField in Step1Errors(form);
    }
  }

  /** The error map after a submit with a missing date or time (src/views/PublicPortal.jsx:35):
      the earlier messages stay, `date` and `time` read "Requerido" exactly when missing; a key
      set to `undefined` shows no message, so it is absent here. */
  function SubmitErrors(prev: map<FormField, string>, form: PortalForm): (e: map<FormField, string>)
    ensures DateField in e <==> form.date == ""
    ensures TimeField in e <==> form.time == ""
    ensures forall f :: f in e && (f == DateField || f == TimeField) ==> e[f] == "Requerido"
    ensures forall f :: f != DateField && f != TimeField ==> (f in e <==> f in prev) && (f in e ==> e[f] == prev[f])
  {
    var withDate := if form.date == "" then prev[DateField := "Requerido"] else prev - {DateField};
    if form.time == "" then withDate[TimeField := "Requerido"] else withDate - {TimeField}
  }

  /** The form after "Nueva Solicitud" (src/views/PublicPortal.jsx:107): the fields it does not
      list become `undefined`, here the empty string. */
  const ClearedForm: PortalForm := PortalForm("", "", "", "", "Cliente", "", "", "", "", "", "")

  /** Starting a new request does not restore the form first shown: the residence type loses its
      `national` default, and that is the only difference. */
  lemma ClearedFormLosesResidenceDefault()
    ensures ClearedForm != InitialPortalForm
    ensures ClearedForm == InitialPortalForm.(residenceType := "")
  {
  }

  /** The longest value the code box accepts (`maxLength={6}`). */
  const CodeBoxLength: nat := 6

  /** What the code box holds after the visitor types or pastes `input`. */
  function CodeBoxValue(input: string): (r: string)
    ensures |r| <= CodeBoxLength
    ensures r <= input
    ensures |input| <= CodeBoxLength ==> r == input
  {
    if |input| <= CodeBoxLength then input else input[..CodeBoxLength]
  }

  /** The Validate button is enabled (src/views/PublicPortal.jsx:122). */
  predicate ValidateEnabled(code: string)
    ensures ValidateEnabled(code) <==> |code| >= 6
  {
    !(code == "" || |code| < 6)
  }

  /** With the box capped at six characters, the button is enabled exactly when the box is full,
      which happens exactly when at least six characters were entered. */
  lemma ValidateEnabledIffBoxFull(input: string)
    ensures ValidateEnabled(CodeBoxValue(input)) <==> |CodeBoxValue(input)| == CodeBoxLength
    ensures ValidateEnabled(CodeBoxValue(input)) <==> |input| >= CodeBoxLength
  {
  }

  class PublicPortal {
    var errors: map<FormField, string>

    constructor ()
      ensures errors == map[]
    {
      errors := map[];
    }

    /** An input's change handler. */
    method EditField(app: App, f: FormField, value: string)
      modifies app`portalForm
      ensures app.portalForm == WithField(old(app.portalForm), f, value)
    {
      app.portalForm := WithField(app.portalForm, f, value);
    }

    /** `validateStep1` (src/views/PublicPortal.jsx:23-30). */
    method ValidateStep1(app: App) returns (ok: bool)
      modifies this`errors
      ensures errors == Step1Errors(app.portalForm)
      ensures ok <==> errors == map[]
      ensures ok <==> app.portalForm.visitorName != "" && app.portalForm.email != "" &&
                      app.portalForm.company != ""
    {
      var form := app.portalForm;
      var next: map<FormField, string> := map[];
      if form.visitorName == "" {
        next := next[VisitorNameField := "Ingresa tu nombre completo"];
      }
      if form.email == "" {
        next := next[EmailField := "El correo es obligatorio"];
      }
      if form.company == "" {
        next := next[CompanyField := "La empresa es obligatoria"];
      }
      errors := next;
      Step1PassesIffRequiredFilled(form);
      ok := |next.Keys| == 0;
    }

    /** The "Continuar" button (src/views/PublicPortal.jsx:67): disabled while the name is
        empty, so a click then does nothing; otherwise step 2 only when step 1 passes. Because
        validation only runs with a name, the name's own message never appears. */
    method ContinueFromStep1(app: App)
      modifies this`errors, app`portalStep
      ensures app.portalForm.visitorName == "" ==>
                errors == old(errors) && app.portalStep == old(app.portalStep)
      ensures app.portalForm.visitorName != "" ==>
                errors == Step1Errors(app.portalForm) &&
                app.portalStep == if errors == map[] then 2 else old(app.portalStep)
      ensures VisitorNameField !in old(errors) ==> VisitorNameField !in errors
    {
      if app.portalForm.visitorName == "" {
        return;
      }
      var ok := ValidateStep1(app);
      if ok {
        app.portalStep := 2;
      }
    }

    /** The "Atrás" button (src/views/PublicPortal.jsx:90). */
    method BackToStep1(app: App)
      modifies app`portalStep
      ensures app.portalStep == 1
    {
      app.portalStep := 1;
    }

    /** `handleSubmit` (src/views/PublicPortal.jsx:32-40): a missing date or time only marks the
        missing ones; otherwise exactly one request is created and step 3 shown. */
    method HandleSubmit(app: App, now: nat)
      modifies this`errors, app`portalStep, app`visits, app`logs, app`notifications
      ensures old(app.portalForm.date) == "" || old(app.portalForm.time) == "" ==>
                errors == SubmitErrors(old(errors), app.portalForm) &&
                app.visits == old(app.visits) && app.logs == old(app.logs) &&
                app.notifications == old(app.notifications) && app.portalStep == old(app.portalStep)
      ensures old(app.portalForm.date) != "" && old(app.portalForm.time) != "" ==>
                errors == old(errors) && app.portalStep == 3 &&
                app.visits == [RequestedVisit(app.portalForm, now)] + old(app.visits) &&
                app.logs == [LogEntry(now, "Solicitud", "Nueva solicitud de " + app.portalForm.visitorName,
                                      now, "Sistema Público")] + old(app.logs) &&
                app.notifications == old(app.notifications) +
                                     [Notification(now, "Solicitud enviada con éxito.", Info, now)]
      ensures VisitorNameField in errors <==> VisitorNameField in old(errors)
    {
      var form := app.portalForm;
      if form.date == "" || form.time == "" {
        errors := SubmitErrors(errors, form);
        return;
      }
      app.CreateVisitRequest(form, now);
      app.portalStep := 3;
    }

    /** "Nueva Solicitud" (src/views/PublicPortal.jsx:107). */
    method StartNewRequest(app: App)
      modifies app`portalStep, app`portalForm
      ensures app.portalStep == 1 && app.portalForm == ClearedForm
    {
      app.portalStep := 1;
      app.portalForm := ClearedForm;
    }

    /** The code box's change handler (src/views/PublicPortal.jsx:121): the typed value is stored;
        the call that should clear the error names a callback the application never passes, so
        it throws and the previous error stays on screen. */
    method TypeCode(app: App, input: string)
      modifies app`codeLookup
      ensures app.codeLookup == CodeBoxValue(input)
      ensures |app.codeLookup| <= CodeBoxLength
    {
      app.codeLookup := CodeBoxValue(input);
    }
  }
}
