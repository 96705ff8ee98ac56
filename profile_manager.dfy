/**
 * The profile manager: the loaded profile, an editable draft of it, a snapshot the draft can be
 * reset to, the eight validation entries and the readonly/editing mode.
 *
 * The remote store is not called: each operation that talks to it takes the store's `reply` as
 * a parameter (any reply stands for any behaviour of the store) and appends the request it would
 * send to `sent`, so "the store is not called" reads `sent == old(sent)`. A thrown error is the
 * `Thrown` outcome.
 */
module ProfileManagement {
  import opened Common
  import opened ProfileTypes
  import opened Api
  import opened ProfileRules

  datatype Mode = Readonly | Editing

  datatype Verb = Get | Put | Delete

  /** A request to the profile store: the verb, the full URL and the JSON body, if any. */
  datatype StoreRequest = StoreRequest(verb: Verb, url: string, body: Option<ApiBody>)

  /** What the store answers: the decoded body, or the error the HTTP client throws. */
  datatype Reply<T> = Ok(value: T) | Err(error: RequestError)

  /** How an asynchronous operation ends: it resolves, or it rejects with an error message. */
  datatype Outcome = Completed | Thrown(message: string)

  const FormErrorMessage := "Por favor, corrige los errores en el formulario"

  /** The store endpoint of one user, as the HTTP client expands it. */
  function UserUrl(userId: string): (url: string)
    ensures url == BaseUrl + "/usuarios/" + userId
  {
    assert JsText.HasPrefix("/usuarios/" + userId, "/");
    RequestUrl("/usuarios/" + userId)
  }

  /** The record has an entry for each of the eight fields. */
  predicate HasEveryField(v: map<Field, FieldState>) {
    forall f: Field :: f in v
  }

  class ProfileManager {
    var profile: Option<ProfileResponse>
    var loading: bool
    var saving: bool
    var deleting: bool
    var error: Option<string>
    var mode: Mode
    var formData: FormData
    var originalData: Option<FormData>
    var validation: map<Field, FieldState>
    var imagePreview: Option<string>
    /** The requests sent to the store, oldest first. */
    var sent: seq<StoreRequest>

    /** Every field has an entry, and the snapshot is a JSON copy, so it holds no picked file. */
    ghost predicate Valid()
      reads this
    {
      HasEveryField(validation) && (originalData.Some? ==> NoFile(originalData.value))
    }

    /** A manager with no profile, the empty form, every entry valid, in readonly mode. */
    constructor ()
      ensures Valid()
      ensures profile.None? && error.None? && mode == Readonly
      ensures formData == EmptyForm && originalData.None? && imagePreview.None?
      ensures validation == AllPassed && sent == []
      ensures !loading && !saving && !deleting
    {
      profile := None;
      loading, saving, deleting := false, false, false;
      error := None;
      mode := Readonly;
      formData := EmptyForm;
      originalData := None;
      validation := AllPassed;
      imagePreview := None;
      sent := [];
      new;
      EveryFieldPassed();
    }

    /** `esProfesional`: a profile is loaded and its role is professional. */
    function IsProfessional(): (b: bool)
      reads this`profile
      ensures b <==> profile.Some? && profile.value.rol == Professional
    {
      match profile
      case Some(p) => p.rol == Professional
      case None => false
    }

    /**
     * `validarCampo`: the field's entry becomes its rule's verdict on `valor`; a professional
     * field is left alone unless the loaded profile is a professional's.
     */
    method ValidateField(f: Field, valor: string)
      modifies this`validation
      ensures validation == FieldUpdate(FieldRule, old(validation), f, valor, IsProfessional())
    {
      if !IsProfessionalField(f) || IsProfessional() {
        validation := validation[f := FieldRule(f, valor)];
      }
    }

    /**
     * `validarFormulario`: the record becomes `ValidatedForm` of the draft, and the answer is
     * whether every entry is valid (`FormValidIff` says what that means field by field).
     */
    method ValidateForm() returns (ok: bool)
      requires Valid()
      modifies this`validation
      ensures Valid()
      ensures validation == ValidatedForm(old(validation), formData, IsProfessional())
      ensures ok == AllValid(validation)
    {
      ghost var v0 := validation;
      var form, professional := formData, IsProfessional();
      ValidateBasicFields(form);
      if professional && form.direccion.Some? {
        ValidateProfessionalFields(form);
      }
      ValidationStepsValidate(v0, validation, form, professional);
      assert originalData == old(originalData);
      ok := AllValid(validation);
    }

    /** The first three `validarCampo` calls of `validarFormulario`. */
    method ValidateBasicFields(form: FormData)
      modifies this`validation
      ensures validation == BasicSteps(FieldRule, old(validation), form, IsProfessional())
    {
      ValidateField(Nombre, form.nombre);
      ValidateField(Correo, form.correo);
      ValidateField(Telefono, form.telefono);
    }

    /** The last five `validarCampo` calls, made for a professional whose draft has an address. */
    method ValidateProfessionalFields(form: FormData)
      requires IsProfessional() && form.direccion.Some?
      modifies this`validation
      ensures validation == ProfessionalSteps(FieldRule, old(validation), form)
    {
      var d := form.direccion.value;
      ValidateField(Calle, d.calle);
      ValidateField(Estado, d.estado);
      ValidateField(Ciudad, d.ciudad);
      ValidateField(CodigoPostal, d.codigoPostal);
      ValidateField(Descripcion, form.descripcion);
    }

    /**
     * `rellenarFormulario`: the draft is filled from the profile, the snapshot becomes a copy of
     * it, and the preview shows the profile's photo when it has one (else it is kept).
     */
    method FillForm(data: ProfileResponse)
      requires Valid()
      modifies this`formData, this`originalData, this`imagePreview
      ensures Valid()
      ensures formData == FormFromProfile(data)
      ensures originalData == Some(formData)
      ensures imagePreview == if data.fotoUrl.Some? && data.fotoUrl.value != "" then data.fotoUrl
                              else old(imagePreview)
    {
      formData := FormFromProfile(data);
      originalData := Some(JsonCopy(formData));
      if data.fotoUrl.Some? && data.fotoUrl.value != "" {
        imagePreview := data.fotoUrl;
      }
    }

    /**
     * `cargarPerfil`: one GET; on success the profile is replaced and the form filled from it,
     * on failure the error message is kept and nothing else changes. No error escapes.
     */
    method LoadProfile(userId: string, reply: Reply<ProfileResponse>)
      requires Valid()
      modifies this
      ensures Valid()
      ensures sent == old(sent) + [StoreRequest(Get, UserUrl(userId), None)]
      ensures !loading
      ensures mode == old(mode) && validation == old(validation)
      ensures saving == old(saving) && deleting == old(deleting)
      ensures reply.Ok? ==>
                profile == Some(reply.value) && error.None? &&
                formData == FormFromProfile(reply.value) && originalData == Some(formData) &&
                imagePreview == (if reply.value.fotoUrl.Some? && reply.value.fotoUrl.value != "" then reply.value.fotoUrl else old(imagePreview))
      ensures reply.Err? ==>
                profile == old(profile) && error == Some(reply.error.message) &&
                formData == old(formData) && originalData == old(originalData) &&
                imagePreview == old(imagePreview)
    {
      loading := true;
      error := None;
      sent := sent + [StoreRequest(Get, UserUrl(userId), None)];
      match reply {
        case Ok(data) =>
          profile := Some(data);
          FillForm(data);
        case Err(e) =>
          error := Some(e.message);
      }
      loading := false;
    }

    /**
     * `manejarCambioImagen`: a file whose MIME type starts with `image/` is put in the draft;
     * anything else is ignored.
     */
    method HandleImageChange(file: Option<FileRef>)
      modifies this`formData
      ensures file.Some? && JsText.HasPrefix(file.value.mimeType, "image/") ==>
                formData == old(formData).(foto := Some(PhotoFile(file.value)))
      ensures !(file.Some? && JsText.HasPrefix(file.value.mimeType, "image/")) ==>
                formData == old(formData)
    {
      if file.Some? && JsText.HasPrefix(file.value.mimeType, "image/") {
        formData := formData.(foto := Some(PhotoFile(file.value)));
      }
    }

    /**
     * `habilitarEdicion`, from any mode: editing, with the snapshot a JSON copy of the draft
     * (the draft itself, unless it holds a picked file).
     */
    method BeginEdit()
      requires Valid()
      modifies this`mode, this`originalData
      ensures Valid()
      ensures mode == Editing
      ensures originalData == Some(JsonCopy(formData))
      ensures NoFile(formData) ==> originalData == Some(formData)
    {
      mode := Editing;
      originalData := Some(JsonCopy(formData));
    }

    /**
     * `cancelarEdicion`, from any mode: the draft goes back to the snapshot and the preview to
     * the snapshot's photo URL, then every validation entry is reset to valid with no message.
     */
    method CancelEdit()
      requires Valid()
      modifies this`formData, this`imagePreview, this`mode, this`validation
      ensures Valid()
      ensures mode == Readonly
      ensures validation == AllPassed
      ensures old(originalData).Some? ==>
                formData == old(originalData).value &&
                imagePreview == (if formData.fotoUrl == "" then None else Some(formData.fotoUrl))
      ensures old(originalData).None? ==> formData == old(formData) && imagePreview == old(imagePreview)
    {
      if originalData.Some? {
        formData := JsonCopy(originalData.value);
        imagePreview := if originalData.value.fotoUrl == "" then None else Some(originalData.value.fotoUrl);
      }
      mode := Readonly;
      ghost var draft, preview := formData, imagePreview;
      var i := 0;
      while i < |FieldOrder|
        invariant 0 <= i <= |FieldOrder|
        invariant formData == draft && imagePreview == preview && mode == Readonly
        invariant HasEveryField(validation)
        invariant forall j :: 0 <= j < i ==> validation[FieldOrder[j]] == Passed
      {
        var key := FieldOrder[i];
        if key in validation {
          validation := validation[key := Passed];
        }
        i := i + 1;
      }
      FieldOrderCoversAll(validation);
    }

    /**
     * `guardarCambios`. An invalid form rejects with the form message before anything but the
     * validation record changes. Otherwise one PUT carries `SavePayload` of the draft; success
     * replaces the profile, refills the form and returns to readonly; failure records the error
     * and rejects with it, leaving profile, draft and mode as they were.
     */
    method SaveChanges(userId: string, reply: Reply<ProfileResponse>) returns (outcome: Outcome)
      requires Valid()
      modifies this
      ensures Valid()
      ensures validation == ValidatedForm(old(validation), old(formData), old(IsProfessional()))
      ensures loading == old(loading) && deleting == old(deleting)
      ensures !AllValid(validation) ==>
                outcome == Thrown(FormErrorMessage) && sent == old(sent) &&
                profile == old(profile) && mode == old(mode) && error == old(error) &&
                formData == old(formData) && originalData == old(originalData) &&
                saving == old(saving) && imagePreview == old(imagePreview)
      ensures AllValid(validation) ==>
                !saving &&
                sent == old(sent) + [StoreRequest(Put, UserUrl(userId),
                                                  Some(SavePayload(old(formData), old(IsProfessional()))))]
      ensures AllValid(validation) && reply.Ok? ==>
                outcome == Completed && profile == Some(reply.value) && error.None? &&
                mode == Readonly && formData == FormFromProfile(reply.value) &&
                originalData == Some(formData) &&
                imagePreview == (if reply.value.fotoUrl.Some? && reply.value.fotoUrl.value != "" then reply.value.fotoUrl else old(imagePreview))
      ensures AllValid(validation) && reply.Err? ==>
                outcome == Thrown(reply.error.message) && error == Some(reply.error.message) &&
                profile == old(profile) && mode == old(mode) && formData == old(formData) &&
                originalData == old(originalData) && imagePreview == old(imagePreview)
    {
      var ok := ValidateForm();
      if !ok {
        return Thrown(FormErrorMessage);
      }
      outcome := SubmitChanges(userId, reply);
    }

    /**
     * The part of `guardarCambios` after the form passed: one PUT of the draft's payload, then
     * the reply's effect on profile, draft and mode.
     */
    method SubmitChanges(userId: string, reply: Reply<ProfileResponse>) returns (outcome: Outcome)
      requires Valid()
      modifies this`saving, this`error, this`sent, this`profile, this`formData, this`originalData
      modifies this`imagePreview, this`mode
      ensures Valid()
      ensures !saving
      ensures sent == old(sent) + [StoreRequest(Put, UserUrl(userId), Some(SavePayload(old(formData), old(IsProfessional()))))]
      ensures reply.Ok? ==>
                outcome == Completed && profile == Some(reply.value) && error.None? &&
                mode == Readonly && formData == FormFromProfile(reply.value) &&
                originalData == Some(formData) &&
                imagePreview == (if reply.value.fotoUrl.Some? && reply.value.fotoUrl.value != "" then reply.value.fotoUrl else old(imagePreview))
      ensures reply.Err? ==>
                outcome == Thrown(reply.error.message) && error == Some(reply.error.message) &&
                profile == old(profile) && mode == old(mode) && formData == old(formData) &&
                originalData == old(originalData) && imagePreview == old(imagePreview)
    {
      saving := true;
      error := None;
      var body := SavePayload(formData, IsProfessional());
      sent := sent + [StoreRequest(Put, UserUrl(userId), Some(body))];
      match reply {
        case Ok(updated) =>
          profile := Some(updated);
          FillForm(updated);
          mode := Readonly;
          outcome := Completed;
        case Err(e) =>
          error := Some(e.message);
          outcome := Thrown(e.message);
      }
      saving := false;
    }

    /**
     * `eliminarPerfil`: one DELETE; success drops the profile and empties the draft, failure
     * records the error and rejects with it, leaving profile and draft as they were.
     */
    method DeleteProfile(userId: string, reply: Reply<()>) returns (outcome: Outcome)
      requires Valid()
      modifies this
      ensures Valid()
      ensures sent == old(sent) + [StoreRequest(Delete, UserUrl(userId), None)]
      ensures !deleting && loading == old(loading) && saving == old(saving)
      ensures mode == old(mode) && validation == old(validation) && originalData == old(originalData)
      ensures imagePreview == old(imagePreview)
      ensures reply.Ok? ==> outcome == Completed && profile.None? && formData == EmptyForm && error.None?
      ensures reply.Err? ==>
                outcome == Thrown(reply.error.message) && error == Some(reply.error.message) &&
                profile == old(profile) && formData == old(formData)
    {
      deleting := true;
      error := None;
      sent := sent + [StoreRequest(Delete, UserUrl(userId), None)];
      match reply {
        case Ok(_) =>
          profile := None;
          formData := EmptyForm;
          outcome := Completed;
        case Err(e) =>
          error := Some(e.message);
          outcome := Thrown(e.message);
      }
      deleting := false;
    }

    /**
     * `puedeGuardar`: editing, the form validates and no save is running. The validation only
     * runs (and updates the record) in editing mode.
     */
    method CanSave() returns (b: bool)
      requires Valid()
      modifies this`validation
      ensures Valid()
      ensures mode == Editing ==> validation == ValidatedForm(old(validation), formData, IsProfessional())
      ensures mode != Editing ==> validation == old(validation)
      ensures b <==> mode == Editing && AllValid(validation) && !saving
    {
      if mode != Editing {
        return false;
      }
      var ok := ValidateForm();
      b := ok && !saving;
    }
  }

  /**
   * `habilitarEdicion` twice in a row leaves what one call leaves: editing mode and the snapshot
   * a copy of the unchanged draft; nothing else is touched.
   */
  method BeginEditTwice(m: ProfileManager)
    requires m.Valid()
    modifies m`mode, m`originalData
    ensures m.Valid() && m.mode == Editing && m.originalData == Some(JsonCopy(old(m.formData)))
    ensures m.formData == old(m.formData) && m.validation == old(m.validation)
    ensures m.profile == old(m.profile) && m.sent == old(m.sent) && m.imagePreview == old(m.imagePreview)
  {
    m.BeginEdit();
    m.BeginEdit();
  }

  /**
   * What one `validarCampo` call does to the record: the field's entry becomes the rule's verdict
   * on the value, except that a professional field is left alone when the user is not a
   * professional.
   */
  function FieldUpdate(rule: (Field, string) -> FieldState, v: map<Field, FieldState>, f: Field, valor: string,
                       professional: bool): (w: map<Field, FieldState>)
    ensures w.Keys == v.Keys + {f} || w == v
  {
    if !IsProfessionalField(f) || professional then v[f := rule(f, valor)] else v
  }

  /**
   * The record `validarFormulario` builds by its sequence of `validarCampo` calls, for a table
   * of rules: the three basic entries, then the five professional ones when the user is a
   * professional with an address.
   */
  function ValidationSteps(rule: (Field, string) -> FieldState, v: map<Field, FieldState>, form: FormData,
                           professional: bool): map<Field, FieldState> {
    var basic := BasicSteps(rule, v, form, professional);
    if professional && form.direccion.Some? then ProfessionalSteps(rule, basic, form) else basic
  }

  /** Running the calls one after the other on a full record builds `ValidatedBy`. */
  lemma {:induction false} ValidatedFormSteps(rule: (Field, string) -> FieldState, v: map<Field, FieldState>,
                                              form: FormData, professional: bool)
    requires HasEveryField(v)
    ensures ValidationSteps(rule, v, form, professional) == ValidatedBy(rule, v, form, professional)
  {
    var a, b := ValidationSteps(rule, v, form, professional), ValidatedBy(rule, v, form, professional);
    forall g: Field
      ensures g in a && g in b && a[g] == b[g]
    {
      ValidationStepsAt(rule, v, form, professional, g);
      assert g in AllFields;
    }
  }

  /** One entry after the calls: a checked field holds its rule's verdict, any other is kept. */
  lemma {:induction false} ValidationStepsAt(rule: (Field, string) -> FieldState, v: map<Field, FieldState>,
                                             form: FormData, professional: bool, g: Field)
    requires HasEveryField(v)
    ensures var a := ValidationSteps(rule, v, form, professional);
      g in a && a[g] == if Checked(g, form, professional) then rule(g, FieldValue(form, g)) else v[g]
  {
    var basic := BasicSteps(rule, v, form, professional);
    BasicStepsAt(rule, v, form, professional, g);
    if professional && form.direccion.Some? {
      ProfessionalStepsAt(rule, basic, form, g);
    }
  }

  /** The three `validarCampo` calls every user gets. */
  function BasicSteps(rule: (Field, string) -> FieldState, v: map<Field, FieldState>, form: FormData,
                      professional: bool): map<Field, FieldState> {
    FieldUpdate(rule, FieldUpdate(rule, FieldUpdate(rule, v,
      Nombre, form.nombre, professional),
      Correo, form.correo, professional),
      Telefono, form.telefono, professional)
  }

  /** The five `validarCampo` calls of a professional with an address. */
  function ProfessionalSteps(rule: (Field, string) -> FieldState, v: map<Field, FieldState>, form: FormData):
    map<Field, FieldState>
    requires form.direccion.Some?
  {
    var d := form.direccion.value;
    FieldUpdate(rule, FieldUpdate(rule, FieldUpdate(rule, FieldUpdate(rule, FieldUpdate(rule, v,
      Calle, d.calle, true),
      Estado, d.estado, true),
      Ciudad, d.ciudad, true),
      CodigoPostal, d.codigoPostal, true),
      Descripcion, form.descripcion, true)
  }

  lemma FieldUpdateAt(rule: (Field, string) -> FieldState, v: map<Field, FieldState>, f: Field, valor: string,
                      professional: bool, g: Field)
    requires g in v
    ensures var w := FieldUpdate(rule, v, f, valor, professional);
      g in w && w[g] == if g == f && (!IsProfessionalField(f) || professional) then rule(f, valor) else v[g]
  {
  }

  lemma {:induction false} BasicStepsAt(rule: (Field, string) -> FieldState, v: map<Field, FieldState>,
                                        form: FormData, professional: bool, g: Field)
    requires HasEveryField(v)
    ensures var a := BasicSteps(rule, v, form, professional);
      g in a && a[g] == if !IsProfessionalField(g) then rule(g, FieldValue(form, g)) else v[g]
  {
    var v1 := FieldUpdate(rule, v, Nombre, form.nombre, professional);
    var v2 := FieldUpdate(rule, v1, Correo, form.correo, professional);
    FieldUpdateAt(rule, v, Nombre, form.nombre, professional, g);
    FieldUpdateAt(rule, v1, Correo, form.correo, professional, g);
    FieldUpdateAt(rule, v2, Telefono, form.telefono, professional, g);
  }

  lemma {:induction false} ProfessionalStepsAt(rule: (Field, string) -> FieldState, v: map<Field, FieldState>,
                                               form: FormData, g: Field)
    requires HasEveryField(v) && form.direccion.Some?
    ensures var a := ProfessionalSteps(rule, v, form);
      g in a && a[g] == if IsProfessionalField(g) then rule(g, FieldValue(form, g)) else v[g]
  {
    var d := form.direccion.value;
    var v1 := FieldUpdate(rule, v, Calle, d.calle, true);
    var v2 := FieldUpdate(rule, v1, Estado, d.estado, true);
    var v3 := FieldUpdate(rule, v2, Ciudad, d.ciudad, true);
    var v4 := FieldUpdate(rule, v3, CodigoPostal, d.codigoPostal, true);
    FieldUpdateAt(rule, v, Calle, d.calle, true, g);
    FieldUpdateAt(rule, v1, Estado, d.estado, true, g);
    FieldUpdateAt(rule, v2, Ciudad, d.ciudad, true, g);
    FieldUpdateAt(rule, v3, CodigoPostal, d.codigoPostal, true, g);
    FieldUpdateAt(rule, v4, Descripcion, form.descripcion, true, g);
  }

  /** With the field rules, the calls build `ValidatedForm`, which again has every field. */
  lemma {:induction false} ValidationStepsValidate(v: map<Field, FieldState>, w: map<Field, FieldState>,
                                                   form: FormData, professional: bool)
    requires HasEveryField(v)
    requires w == if professional && form.direccion.Some?
                  then ProfessionalSteps(FieldRule, BasicSteps(FieldRule, v, form, professional), form)
                  else BasicSteps(FieldRule, v, form, professional)
    ensures w == ValidatedForm(v, form, professional)
    ensures HasEveryField(w)
  {
    ValidatedFormSteps(FieldRule, v, form, professional);
  }

  lemma EveryFieldPassed()
    ensures HasEveryField(AllPassed)
  {
    forall f: Field ensures f in AllPassed {
      match f
      case Nombre =>
      case Correo =>
      case Telefono =>
      case Calle =>
      case Estado =>
      case Ciudad =>
      case CodigoPostal =>
      case Descripcion =>
    }
  }

  lemma EveryFieldIsAll(v: map<Field, FieldState>)
    requires HasEveryField(v)
    ensures v.Keys == AllFields
  {
    forall f: Field ensures f in AllFields {
      match f
      case Nombre =>
      case Correo =>
      case Telefono =>
      case Calle =>
      case Estado =>
      case Ciudad =>
      case CodigoPostal =>
      case Descripcion =>
    }
  }

  /** A record with every field's entry, each of them passed, is the initial record. */
  lemma FieldOrderCoversAll(v: map<Field, FieldState>)
    requires HasEveryField(v)
    requires forall j :: 0 <= j < |FieldOrder| ==> v[FieldOrder[j]] == Passed
    ensures v == AllPassed
  {
    EveryFieldIsAll(v);
    assert FieldOrder[0] == Nombre && FieldOrder[1] == Correo && FieldOrder[2] == Telefono;
    assert FieldOrder[3] == Calle && FieldOrder[4] == Estado && FieldOrder[5] == Ciudad;
    assert FieldOrder[6] == CodigoPostal && FieldOrder[7] == Descripcion;
  }
}
