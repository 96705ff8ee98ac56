/**
 * The pure parts of the profile form: the eight per-field rules, the whole-form revalidation,
 * filling a form from a profile, the JSON snapshot copy and the body a save sends.
 */
module ProfileRules {
  import opened Common
  import opened JsText
  import opened ProfileTypes
  import UserData

  // ---------------------------------------------------------------------------------------------
  // E-mail

  /** `[^\s@]+`: a non-empty run of characters that are neither white space nor `@`. */
  predicate IsEmailPart(s: string) {
    |s| > 0 && forall k :: 0 <= k < |s| ==> !IsWhitespace(s[k]) && s[k] != '@'
  }

  /**
   * `/^[^\s@]+@[^\s@]+\.[^\s@]+$/`: an `@` at `i` and a `.` at `j` cut the text into three
   * parts of the class above.
   */
  predicate MatchesEmailPattern(s: string) {
    exists i, j :: 0 < i && i + 1 < j && j + 1 < |s| && s[i] == '@' && s[j] == '.' &&
      IsEmailPart(s[..i]) && IsEmailPart(s[i + 1..j]) && IsEmailPart(s[j + 1..])
  }

  /** A matching address has no white space and exactly one `@`, which is neither first nor last. */
  lemma {:induction false} EmailShapeNecessary(s: string)
    requires MatchesEmailPattern(s)
    ensures HasNoWhitespace(s)
    ensures exists i :: 0 < i < |s| - 1 && s[i] == '@'
    ensures forall k1, k2 :: 0 <= k1 < |s| && 0 <= k2 < |s| && s[k1] == '@' && s[k2] == '@' ==> k1 == k2
  {
    var i, j :| 0 < i && i + 1 < j && j + 1 < |s| && s[i] == '@' && s[j] == '.' &&
      IsEmailPart(s[..i]) && IsEmailPart(s[i + 1..j]) && IsEmailPart(s[j + 1..]);
    forall k | 0 <= k < |s| && k != i
      ensures !IsWhitespace(s[k]) && s[k] != '@'
    {
      if k < i {
        assert s[k] == s[..i][k];
      } else if k < j {
        assert s[k] == s[i + 1..j][k - i - 1];
      } else if k > j {
        assert s[k] == s[j + 1..][k - j - 1];
      }
    }
  }

  /**
   * Conversely, text without white space whose only `@` is not first, followed later by a `.`
   * that is neither right after the `@` nor last, matches.
   */
  lemma {:induction false} EmailShapeSufficient(s: string, i: nat, j: nat)
    requires HasNoWhitespace(s)
    requires 0 < i && i + 1 < j && j + 1 < |s| && s[i] == '@' && s[j] == '.'
    requires forall k :: 0 <= k < |s| && s[k] == '@' ==> k == i
    ensures MatchesEmailPattern(s)
  {
    assert IsEmailPart(s[..i]);
    var domain, last := s[i + 1..j], s[j + 1..];
    assert forall k :: 0 <= k < |domain| ==> domain[k] == s[i + 1 + k];
    assert forall k :: 0 <= k < |last| ==> last[k] == s[j + 1 + k];
  }

  /** The address a user would type passes. */
  lemma EmailAccepted()
    ensures MatchesEmailPattern("ana@correo.com")
  {
    var s := "ana@correo.com";
    assert HasNoWhitespace(s);
    EmailShapeSufficient(s, 3, 10);
  }

  /** A word without `@` does not. */
  lemma NotAnEmailRejected()
    ensures !MatchesEmailPattern("not-an-email")
  {
    var t := "not-an-email";
    assert forall k :: 0 <= k < |t| ==> t[k] != '@';
  }

  // ---------------------------------------------------------------------------------------------
  // Phone

  /**
   * `/^(\+57\s?)?[3][0-9]{9}$/`: a mobile number, optionally after `+57` and at most one white
   * space character.
   */
  predicate MatchesProfilePhonePattern(s: string) {
    UserData.IsMobileNumber(s) ||
    (HasPrefix(s, "+57") && UserData.IsMobileNumber(s[3..])) ||
    (HasPrefix(s, "+57") && |s| > 3 && IsWhitespace(s[3]) && UserData.IsMobileNumber(s[4..]))
  }

  /** On text without white space the profile pattern is the registration pattern. */
  lemma {:induction false} ProfilePhonePatternWithoutSpaces(s: string)
    requires HasNoWhitespace(s)
    ensures MatchesProfilePhonePattern(s) <==> UserData.IsColombianMobile(s)
  {
  }

  // ---------------------------------------------------------------------------------------------
  // The eight field rules

  /** The name: at least two characters once trimmed. */
  function NombreRule(valor: string): (r: FieldState)
    ensures r.valid <==> |Trim(valor)| >= 2
    ensures r.valid <==> r.message == NoMessage
    ensures IsBlank(valor) ==> r.message == NombreRequired
    ensures !IsBlank(valor) && !r.valid ==> r.message == NombreShort
  {
    if Trim(valor) == [] then FieldState(false, NombreRequired)
    else if |Trim(valor)| < 2 then FieldState(false, NombreShort)
    else Passed
  }

  /** The e-mail: the pattern, on the text as typed. */
  function CorreoRule(valor: string): (r: FieldState)
    ensures r.valid <==> MatchesEmailPattern(valor)
    ensures r.valid <==> r.message == NoMessage
    ensures IsBlank(valor) ==> r.message == CorreoRequired
    ensures !IsBlank(valor) && !r.valid ==> r.message == CorreoFormat
  {
    if IsBlank(valor) then
      BlankIsNoEmail(valor);
      FieldState(false, CorreoRequired)
    else if !MatchesEmailPattern(valor) then FieldState(false, CorreoFormat)
    else Passed
  }

  lemma {:induction false} BlankIsNoEmail(s: string)
    requires IsBlank(s)
    ensures !MatchesEmailPattern(s)
  {
    if MatchesEmailPattern(s) {
      EmailShapeNecessary(s);
    }
  }

  /** The phone: with all white space deleted, an optional `+57`, then `3` and nine digits. */
  function TelefonoRule(valor: string): (r: FieldState)
    ensures r.valid <==> UserData.IsColombianMobile(Strip(valor, IsWhitespace))
    ensures r.valid <==> r.message == NoMessage
    ensures IsBlank(valor) ==> r.message == TelefonoRequired
    ensures !IsBlank(valor) && !r.valid ==> r.message == TelefonoFormat
  {
    var clean := Strip(valor, IsWhitespace);
    ProfilePhonePatternWithoutSpaces(clean);
    if IsBlank(valor) then
      assert clean == [];
      FieldState(false, TelefonoRequired)
    else if !MatchesProfilePhonePattern(clean) then FieldState(false, TelefonoFormat)
    else Passed
  }

  /** The street, department and city: anything but blank. */
  function RequiredRule(valor: string, message: Message): (r: FieldState)
    requires message != NoMessage
    ensures r.valid <==> !IsBlank(valor)
    ensures r.valid <==> r.message == NoMessage
    ensures !r.valid ==> r.message == message
  {
    if IsBlank(valor) then FieldState(false, message) else Passed
  }

  /** The postal code: exactly six digits, on the text as typed. */
  function CodigoPostalRule(valor: string): (r: FieldState)
    ensures r.valid <==> UserData.IsSixDigits(valor)
    ensures r.valid <==> r.message == NoMessage
    ensures IsBlank(valor) ==> r.message == CodigoPostalRequired
    ensures !IsBlank(valor) && !r.valid ==> r.message == CodigoPostalFormat
  {
    if IsBlank(valor) then
      assert |valor| > 0 ==> IsWhitespace(valor[0]) && !IsDigit(valor[0]);
      FieldState(false, CodigoPostalRequired)
    else if !UserData.IsSixDigits(valor) then FieldState(false, CodigoPostalFormat)
    else Passed
  }

  /** The description: at least twenty characters once trimmed. */
  function DescripcionRule(valor: string): (r: FieldState)
    ensures r.valid <==> |Trim(valor)| >= 20
    ensures r.valid <==> r.message == NoMessage
    ensures IsBlank(valor) ==> r.message == DescripcionRequired
    ensures !IsBlank(valor) && !r.valid ==> r.message == DescripcionShort
  {
    if Trim(valor) == [] then FieldState(false, DescripcionRequired)
    else if |Trim(valor)| < 20 then FieldState(false, DescripcionShort)
    else Passed
  }

  /** `validarCampo`'s verdict on one field's value: the rule of that field, whoever the user is. */
  function FieldRule(f: Field, valor: string): FieldState {
    match f
    case Nombre => NombreRule(valor)
    case Correo => CorreoRule(valor)
    case Telefono => TelefonoRule(valor)
    case Calle => RequiredRule(valor, CalleRequired)
    case Estado => RequiredRule(valor, EstadoRequired)
    case Ciudad => RequiredRule(valor, CiudadRequired)
    case CodigoPostal => CodigoPostalRule(valor)
    case Descripcion => DescripcionRule(valor)
  }

  /**
   * A mobile number passes bare and written `+57 301 234 5678`-style, e.g. `3012345678` and
   * `+57 301 234 5678`.
   */
  lemma {:induction false} MobilePhonesAccepted(n: string)
    requires UserData.IsMobileNumber(n)
    ensures TelefonoRule(n).valid
    ensures TelefonoRule(UserData.GroupedPhone(n)).valid
  {
    DigitsKeptByStrip(n);
    GroupedPhoneCleaned(n);
    assert ("+57" + n)[3..] == n;
  }

  /** Nine digits are too few, e.g. `301234567`. */
  lemma {:induction false} ShortPhoneRejected(n: string)
    requires |n| == 9 && AllDigits(n)
    ensures !TelefonoRule(n).valid
  {
    DigitsKeptByStrip(n);
    assert !HasPrefix(n, "+57") by { assert IsDigit(n[0]); }
  }

  /**
   * Ten digits that do not start with 3 fail, bare or grouped, e.g. `+57 201 234 5678`.
   */
  lemma {:induction false} NonMobilePhoneRejected(n: string)
    requires |n| == 10 && AllDigits(n) && n[0] != '3'
    ensures !TelefonoRule(n).valid
    ensures !TelefonoRule(UserData.GroupedPhone(n)).valid
  {
    DigitsKeptByStrip(n);
    assert !HasPrefix(n, "+57") by { assert IsDigit(n[0]); }
    GroupedPhoneCleaned(n);
    var g := "+57" + n;
    assert g[3..] == n;
    assert !UserData.IsMobileNumber(g) by { assert |g| == 13; }
  }

  /** `+57 aaa bbb cccc` with its spaces deleted, for digits `n`. */
  lemma {:induction false} GroupedPhoneCleaned(n: string)
    requires |n| == 10 && AllDigits(n)
    ensures Strip(UserData.GroupedPhone(n), IsWhitespace) == "+57" + n
  {
    assert UserData.GroupedPhone(n) == "+57 " + n[..3] + " " + n[3..6] + " " + n[6..];
    assert forall i :: 0 <= i < |n| ==> !IsWhitespace(n[i]);
    UserData.StripGrouped(n, IsWhitespace);
  }

  /**
   * Where the registration phone check and the profile phone check can disagree: on text with
   * no `-`, `(` or `)` they agree, and a dashed number passes only the registration check.
   */
  lemma {:induction false} PhoneRulesAgreeWithoutPunctuation(valor: string)
    requires forall i :: 0 <= i < |valor| ==> valor[i] != '-' && valor[i] != '(' && valor[i] != ')'
    ensures TelefonoRule(valor).valid <==> UserData.ValidarTelefonoColombiano(valor).valid
  {
    SameCleanPhone(valor);
  }

  lemma {:induction false} SameCleanPhone(valor: string)
    requires forall i :: 0 <= i < |valor| ==> valor[i] != '-' && valor[i] != '(' && valor[i] != ')'
    ensures Strip(valor, IsWhitespace) == Strip(valor, UserData.IsPhoneSeparator)
  {
    StripSameOn(valor, IsWhitespace, UserData.IsPhoneSeparator);
  }

  /** A mobile number written `ddd-ddd-dddd`. */
  function Dashed(n: string): string
    requires |n| == 10
  {
    n[..3] + "-" + n[3..6] + "-" + n[6..]
  }

  /** A dashed mobile number passes the registration check and fails the profile check. */
  lemma {:induction false} DashedPhoneOnlyPassesRegistration(n: string)
    requires UserData.IsMobileNumber(n)
    ensures UserData.ValidarTelefonoColombiano(Dashed(n)).valid
    ensures !TelefonoRule(Dashed(n)).valid
  {
    DashesDeleted(n);
    DashesKept(n);
    assert Dashed(n)[3] == '-';
  }

  lemma {:induction false} DashesDeleted(n: string)
    requires UserData.IsMobileNumber(n)
    ensures Strip(Dashed(n), UserData.IsPhoneSeparator) == n
  {
    var a, b, c := n[..3], n[3..6], n[6..];
    DigitsAreNoSeparators(n, 0, 3);
    DigitsAreNoSeparators(n, 3, 6);
    DigitsAreNoSeparators(n, 6, 10);
    DashJoined(a, b, c);
    assert a + b + c == n;
  }

  lemma {:induction false} DashJoined(a: string, b: string, c: string)
    requires Strip(a, UserData.IsPhoneSeparator) == a
    requires forall i :: 0 <= i < |b| ==> !UserData.IsPhoneSeparator(b[i])
    requires forall i :: 0 <= i < |c| ==> !UserData.IsPhoneSeparator(c[i])
    ensures Strip(a + "-" + b + "-" + c, UserData.IsPhoneSeparator) == a + b + c
  {
    UserData.StripSepThen(a, '-', b, UserData.IsPhoneSeparator);
    UserData.StripSepThen(a + "-" + b, '-', c, UserData.IsPhoneSeparator);
  }

  /** A run of digits holds no phone separator, so deleting separators keeps it whole. */
  lemma {:induction false} DigitsAreNoSeparators(n: string, lo: nat, hi: nat)
    requires AllDigits(n) && lo <= hi <= |n|
    ensures forall i :: 0 <= i < hi - lo ==> !UserData.IsPhoneSeparator(n[lo..hi][i])
    ensures Strip(n[lo..hi], UserData.IsPhoneSeparator) == n[lo..hi]
  {
    var m := n[lo..hi];
    assert forall i :: 0 <= i < |m| ==> m[i] == n[lo + i];
  }

  lemma {:induction false} DashesKept(n: string)
    requires UserData.IsMobileNumber(n)
    ensures Strip(Dashed(n), IsWhitespace) == Dashed(n)
  {
    var d := Dashed(n);
    forall i | 0 <= i < |d| ensures !IsWhitespace(d[i]) {
      if i < 3 { assert d[i] == n[i]; }
      else if i == 3 || i == 7 { assert d[i] == '-'; }
      else if i < 7 { assert d[i] == n[i - 1]; }
      else { assert d[i] == n[i - 2]; }
    }
  }

  /** Postal codes: six digits pass, four digits or a letter fail, e.g. `110221`, `1102`. */
  lemma PostalAccepted()
    ensures CodigoPostalRule("110221").valid
  {
  }

  lemma ShortPostalRejected()
    ensures !CodigoPostalRule("1102").valid
  {
  }

  lemma LetterPostalRejected()
    ensures !CodigoPostalRule("11022a").valid
  {
    assert !IsDigit("11022a"[5]);
  }

  /** A six-digit code typed after a space fails the profile check but passes the address helper. */
  lemma {:induction false} PaddedPostalOnlyPassesAddressCheck(code: string)
    requires UserData.IsSixDigits(code)
    ensures !CodigoPostalRule(" " + code).valid
    ensures UserData.ValidarCodigoPostalColombiano(" " + code).valid
  {
    StripAppend(" ", code, IsWhitespace);
    DigitsKeptByStrip(code);
    assert Strip(" ", IsWhitespace) == [];
    assert !IsDigit((" " + code)[0]);
  }

  /** A code the profile rule accepts is accepted by the address helper too. */
  lemma {:induction false} PostalRuleStricter(valor: string)
    requires CodigoPostalRule(valor).valid
    ensures UserData.ValidarCodigoPostalColombiano(valor).valid
  {
    DigitsKeptByStrip(valor);
  }

  lemma {:induction false} DigitsKeptByStrip(valor: string)
    requires AllDigits(valor)
    ensures Strip(valor, IsWhitespace) == valor
  {
    assert forall i :: 0 <= i < |valor| ==> !IsWhitespace(valor[i]);
  }

  /** Nineteen characters of description are too few; twenty are enough. */
  lemma {:induction false} DescriptionBoundary(s: string)
    requires s != [] && !IsWhitespace(s[0]) && !IsWhitespace(s[|s| - 1])
    ensures |s| == 19 ==> !DescripcionRule(s).valid
    ensures |s| == 20 ==> DescripcionRule(s).valid
  {
    TrimUntouched(s);
  }

  // ---------------------------------------------------------------------------------------------
  // The validation record

  /**
   * Whether `validarFormulario` runs a field's rule: always for name, e-mail and phone, and for
   * the five professional fields only for a professional whose form has an address.
   */
  predicate Checked(f: Field, form: FormData, professional: bool) {
    !IsProfessionalField(f) || (professional && form.direccion.Some?)
  }

  /** The value of `form` a field's rule reads (`descripcion || ''` is the description itself). */
  function FieldValue(form: FormData, f: Field): string {
    match f
    case Nombre => form.nombre
    case Correo => form.correo
    case Telefono => form.telefono
    case Descripcion => form.descripcion
    case Calle => if form.direccion.Some? then form.direccion.value.calle else ""
    case Estado => if form.direccion.Some? then form.direccion.value.estado else ""
    case Ciudad => if form.direccion.Some? then form.direccion.value.ciudad else ""
    case CodigoPostal => if form.direccion.Some? then form.direccion.value.codigoPostal else ""
  }

  /**
   * The record after `validarFormulario`: every checked field holds its rule's verdict on the
   * form, every other entry is as it was.
   */
  function ValidatedForm(v: map<Field, FieldState>, form: FormData, professional: bool): map<Field, FieldState> {
    ValidatedBy(FieldRule, v, form, professional)
  }

  /**
   * The same record for any table of rules: which entries are rewritten, and from which values,
   * does not depend on what the rules are.
   */
  function ValidatedBy(rule: (Field, string) -> FieldState, v: map<Field, FieldState>, form: FormData,
                       professional: bool): map<Field, FieldState> {
    map f | f in AllFields && (f in v || Checked(f, form, professional)) ::
      if Checked(f, form, professional) then rule(f, FieldValue(form, f)) else v[f]
  }

  /** `Object.values(validation).every(field => field && field.valid)`. */
  predicate AllValid(v: map<Field, FieldState>) {
    forall f :: f in v ==> v[f].valid
  }

  /** One entry of the record after `validarFormulario`. */
  lemma {:induction false} ValidatedFormAt(v: map<Field, FieldState>, form: FormData, professional: bool, f: Field)
    ensures var w := ValidatedForm(v, form, professional);
      (f in w <==> f in v || Checked(f, form, professional)) &&
      (Checked(f, form, professional) ==> w[f] == FieldRule(f, FieldValue(form, f))) &&
      (!Checked(f, form, professional) && f in v ==> w[f] == v[f])
  {
    assert f in AllFields;
  }

  /**
   * `validarFormulario` answers true exactly when every checked field passes its rule and every
   * entry left unchecked was already valid.
   */
  lemma {:induction false} FormValidIff(v: map<Field, FieldState>, form: FormData, professional: bool)
    ensures AllValid(ValidatedForm(v, form, professional)) <==>
              (forall f :: Checked(f, form, professional) ==> FieldRule(f, FieldValue(form, f)).valid) &&
              (forall f :: !Checked(f, form, professional) && f in v ==> v[f].valid)
  {
    var w := ValidatedForm(v, form, professional);
    if AllValid(w) {
      forall f | Checked(f, form, professional) ensures FieldRule(f, FieldValue(form, f)).valid {
        ValidatedFormAt(v, form, professional, f);
      }
      forall f | !Checked(f, form, professional) && f in v ensures v[f].valid {
        ValidatedFormAt(v, form, professional, f);
      }
    } else {
      var f :| f in w && !w[f].valid;
      ValidatedFormAt(v, form, professional, f);
    }
  }

  /**
   * A professional whose form has an address but a blank description never passes, whatever the
   * record held before: `guardarCambios` then rejects without calling the store.
   */
  lemma {:induction false} BlankDescriptionBlocksSave(v: map<Field, FieldState>, form: FormData)
    requires form.direccion.Some? && IsBlank(form.descripcion)
    ensures !AllValid(ValidatedForm(v, form, true))
    ensures ValidatedForm(v, form, true)[Descripcion].message == DescripcionRequired
  {
    var w := ValidatedForm(v, form, true);
    ValidatedFormAt(v, form, true, Descripcion);
    var r := DescripcionRule(form.descripcion);
    assert w[Descripcion] == r;
    assert Descripcion in w && !w[Descripcion].valid;
  }

  /**
   * For a client, starting from a record with every entry valid, the form passes exactly when
   * name, e-mail and phone pass: the professional fields never make it fail, even when empty.
   */
  lemma {:induction false} ClientIgnoresProfessionalFields(v: map<Field, FieldState>, form: FormData)
    requires AllValid(v)
    ensures AllValid(ValidatedForm(v, form, false)) <==>
              NombreRule(form.nombre).valid && CorreoRule(form.correo).valid && TelefonoRule(form.telefono).valid
  {
    if AllValid(ValidatedForm(v, form, false)) {
      ClientBasicsPass(v, form);
    } else if NombreRule(form.nombre).valid && CorreoRule(form.correo).valid && TelefonoRule(form.telefono).valid {
      ClientFormPasses(v, form);
    }
  }

  lemma {:induction false} ClientBasicsPass(v: map<Field, FieldState>, form: FormData)
    requires AllValid(ValidatedForm(v, form, false))
    ensures NombreRule(form.nombre).valid && CorreoRule(form.correo).valid && TelefonoRule(form.telefono).valid
  {
    NombrePassed(v, form);
    CorreoPassed(v, form);
    TelefonoPassed(v, form);
  }

  lemma {:induction false} NombrePassed(v: map<Field, FieldState>, form: FormData)
    requires AllValid(ValidatedForm(v, form, false))
    ensures NombreRule(form.nombre).valid
  {
    BasicFieldPasses(v, form, Nombre);
  }

  lemma {:induction false} CorreoPassed(v: map<Field, FieldState>, form: FormData)
    requires AllValid(ValidatedForm(v, form, false))
    ensures CorreoRule(form.correo).valid
  {
    BasicFieldPasses(v, form, Correo);
  }

  lemma {:induction false} TelefonoPassed(v: map<Field, FieldState>, form: FormData)
    requires AllValid(ValidatedForm(v, form, false))
    ensures TelefonoRule(form.telefono).valid
  {
    ValidatedFormAt(v, form, false, Telefono);
    var w := ValidatedForm(v, form, false);
    assert w[Telefono] == TelefonoRule(form.telefono);
  }

  /** A field every user is checked on passes its rule when the client's record is all valid. */
  lemma {:induction false} BasicFieldPasses(v: map<Field, FieldState>, form: FormData, f: Field)
    requires AllValid(ValidatedForm(v, form, false))
    requires !IsProfessionalField(f)
    ensures FieldRule(f, FieldValue(form, f)).valid
  {
    ValidatedFormAt(v, form, false, f);
    var w := ValidatedForm(v, form, false);
    assert w[f].valid;
  }

  lemma {:induction false} ClientFormPasses(v: map<Field, FieldState>, form: FormData)
    requires AllValid(v)
    requires NombreRule(form.nombre).valid && CorreoRule(form.correo).valid && TelefonoRule(form.telefono).valid
    ensures AllValid(ValidatedForm(v, form, false))
  {
    var w := ValidatedForm(v, form, false);
    forall f | f in w ensures w[f].valid {
      ClientEntryValid(v, form, f);
    }
  }

  /** One entry of a client's record, once the three basic fields pass. */
  lemma {:induction false} ClientEntryValid(v: map<Field, FieldState>, form: FormData, f: Field)
    requires AllValid(v)
    requires NombreRule(form.nombre).valid && CorreoRule(form.correo).valid && TelefonoRule(form.telefono).valid
    requires f in ValidatedForm(v, form, false)
    ensures ValidatedForm(v, form, false)[f].valid
  {
    ValidatedFormAt(v, form, false, f);
    if f != Nombre && f != Correo && f != Telefono {
      assert !Checked(f, form, false);
    }
  }

  /** Validating twice in a row gives the record validating once gives. */
  lemma {:induction false} ValidatedFormIdempotent(v: map<Field, FieldState>, form: FormData, professional: bool)
    ensures ValidatedForm(ValidatedForm(v, form, professional), form, professional) == ValidatedForm(v, form, professional)
  {
  }

  /** The record every manager starts with and `cancelarEdicion` returns to. */
  const AllPassed: map<Field, FieldState> := map f | f in AllFields :: Passed

  // ---------------------------------------------------------------------------------------------
  // Filling, copying and saving the form

  /** `rellenarFormulario`: the form for a loaded profile; absent members become empty strings. */
  function FormFromProfile(data: ProfileResponse): (f: FormData)
    ensures f.nombre == data.nombre && f.correo == data.correo && f.telefono == data.telefono
    ensures f.fotoUrl == data.fotoUrl.GetOr("") && f.descripcion == data.descripcion.GetOr("")
    ensures f.foto.None? && f.direccion == Some(data.direccion.GetOr(EmptyAddress))
  {
    FormData(
      data.nombre, data.correo, data.telefono,
      data.fotoUrl.GetOr(""),
      None,
      Some(data.direccion.GetOr(EmptyAddress)),
      data.descripcion.GetOr(""))
  }

  /** The form holds no picked file, only what survives a JSON round trip. */
  predicate NoFile(f: FormData) {
    !(f.foto.Some? && f.foto.value.PhotoFile?)
  }

  /** `JSON.parse(JSON.stringify(form))`: a picked file becomes an empty object, the rest is kept. */
  function JsonCopy(f: FormData): (c: FormData)
    ensures NoFile(c)
    ensures c.(foto := f.foto) == f
    ensures f.foto.Some? <==> c.foto.Some?
    ensures NoFile(f) ==> c == f
  {
    if f.foto.Some? && f.foto.value.PhotoFile? then f.(foto := Some(PhotoPlainObject)) else f
  }

  /** Copying a copy changes nothing. */
  lemma JsonCopyIdempotent(f: FormData)
    ensures JsonCopy(JsonCopy(f)) == JsonCopy(f)
  {
  }

  /**
   * The body `guardarCambios` sends: the basic members and the photo URL always, the address and
   * description only for a professional. The picked photo file is not part of it.
   */
  function SavePayload(form: FormData, professional: bool): (b: ApiBody)
    ensures b.nombre == form.nombre && b.correo == form.correo && b.telefono == form.telefono
    ensures b.fotoUrl == Some(form.fotoUrl)
    ensures b.direccion.Some? ==> professional && b.direccion == form.direccion
    ensures professional ==> b.direccion == form.direccion
    ensures b.descripcion.Some? <==> professional
    ensures professional ==> b.descripcion == Some(form.descripcion)
  {
    ApiBody(
      form.nombre, form.correo, form.telefono,
      Some(form.fotoUrl),
      if professional then form.direccion else None,
      if professional then Some(form.descripcion) else None)
  }

  /**
   * Saving and reloading through a store that keeps what it is sent gives the form back, up to
   * the picked file, an absent address (which comes back empty) and, for a client, the address
   * and description, which are not sent.
   */
  lemma {:induction false} SaveReloadRoundTrip(id: string, rol: Role, form: FormData)
    ensures FormFromProfile(StoredProfile(id, rol, SavePayload(form, rol == Professional))) ==
              form.(foto := None,
                    direccion := if rol == Professional then Some(form.direccion.GetOr(EmptyAddress)) else Some(EmptyAddress),
                    descripcion := if rol == Professional then form.descripcion else "")
  {
  }

  /** The same round trip through the profile-to-API transform `transformProfileToApi`. */
  lemma {:induction false} TransformReloadRoundTrip(id: string, rol: Role, form: FormData)
    ensures FormFromProfile(StoredProfile(id, rol, UserData.TransformProfileToApi(form))) ==
              form.(foto := None, direccion := Some(form.direccion.GetOr(EmptyAddress)))
  {
  }

  /**
   * The save body and the body of the profile-to-API transform `transformProfileToApi` differ
   * only where the transform turns an empty photo URL into null and leaves an empty description
   * out.
   */
  lemma {:induction false} PayloadsAgreeWhenFilledIn(form: FormData)
    requires form.fotoUrl != "" && form.descripcion != ""
    ensures SavePayload(form, true) == UserData.TransformProfileToApi(form)
  {
  }
}
