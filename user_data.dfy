/**
 * Pure helpers for Colombian user data: the registration-to-profile and form-to-API
 * transforms, phone and postal-code validators, the phone display formatter, the department
 * lookup and the whole-address validator.
 */
module UserData {
  import opened Common
  import opened JsText
  import opened ProfileTypes
  import Locations

  /** What the registration form collects; `role` is whatever string the form sent. */
  datatype RegisterData = RegisterData(
    firstName: string,
    lastName: string,
    email: string,
    password: string,
    phone: string,
    role: string)

  /** The part of a profile a registration determines. */
  datatype ProfileDraft = ProfileDraft(nombre: string, correo: string, telefono: string, rol: Role)

  /** `transformRegisterToProfile`. */
  function TransformRegisterToProfile(data: RegisterData): (p: ProfileDraft)
    ensures p.nombre == data.firstName + " " + data.lastName
    ensures p.correo == data.email && p.telefono == data.phone
    ensures p.rol == Client <==> data.role == "client"
  {
    ProfileDraft(
      data.firstName + " " + data.lastName,
      data.email,
      data.phone,
      if data.role == "client" then Client else Professional)
  }

  /** `transformProfileToApi`: an empty photo URL is sent as null, empty extras are left out. */
  function TransformProfileToApi(f: FormData): (b: ApiBody)
    ensures b.nombre == f.nombre && b.correo == f.correo && b.telefono == f.telefono
    ensures b.fotoUrl == None <==> f.fotoUrl == ""
    ensures b.fotoUrl.Some? ==> b.fotoUrl.value == f.fotoUrl
    ensures b.direccion == f.direccion
    ensures b.descripcion.Some? <==> f.descripcion != ""
    ensures b.descripcion.Some? ==> b.descripcion.value == f.descripcion
  {
    ApiBody(
      f.nombre,
      f.correo,
      f.telefono,
      if f.fotoUrl != "" then Some(f.fotoUrl) else None,
      f.direccion,
      if f.descripcion != "" then Some(f.descripcion) else None)
  }

  /** `[\s\-()]`: the characters the phone helpers delete before matching. */
  predicate IsPhoneSeparator(c: char) {
    IsWhitespace(c) || c == '-' || c == '(' || c == ')'
  }

  /** `[3][0-9]{9}`: a ten-digit Colombian mobile number. */
  predicate IsMobileNumber(s: string) {
    |s| == 10 && s[0] == '3' && AllDigits(s)
  }

  /** `/^\+57[3][0-9]{9}$/` or `/^[3][0-9]{9}$/`. */
  predicate IsColombianMobile(s: string) {
    IsMobileNumber(s) || (HasPrefix(s, "+57") && IsMobileNumber(s[3..]))
  }

  /** `validarTelefonoColombiano`. */
  function ValidarTelefonoColombiano(telefono: string): (r: FieldState)
    ensures r.valid <==> IsColombianMobile(Strip(telefono, IsPhoneSeparator))
    ensures r.valid <==> r.message == NoMessage
    ensures IsBlank(telefono) ==> r.message == PhoneRequired
    ensures !IsBlank(telefono) && !r.valid ==> r.message == PhoneFormat
  {
    var clean := Strip(telefono, IsPhoneSeparator);
    if IsBlank(telefono) then
      assert clean == [];
      FieldState(false, PhoneRequired)
    else if IsColombianMobile(clean) then
      Passed
    else
      FieldState(false, PhoneFormat)
  }

  /** `^\d{6}$`. */
  predicate IsSixDigits(s: string) {
    |s| == 6 && AllDigits(s)
  }

  /** `validarCodigoPostalColombiano`: six digits once white space is deleted. */
  function ValidarCodigoPostalColombiano(codigo: string): (r: FieldState)
    ensures r.valid <==> IsSixDigits(Strip(codigo, IsWhitespace))
    ensures r.valid <==> r.message == NoMessage
    ensures IsBlank(codigo) ==> r.message == PostalRequired
    ensures !IsBlank(codigo) && !r.valid ==> r.message == PostalFormat
  {
    var clean := Strip(codigo, IsWhitespace);
    if IsBlank(codigo) then
      assert clean == [];
      FieldState(false, PostalRequired)
    else if !IsSixDigits(clean) then
      FieldState(false, PostalFormat)
    else
      Passed
  }

  /** `+57 aaa bbb rest` for the digits `n` after the country code. */
  function GroupedPhone(n: string): string {
    "+57 " + Substring(n, 0, 3) + " " + Substring(n, 3, 6) + " " + SubstringFrom(n, 6)
  }

  /** `formatearTelefonoColombiano`. */
  function FormatearTelefonoColombiano(telefono: string): (r: string)
    ensures var clean := Strip(telefono, IsPhoneSeparator);
            if HasPrefix(clean, "+57") then r == GroupedPhone(clean[3..])
            else if |clean| == 10 && clean[0] == '3' then r == GroupedPhone(clean)
            else r == telefono
  {
    var clean := Strip(telefono, IsPhoneSeparator);
    if HasPrefix(clean, "+57") then GroupedPhone(SubstringFrom(clean, 3))
    else if |clean| == 10 && HasPrefix(clean, "3") then GroupedPhone(clean)
    else telefono
  }

  /** Deleting the separators from a grouped number gives back `+57` and the digits. */
  lemma StripGroupedPhone(n: string)
    requires forall i :: 0 <= i < |n| ==> !IsPhoneSeparator(n[i])
    ensures Strip(GroupedPhone(n), IsPhoneSeparator) == "+57" + n
  {
    StripGrouped(n, IsPhoneSeparator);
  }

  /** `StripGroupedPhone` for any class of deleted characters that holds the space but not `+`, `5`, `7`. */
  lemma {:induction false} StripGrouped(n: string, drop: char -> bool)
    requires drop(' ') && !drop('+') && !drop('5') && !drop('7')
    requires forall i :: 0 <= i < |n| ==> !drop(n[i])
    ensures Strip(GroupedPhone(n), drop) == "+57" + n
  {
    GroupedPhoneParts(n);
    CountryCodeKept(drop);
    StripGroups("+57", n, drop);
  }

  /** A kept prefix followed by the three groups of `n`, each after a deleted space. */
  lemma {:induction false} StripGroups(p: string, n: string, drop: char -> bool)
    requires drop(' ') && Strip(p, drop) == p
    requires forall i :: 0 <= i < |n| ==> !drop(n[i])
    ensures Strip(p + [' '] + Substring(n, 0, 3) + [' '] + Substring(n, 3, 6) + [' '] + SubstringFrom(n, 6), drop) == p + n
  {
    var a, b, c := Substring(n, 0, 3), Substring(n, 3, 6), SubstringFrom(n, 6);
    StripSpaced(p, a, b, c, drop);
    SubstringsJoin(n, 3, 6);
    JoinedAfter(p, a, b, c, n);
  }

  lemma {:induction false} JoinedAfter(p: string, a: string, b: string, c: string, n: string)
    requires a + b + c == n
    ensures p + a + b + c == p + n
  {
    assert p + a + b + c == p + (a + b + c);
  }

  lemma {:induction false} GroupedPhoneParts(n: string)
    ensures GroupedPhone(n) == "+57" + [' '] + Substring(n, 0, 3) + [' '] + Substring(n, 3, 6) + [' '] + SubstringFrom(n, 6)
  {
    assert "+57 " == "+57" + [' '];
    assert " " == [' '];
  }

  lemma {:induction false} CountryCodeKept(drop: char -> bool)
    requires !drop('+') && !drop('5') && !drop('7')
    ensures Strip("+57", drop) == "+57"
  {
  }

  /** Three separator-free groups, each after a space: only the spaces go. */
  lemma {:induction false} StripSpaced(s0: string, a: string, b: string, c: string, drop: char -> bool)
    requires drop(' ')
    requires forall i :: 0 <= i < |a| ==> !drop(a[i])
    requires forall i :: 0 <= i < |b| ==> !drop(b[i])
    requires forall i :: 0 <= i < |c| ==> !drop(c[i])
    ensures Strip(s0 + [' '] + a + [' '] + b + [' '] + c, drop) == Strip(s0, drop) + a + b + c
  {
    StripSepThen(s0, ' ', a, drop);
    StripSepThen(s0 + [' '] + a, ' ', b, drop);
    StripSepThen(s0 + [' '] + a + [' '] + b, ' ', c, drop);
  }

  /** A deleted separator and then text free of deleted characters: the separator goes, the text stays. */
  lemma {:induction false} StripSepThen(x: string, sep: char, y: string, drop: char -> bool)
    requires drop(sep)
    requires forall i :: 0 <= i < |y| ==> !drop(y[i])
    ensures Strip(x + [sep] + y, drop) == Strip(x, drop) + y
  {
    StripAppend(x + [sep], y, drop);
    StripAppend(x, [sep], drop);
    assert Strip([sep], drop) == [];
  }

  /** Formatting a number that is already formatted changes nothing. */
  lemma {:induction false} FormatIdempotent(telefono: string)
    ensures FormatearTelefonoColombiano(FormatearTelefonoColombiano(telefono))
         == FormatearTelefonoColombiano(telefono)
  {
    var clean := Strip(telefono, IsPhoneSeparator);
    if HasPrefix(clean, "+57") {
      var n := clean[3..];
      StripGroupedPhone(n);
      assert "+57" + n == clean;
    } else if |clean| == 10 && clean[0] == '3' {
      StripGroupedPhone(clean);
      var out := FormatearTelefonoColombiano(telefono);
      assert Strip(out, IsPhoneSeparator)[3..] == clean;
    }
  }

  /** A number the validator accepts is still accepted, with the same digits, once formatted. */
  lemma {:induction false} FormattedPhoneStillValid(telefono: string)
    requires ValidarTelefonoColombiano(telefono).valid
    ensures ValidarTelefonoColombiano(FormatearTelefonoColombiano(telefono)).valid
    ensures Strip(FormatearTelefonoColombiano(telefono), IsPhoneSeparator)
         == (var clean := Strip(telefono, IsPhoneSeparator);
             if HasPrefix(clean, "+57") then clean else "+57" + clean)
  {
    var clean := Strip(telefono, IsPhoneSeparator);
    if HasPrefix(clean, "+57") {
      StripGroupedPhone(clean[3..]);
      assert "+57" + clean[3..] == clean;
    } else {
      StripGroupedPhone(clean);
      assert ("+57" + clean)[3..] == clean;
    }
  }

  /**
   * The shape of a rewritten number, for any input: it starts `+57 `, and deleting its separators
   * gives `+57` and the input's digits, with the country code written once.
   */
  lemma {:induction false} FormattedPhoneShape(telefono: string)
    ensures var clean := Strip(telefono, IsPhoneSeparator);
            var r := FormatearTelefonoColombiano(telefono);
            if HasPrefix(clean, "+57") || (|clean| == 10 && clean[0] == '3') then
              HasPrefix(r, "+57 ") &&
              Strip(r, IsPhoneSeparator) == (if HasPrefix(clean, "+57") then clean else "+57" + clean)
            else r == telefono
  {
    var clean := Strip(telefono, IsPhoneSeparator);
    var r := FormatearTelefonoColombiano(telefono);
    if HasPrefix(clean, "+57") {
      assert r == GroupedPhone(clean[3..]);
      GroupedPhoneShape(clean[3..]);
      assert "+57" + clean[3..] == clean;
    } else if |clean| == 10 && clean[0] == '3' {
      assert r == GroupedPhone(clean);
      GroupedPhoneShape(clean);
    }
  }

  lemma {:induction false} GroupedPhoneShape(n: string)
    requires forall i :: 0 <= i < |n| ==> !IsPhoneSeparator(n[i])
    ensures HasPrefix(GroupedPhone(n), "+57 ")
    ensures Strip(GroupedPhone(n), IsPhoneSeparator) == "+57" + n
  {
    StripGroupedPhone(n);
    assert GroupedPhone(n)[..4] == "+57 ";
  }

  /** What `getDepartamentoInfo` returns. */
  datatype DepartmentInfo = DepartmentInfo(nombre: string, codigo: string)

  /** The ten departments `getDepartamentoInfo` knows. */
  const Departamentos: map<string, DepartmentInfo> := map[
    "BOG" := DepartmentInfo("Bogotá D.C.", "BOG"),
    "ANT" := DepartmentInfo("Antioquia", "ANT"),
    "VAC" := DepartmentInfo("Valle del Cauca", "VAC"),
    "ATL" := DepartmentInfo("Atlántico", "ATL"),
    "SAN" := DepartmentInfo("Santander", "SAN"),
    "BOL" := DepartmentInfo("Bolívar", "BOL"),
    "CUN" := DepartmentInfo("Cundinamarca", "CUN"),
    "NSA" := DepartmentInfo("Norte de Santander", "NSA"),
    "HUI" := DepartmentInfo("Huila", "HUI"),
    "RIS" := DepartmentInfo("Risaralda", "RIS")
  ]

  /** `getDepartamentoInfo`: the entry for a known id, otherwise two empty strings. */
  function GetDepartamentoInfo(departamentoId: string): (r: DepartmentInfo)
    ensures departamentoId in Departamentos ==> r.codigo == departamentoId && r.nombre != ""
    ensures departamentoId !in Departamentos ==> r == DepartmentInfo("", "")
  {
    if departamentoId in Departamentos then Departamentos[departamentoId] else DepartmentInfo("", "")
  }

  /** The ten known ids are exactly the departments that have a city list in the location tables. */
  lemma {:induction false} DepartmentInfoMatchesLocations(departamentoId: string)
    ensures departamentoId in Departamentos <==> Locations.GetCiudadesPorEstado(departamentoId) != []
    ensures departamentoId in Departamentos ==>
              GetDepartamentoInfo(departamentoId).nombre == Locations.GetNombreEstado(departamentoId)
  {
    Locations.CityGroupsKeyed(departamentoId);
    if departamentoId in Departamentos {
      DepartmentNameAgrees(departamentoId);
    }
  }

  /** A known department's name is the one the location tables give it. */
  lemma {:induction false} DepartmentNameAgrees(id: string)
    requires id in Departamentos
    ensures Departamentos[id].nombre == Locations.GetNombreEstado(id)
  {
    if id == "BOG" || id == "ANT" {
      PairNamed1(id);
    } else if id == "VAC" || id == "ATL" {
      PairNamed2(id);
    } else if id == "SAN" || id == "BOL" {
      PairNamed3(id);
    } else if id == "CUN" || id == "NSA" {
      PairNamed4(id);
    } else {
      assert id == "HUI" || id == "RIS";
      PairNamed5(id);
    }
  }

  lemma {:induction false} PairNamed1(id: string)
    requires id == "BOG" || id == "ANT"
    ensures Departamentos[id].nombre == Locations.GetNombreEstado(id)
  {
    if id == "BOG" { NamedAt("BOG", 2); } else { NamedAt("ANT", 0); }
  }

  lemma {:induction false} PairNamed2(id: string)
    requires id == "VAC" || id == "ATL"
    ensures Departamentos[id].nombre == Locations.GetNombreEstado(id)
  {
    if id == "VAC" { NamedAt("VAC", 28); } else { NamedAt("ATL", 1); }
  }

  lemma {:induction false} PairNamed3(id: string)
    requires id == "SAN" || id == "BOL"
    ensures Departamentos[id].nombre == Locations.GetNombreEstado(id)
  {
    if id == "SAN" { NamedAt("SAN", 25); } else { NamedAt("BOL", 3); }
  }

  lemma {:induction false} PairNamed4(id: string)
    requires id == "CUN" || id == "NSA"
    ensures Departamentos[id].nombre == Locations.GetNombreEstado(id)
  {
    if id == "CUN" { NamedAt("CUN", 12); } else { NamedAt("NSA", 20); }
  }

  lemma {:induction false} PairNamed5(id: string)
    requires id == "HUI" || id == "RIS"
    ensures Departamentos[id].nombre == Locations.GetNombreEstado(id)
  {
    if id == "HUI" { NamedAt("HUI", 15); } else { NamedAt("RIS", 23); }
  }

  /** The department at position `i` of the location table carries the same name as the known entry. */
  lemma {:induction false} NamedAt(id: string, i: nat)
    requires id in Departamentos && i < |Locations.Estados|
    requires Locations.Estados[i].id == id && Locations.Estados[i].nombre == Departamentos[id].nombre
    ensures Departamentos[id].nombre == Locations.GetNombreEstado(id)
  {
  }

  /** What `validarDireccionColombiana` returns: the verdict and a message per failing field. */
  datatype AddressCheck = AddressCheck(valid: bool, errors: map<Field, Message>)

  /** `validarDireccionColombiana`. */
  function ValidarDireccionColombiana(d: Address): (r: AddressCheck)
    ensures forall f :: f in r.errors <==>
              (f == Calle && IsBlank(d.calle)) ||
              (f == Estado && IsBlank(d.estado)) ||
              (f == Ciudad && IsBlank(d.ciudad)) ||
              (f == CodigoPostal && !ValidarCodigoPostalColombiano(d.codigoPostal).valid)
    ensures Calle in r.errors ==> r.errors[Calle] == StreetRequired
    ensures Estado in r.errors ==> r.errors[Estado] == DepartmentRequired
    ensures Ciudad in r.errors ==> r.errors[Ciudad] == CityRequired
    ensures CodigoPostal in r.errors ==>
              r.errors[CodigoPostal] == ValidarCodigoPostalColombiano(d.codigoPostal).message
    ensures r.valid <==> |r.errors| == 0
  {
    var e0: map<Field, Message> := map[];
    var e1 := if IsBlank(d.calle) then e0[Calle := StreetRequired] else e0;
    var e2 := if IsBlank(d.estado) then e1[Estado := DepartmentRequired] else e1;
    var e3 := if IsBlank(d.ciudad) then e2[Ciudad := CityRequired] else e2;
    var postal := ValidarCodigoPostalColombiano(d.codigoPostal);
    var errors := if !postal.valid then e3[CodigoPostal := postal.message] else e3;
    assert e3.Keys <= {Calle, Estado, Ciudad};
    assert Calle in errors <==> IsBlank(d.calle);
    assert Estado in errors <==> IsBlank(d.estado);
    assert Ciudad in errors <==> IsBlank(d.ciudad);
    AddressCheck(|errors| == 0, errors)
  }

  /** An address passes exactly when street, department and city are filled in and the postal code has six digits. */
  lemma {:induction false} AddressValidIff(d: Address)
    ensures ValidarDireccionColombiana(d).valid <==>
              !IsBlank(d.calle) && !IsBlank(d.estado) && !IsBlank(d.ciudad) &&
              IsSixDigits(Strip(d.codigoPostal, IsWhitespace))
  {
    var r := ValidarDireccionColombiana(d);
    if !r.valid {
      assert r.errors != map[];
      var f :| f in r.errors;
    } else {
      assert r.errors == map[];
    }
  }
}
