/**
 * The records the profile code exchanges: the profile the server returns, the editable form,
 * the per-field validation entries and the body sent back to the server.
 */
module ProfileTypes {
  import opened Common

  datatype Role = Client | Professional

  /** A professional's address; `estado` is the department. */
  datatype Address = Address(calle: string, estado: string, ciudad: string, codigoPostal: string)

  const EmptyAddress := Address("", "", "", "")

  /** The profile record the server returns; optional members are `None` when absent or null. */
  datatype ProfileResponse = ProfileResponse(
    id: string,
    rol: Role,
    nombre: string,
    correo: string,
    telefono: string,
    fotoUrl: Option<string>,
    direccion: Option<Address>,
    descripcion: Option<string>)

  /** A file picked in the browser, reduced to what the code reads of it. */
  datatype FileRef = FileRef(name: string, mimeType: string)

  /**
   * What the form's `foto` member can hold: the picked file, or the empty plain object a
   * JSON round trip turns a file into.
   */
  datatype PhotoValue = PhotoFile(file: FileRef) | PhotoPlainObject

  /** The editable draft of a profile. An absent `descripcion` is the empty string. */
  datatype FormData = FormData(
    nombre: string,
    correo: string,
    telefono: string,
    fotoUrl: string,
    foto: Option<PhotoValue>,
    direccion: Option<Address>,
    descripcion: string)

  /** The all-empty form a fresh manager starts with and a deleted profile leaves behind. */
  const EmptyForm := FormData("", "", "", "", None, Some(EmptyAddress), "")

  /** The eight validated fields, in the order the validation record declares them. */
  datatype Field = Nombre | Correo | Telefono | Calle | Estado | Ciudad | CodigoPostal | Descripcion

  const FieldOrder: seq<Field> := [Nombre, Correo, Telefono, Calle, Estado, Ciudad, CodigoPostal, Descripcion]

  const AllFields: set<Field> := {Nombre, Correo, Telefono, Calle, Estado, Ciudad, CodigoPostal, Descripcion}

  predicate IsProfessionalField(f: Field) {
    f.Calle? || f.Estado? || f.Ciudad? || f.CodigoPostal? || f.Descripcion?
  }

  /**
   * The messages a validation entry can carry, one constructor per distinct text; `MessageText`
   * is what the user reads. `NoMessage` is the empty text of an entry that passed.
   */
  datatype Message =
    | NoMessage
    | NombreRequired | NombreShort | CorreoRequired | CorreoFormat | TelefonoRequired | TelefonoFormat
    | CalleRequired | EstadoRequired | CiudadRequired
    | CodigoPostalRequired | CodigoPostalFormat | DescripcionRequired | DescripcionShort
    | PhoneRequired | PhoneFormat | PostalRequired | PostalFormat
    | StreetRequired | DepartmentRequired | CityRequired

  /** The text of each message; only `NoMessage` has the empty text. */
  function MessageText(m: Message): (t: string)
    ensures t == "" <==> m == NoMessage
  {
    match m
    case NoMessage => ""
    case NombreRequired => "El nombre es obligatorio"
    case NombreShort => "El nombre debe tener al menos 2 caracteres"
    case CorreoRequired => "El correo es obligatorio"
    case CorreoFormat => "Formato de correo inválido"
    case TelefonoRequired => "El teléfono es obligatorio"
    case TelefonoFormat => "Formato inválido. Ej: +57 301 234 5678"
    case CalleRequired => "La calle es obligatoria para profesionales"
    case EstadoRequired => "El estado es obligatorio para profesionales"
    case CiudadRequired => "La ciudad es obligatoria para profesionales"
    case CodigoPostalRequired => "El código postal es obligatorio para profesionales"
    case CodigoPostalFormat => "Código postal debe tener 6 dígitos"
    case DescripcionRequired => "La descripción es obligatoria para profesionales"
    case DescripcionShort => "La descripción debe tener al menos 20 caracteres"
    case PhoneRequired => "El teléfono es obligatorio"
    case PhoneFormat => "Formato inválido. Use: +57 301 234 5678 o 301 234 5678"
    case PostalRequired => "El código postal es obligatorio"
    case PostalFormat => "Código postal debe tener 6 dígitos (ej: 110221)"
    case StreetRequired => "La dirección es obligatoria"
    case DepartmentRequired => "El departamento es obligatorio"
    case CityRequired => "La ciudad es obligatoria"
  }

  /** One validation entry: `{ valid, message }`, the message standing for its text. */
  datatype FieldState = FieldState(valid: bool, message: Message)

  const Passed := FieldState(true, NoMessage)

  /**
   * A JSON object body sent to the profile endpoint. `fotoUrl` is `None` for JSON `null`;
   * `direccion` and `descripcion` are `None` when the member is absent.
   */
  datatype ApiBody = ApiBody(
    nombre: string,
    correo: string,
    telefono: string,
    fotoUrl: Option<string>,
    direccion: Option<Address>,
    descripcion: Option<string>)

  /**
   * The profile a store returns when it keeps what it was sent: empty or null members come back
   * absent, and the role stays the stored one.
   */
  function StoredProfile(id: string, rol: Role, body: ApiBody): ProfileResponse
  {
    ProfileResponse(
      id, rol, body.nombre, body.correo, body.telefono,
      if body.fotoUrl == Some("") then None else body.fotoUrl,
      body.direccion,
      if body.descripcion == Some("") then None else body.descripcion)
  }
}
