# beutyGo profile core, modelled in Dafny

This project models the client-side core of beutyGo, a Nuxt app for booking beauty professionals
in Colombia. Five pieces of its logic are modelled:

- **The profile manager** (`composables/useProfile.ts`) is the class
  `ProfileManagement.ProfileManager`. It holds these fields:
  - the loaded profile;
  - an editable draft (`formData`) and the snapshot that cancel restores (`originalData`);
  - the eight validation entries;
  - the `readonly`/`editing` mode;
  - the busy flags, the last error and the image preview.

  Its methods are load, fill, validate one field, validate the form, image change, begin edit,
  cancel edit, save, delete and "can save". The remote store is not called. Each method that
  would call it takes the store's `reply` as a parameter, so any reply stands for any behaviour
  of the store. The request it would send is appended to the field `sent`. The pure
  rules behind the manager live in `ProfileRules`:
  - the eight field rules;
  - the whole-form record `ValidatedForm`;
  - filling a form from a profile;
  - the JSON snapshot copy;
  - the body a save sends.
- **The Colombian field helpers** (`composables/useUserData.ts`) are in module `UserData`:
  - the phone and postal-code validators;
  - the phone formatter;
  - the two record transforms;
  - the department lookup;
  - the address validator.
- **The department and city tables** (`composables/useLocations.ts`) are in module `Locations`.
  It holds the two tables and their lookups, the `getNombreCiudad` scan as a method with a loop,
  and the one piece of state (`ciudadesDisponibles`) in the class `LocationPicker`.
- **The onboarding slide cursor** (`stores/onboarding.ts`) is the class
  `Onboarding.OnboardingStore`, with local storage as a map field.
- **The HTTP helpers** (`composables/useApi.ts`) are in module `Api`: `handleHttpError`, and the
  path, URL and header construction at the top of `request`.

`JsText` writes out the JavaScript string operations the code relies on, at the level of
characters:
- `trim` and the `\s` class, as ECMAScript's white-space set;
- `replace(/[...]/g, '')`;
- `startsWith` and `substring`;
- the decimal text of a number.

The regular expressions become explicit predicates: `MatchesEmailPattern`,
`MatchesProfilePhonePattern`, `IsColombianMobile` and `IsSixDigits`.

In these places the model follows the code as written, which differs from what one might
expect:
- A failed `cargarPerfil` keeps the profile that was loaded before. It does not drop it.
- `habilitarEdicion`, `cancelarEdicion` and `guardarCambios` are not guarded by mode. They run
  from either mode.
- A save does not send the picked photo file. The PUT body carries only the photo URL.
- The profile's postal-code rule checks the text as typed. The address helper deletes white
  space first. `ProfileRules.PaddedPostalOnlyPassesAddressCheck` shows an input on which the two
  disagree.
- The profile's phone rule deletes only white space. The registration helper also deletes `-`,
  `(` and `)`. `ProfileRules.DashedPhoneOnlyPassesRegistration` shows an input on which the two
  disagree.

## Model

| member | source | states |
|---|---|---|
| Api.HandleHttpError | composables/useApi.ts:23-53 | The error carries exactly the given status and body. Its message is never empty, the body's message being a string. Status 500 always gives the fixed server message. Otherwise a non-empty body message wins. Otherwise 400/401/403/404/422 give their default text. Any other status gives exactly the generic prefix followed by the status in decimal, and that text reads back as the status. |
| Api.UnnamedStatusesDistinguished | composables/useApi.ts:24 | Two different unnamed statuses, with no body message, give different messages. |
| Api.NormalizePath | composables/useApi.ts:63 | The path always starts with `/`. It is the endpoint itself when that already starts with `/`, and `/` + endpoint otherwise. |
| Api.NormalizePathIdempotent | composables/useApi.ts:63 | Normalising a normalised path changes nothing. |
| Api.RequestUrl | composables/useApi.ts:12-66 | The URL starts with `/api/v1/`, and what follows `/api/v1` is the normalised path. |
| Api.RequestHeaders | composables/useApi.ts:71-81 | `Content-Type: application/json` is always present. `Authorization` is present exactly when auth is asked for and a non-empty token is stored, and then it is `Bearer ` + the token. There are no other headers. |
| JsText.Trim | composables/useProfile.ts:119-121 | Trimming removes only white space: the result is a slice of the input with blank text before and after it. It is empty exactly for blank input, and a non-empty result neither starts nor ends with white space. |
| JsText.TrimStartDropsBlank | composables/useProfile.ts:119-121 | The first half of `trim`: everything removed from the front is white space. |
| JsText.TrimEndDropsBlank | composables/useProfile.ts:119-121 | The second half of `trim`: everything removed from the back is white space. |
| JsText.Strip | composables/useUserData.ts:49 | No character of the deleted class is left. The result is empty exactly when every character belongs to the class. A string with none of them is returned as is. |
| JsText.StripAppend | composables/useUserData.ts:94 | Deleting a character class distributes over concatenation. |
| JsText.SubstringsJoin | composables/useUserData.ts:99 | The three clamped `substring` pieces glue back into the string. |
| JsText.DecimalRoundTrip | composables/useApi.ts:24 | Reading back the decimal text of a status gives the status. |
| JsText.DecimalInjective | composables/useApi.ts:24 | Different statuses have different decimal texts. |
| ProfileTypes.MessageText | composables/useProfile.ts:118-205 | Only the passed entry has the empty message text. Every failure carries a non-empty text. |
| ProfileRules.EmailShapeNecessary | composables/useProfile.ts:129-133 | An accepted address has no white space and exactly one `@`, which is neither first nor last. |
| ProfileRules.EmailShapeSufficient | composables/useProfile.ts:129-133 | Text without white space is accepted when its only `@` is not first and a `.` follows it that is neither right after the `@` nor last. |
| ProfileRules.EmailAccepted | composables/useProfile.ts:129-133 | `ana@correo.com` passes the e-mail pattern. |
| ProfileRules.NotAnEmailRejected | composables/useProfile.ts:129-133 | `not-an-email` fails the e-mail pattern. |
| ProfileRules.ProfilePhonePatternWithoutSpaces | composables/useProfile.ts:141-145 | On text without white space, the profile phone pattern accepts exactly what the registration patterns accept. |
| ProfileRules.NombreRule | composables/useProfile.ts:118-126 | Valid exactly when the trimmed name has at least 2 characters. Valid exactly when the message is empty. Blank gives the "required" message; any other failure gives the "too short" message. |
| ProfileRules.CorreoRule | composables/useProfile.ts:128-137 | Valid exactly when the untrimmed text matches the e-mail pattern. Blank gives "required"; any other failure gives "invalid format". |
| ProfileRules.TelefonoRule | composables/useProfile.ts:139-150 | Valid exactly when the text with all white space deleted is `3` plus nine digits, optionally after `+57`. Blank gives "required"; any other failure gives "invalid format". |
| ProfileRules.RequiredRule | composables/useProfile.ts:152-180 | Street, department and city are valid exactly when not blank. A failure carries the field's own message. |
| ProfileRules.CodigoPostalRule | composables/useProfile.ts:182-193 | Valid exactly when the text as typed, untrimmed, is six ASCII digits. Blank gives "required"; any other failure gives "6 digits". |
| ProfileRules.DescripcionRule | composables/useProfile.ts:195-205 | Valid exactly when the trimmed description has at least 20 characters. Blank gives "required"; any other failure gives "at least 20". |
| ProfileRules.MobilePhonesAccepted | composables/useProfile.ts:139-150 | A bare mobile number such as `3012345678` passes, and so does its `+57 301 234 5678` form. |
| ProfileRules.ShortPhoneRejected | composables/useProfile.ts:139-150 | Nine digits, such as `301234567`, fail. |
| ProfileRules.NonMobilePhoneRejected | composables/useProfile.ts:139-150 | Ten digits not starting with 3 fail, bare and grouped, such as `+57 201 234 5678`. |
| ProfileRules.PhoneRulesAgreeWithoutPunctuation | composables/useUserData.ts:47-67 | On text without `-`, `(` or `)`, the profile phone rule and the registration phone check give the same verdict. |
| ProfileRules.DashedPhoneOnlyPassesRegistration | composables/useUserData.ts:49 | A mobile number written `ddd-ddd-dddd` passes the registration check and fails the profile rule. |
| ProfileRules.PostalAccepted | composables/useProfile.ts:182-193 | `110221` passes the profile postal rule. |
| ProfileRules.ShortPostalRejected | composables/useProfile.ts:182-193 | `1102` fails the profile postal rule. |
| ProfileRules.LetterPostalRejected | composables/useProfile.ts:182-193 | `11022a` fails the profile postal rule. |
| ProfileRules.PaddedPostalOnlyPassesAddressCheck | composables/useProfile.ts:184-187 | Six digits typed after a space fail the profile rule, which does not strip. They pass the address helper, which does. |
| ProfileRules.PostalRuleStricter | composables/useUserData.ts:72-88 | Every code the profile rule accepts is accepted by the address helper. |
| ProfileRules.DescriptionBoundary | composables/useProfile.ts:195-205 | A description of 19 characters, with no white space at either end, fails. One of 20 passes. |
| ProfileRules.ValidatedFormAt | composables/useProfile.ts:212-225 | After `validarFormulario`, a checked field holds its rule's verdict on the draft. An unchecked entry is as it was. The professional fields are checked only for a professional whose draft has an address. |
| ProfileRules.FormValidIff | composables/useProfile.ts:212-230 | The form passes exactly when every checked field passes its rule and every unchecked entry was already valid. Both directions are proved. |
| ProfileRules.BlankDescriptionBlocksSave | composables/useProfile.ts:219-224 | A professional with an address and a blank description never passes, and the description entry says it is required. |
| ProfileRules.ClientIgnoresProfessionalFields | composables/useProfile.ts:212-230 | For a client starting from an all-valid record, the form passes exactly when name, e-mail and phone pass. The professional fields never matter. |
| ProfileRules.ValidatedFormIdempotent | composables/useProfile.ts:212-230 | Validating twice gives the record that validating once gives. |
| ProfileRules.FormFromProfile | composables/useProfile.ts:82-100 | The form copies name, e-mail and phone. Absent photo URL and description become empty strings, and an absent address becomes the empty address. It holds no picked file. |
| ProfileRules.JsonCopy | composables/useProfile.ts:103 | The copy holds no picked file and differs from the original at most in `foto`. A form without a file is copied unchanged. |
| ProfileRules.JsonCopyIdempotent | composables/useProfile.ts:252 | Copying a copy changes nothing. |
| ProfileRules.SavePayload | composables/useProfile.ts:289-298 | The body always has name, e-mail, phone and photo URL. Address and description are present only for a professional, and then they equal the draft's. The picked file is never part of it. |
| ProfileRules.SaveReloadRoundTrip | composables/useProfile.ts:289-309 | Save, then refill from a store that keeps what it was sent, gives the draft back up to three things: the picked file, an absent address, and a client's address and description, which are not sent. |
| ProfileRules.TransformReloadRoundTrip | composables/useUserData.ts:24-42 | The same round trip through `transformProfileToApi` gives the draft back up to the picked file and an absent address. |
| ProfileRules.PayloadsAgreeWhenFilledIn | composables/useUserData.ts:24-42 | With a non-empty photo URL and description, a professional's save body equals the helper's body. |
| ProfileManagement.UserUrl | composables/useProfile.ts:64 | The store URL of a user is `/api/v1/usuarios/` followed by the id. |
| ProfileManagement.ProfileManager.constructor | composables/useProfile.ts:15-53 | A new manager has no profile and no error. It is in readonly mode with the empty draft, no snapshot and every entry valid with no message. No busy flag is set and nothing has been sent. |
| ProfileManagement.ProfileManager.IsProfessional | composables/useProfile.ts:369-371 | True exactly when a profile is loaded and its role is professional. |
| ProfileManagement.ProfileManager.ValidateField | composables/useProfile.ts:114-207 | The field's entry becomes its rule's verdict, except that a professional field is left alone for a non-professional. No other entry changes. |
| ProfileManagement.ProfileManager.ValidateForm | composables/useProfile.ts:212-230 | The record becomes `ValidatedForm` of the draft, so `FormValidIff` applies. The answer is whether every entry is valid. |
| ProfileManagement.ProfileManager.ValidateBasicFields | composables/useProfile.ts:214-216 | The record becomes the one the three basic `validarCampo` calls build. |
| ProfileManagement.ProfileManager.ValidateProfessionalFields | composables/useProfile.ts:219-225 | The record becomes the one the five professional `validarCampo` calls build. |
| ProfileManagement.ProfileManager.FillForm | composables/useProfile.ts:82-109 | The draft becomes `FormFromProfile` of the record, and the snapshot equals the draft. The preview becomes the photo URL when that is non-empty, and is kept otherwise. |
| ProfileManagement.ProfileManager.LoadProfile | composables/useProfile.ts:58-77 | Exactly one GET is sent, and `loading` ends false. On success the profile is replaced and the draft filled from it, and the preview becomes the profile's photo URL when that is non-empty, else stays. On failure the error message is recorded and profile, draft, snapshot and preview are unchanged. |
| ProfileManagement.ProfileManager.HandleImageChange | composables/useProfile.ts:235-244 | A file whose MIME type starts with `image/` is stored in the draft's `foto`. Any other file leaves the draft unchanged. |
| ProfileManagement.ProfileManager.BeginEdit | composables/useProfile.ts:249-253 | Mode becomes editing from either mode. The snapshot becomes a JSON copy of the draft, which is the draft itself when it holds no file. |
| ProfileManagement.ProfileManager.CancelEdit | composables/useProfile.ts:258-274 | Mode becomes readonly and every entry is reset to valid with no message. With a snapshot, the draft and the preview come from it. Without one, they stay. |
| ProfileManagement.ProfileManager.SaveChanges | composables/useProfile.ts:279-321 | An invalid form rejects with the form message. Then nothing is sent and nothing but the validation record changes. A valid form sends one PUT of `SavePayload`, and `saving` ends false. Success replaces the profile, refills the draft, shows the saved photo URL as preview when it is non-empty, and returns to readonly. Failure records and rethrows the error, keeping profile, draft and mode. |
| ProfileManagement.ProfileManager.SubmitChanges | composables/useProfile.ts:284-320 | The store part of a save: one PUT of the draft's payload, `saving` false at the end, and the success and failure effects above. |
| ProfileManagement.ProfileManager.DeleteProfile | composables/useProfile.ts:326-357 | Exactly one DELETE is sent, and `deleting` ends false. Success drops the profile and empties the draft. Failure records and rethrows the error, keeping profile and draft. |
| ProfileManagement.ProfileManager.CanSave | composables/useProfile.ts:362-364 | True exactly when in editing mode, the form validates and no save is running. The form is validated only in editing mode. |
| ProfileManagement.BeginEditTwice | composables/useProfile.ts:249-253 | Two `habilitarEdicion` calls leave what one leaves: editing mode, a snapshot that is a copy of the unchanged draft, and nothing else touched. |
| ProfileManagement.FieldUpdate | composables/useProfile.ts:114-207 | One `validarCampo` call adds at most the field's own key to the record. |
| ProfileManagement.ValidatedFormSteps | composables/useProfile.ts:212-225 | For any rule table, the sequence of `validarCampo` calls on a full record builds the record `ValidatedBy` describes. |
| ProfileManagement.ValidationStepsValidate | composables/useProfile.ts:212-225 | With the real rules, the sequence of calls builds `ValidatedForm`, which again has all eight entries. |
| ProfileManagement.FieldOrderCoversAll | composables/useProfile.ts:267-273 | Once every key of the record has been reset to passed, the record is the initial all-valid record. |
| UserData.TransformRegisterToProfile | composables/useUserData.ts:12-19 | The name is first name + space + last name. E-mail and phone are copied. The role is client exactly when the registration role is `client`. |
| UserData.TransformProfileToApi | composables/useUserData.ts:24-42 | Name, e-mail and phone are copied. An empty photo URL becomes null. The address is carried exactly as the form has it. The description is present exactly when non-empty. |
| UserData.ValidarTelefonoColombiano | composables/useUserData.ts:47-67 | Valid exactly when the text with white space, `-`, `(` and `)` deleted is `3` plus nine digits, optionally after `+57`. Blank gives "required"; any other failure gives the format message. |
| UserData.ValidarCodigoPostalColombiano | composables/useUserData.ts:72-88 | Valid exactly when the text with white space deleted is six digits. Blank gives "required"; any other failure gives the format message. |
| UserData.FormatearTelefonoColombiano | composables/useUserData.ts:93-108 | A cleaned number starting with `+57` becomes `+57 aaa bbb rest`. A cleaned 10-character number starting with 3 becomes `+57 aaa bbb cccc`. Anything else is returned unchanged. |
| UserData.StripGroupedPhone | composables/useUserData.ts:97-104 | Deleting the separators from a grouped number gives back `+57` and the digits. |
| UserData.FormatIdempotent | composables/useUserData.ts:93-108 | Formatting the formatter's output returns it unchanged. |
| UserData.FormattedPhoneShape | composables/useUserData.ts:93-108 | For any input, a rewritten number starts `+57 `, and deleting its separators gives `+57` followed by the input's digits, the country code written once. An input that is not rewritten comes back unchanged. |
| UserData.FormattedPhoneStillValid | composables/useUserData.ts:47-108 | A number the validator accepts is still accepted after formatting, and keeps the same digits after `+57`. |
| UserData.GetDepartamentoInfo | composables/useUserData.ts:113-128 | A known id gives an entry whose code is the id and whose name is non-empty. Any other id gives two empty strings. |
| UserData.DepartmentInfoMatchesLocations | composables/useUserData.ts:113-128 | The ten known ids are exactly the departments with a city list. Each known name is the one the location table gives. |
| UserData.DepartmentNameAgrees | composables/useUserData.ts:114-125 | A known department's name equals `getNombreEstado` of its id. |
| UserData.ValidarDireccionColombiana | composables/useUserData.ts:133-162 | The error keys are exactly the blank street, department and city, plus the postal code when its validator fails. Each carries its message, and the postal one is the validator's own. Valid exactly when there are no errors. |
| UserData.AddressValidIff | composables/useUserData.ts:133-162 | An address passes exactly when street, department and city are filled in and the postal code has six digits once white space is deleted. |
| Locations.FindEstado | composables/useLocations.ts:145 | `find` returns the first department in the list with that id, and nothing exactly when there is none. |
| Locations.FindCiudad | composables/useLocations.ts:154 | `find` returns the first city in the list with that id, and nothing exactly when there is none. |
| Locations.DepartmentIdsUnique | composables/useLocations.ts:8-40 | No two departments share an id. |
| Locations.NamesNonEmpty | composables/useLocations.ts:8-122 | Every department and every city has a non-empty name. |
| Locations.GroupKeysUnique | composables/useLocations.ts:43-122 | No two members of the cities-by-department record share a key. |
| Locations.GroupKeysAreDepartments | composables/useLocations.ts:8-122 | Every key of the cities-by-department record is a department id. |
| Locations.CitiesFiledUnderTheirDepartment | composables/useLocations.ts:43-122 | Every city's `estadoId` is the key it is filed under. |
| Locations.CityIdsCarryPrefix | composables/useLocations.ts:43-122 | Every city id starts with its member's three-letter prefix. |
| Locations.CityIdsUniqueWithin | composables/useLocations.ts:43-122 | Within one member, no two cities share an id. |
| Locations.CityIdsUnique | composables/useLocations.ts:43-122 | No two cities anywhere in the table share an id. |
| Locations.GroupLookup | composables/useLocations.ts:131 | The lookup returns the list of the first member with that key, and `[]` when no member has it. |
| Locations.GetCiudadesPorEstado | composables/useLocations.ts:130-132 | Returns the list keyed by the id, `[]` for an id that is not a key, and every city returned names that department. |
| Locations.CityGroupsKeyed | composables/useLocations.ts:130-132 | The list is non-empty exactly for the ten keyed departments. |
| Locations.GroupsKeyedAndFilled | composables/useLocations.ts:43-122 | Every member is keyed by one of the ten and holds at least one city. |
| Locations.GetNombreEstado | composables/useLocations.ts:144-147 | Returns the name of the department with that id, and the empty string exactly when there is none. |
| Locations.GetNombreCiudad | composables/useLocations.ts:152-158 | The scan returns the name of the city with that id, which is unique, so scan order does not matter. It returns the empty string exactly when no city has that id. |
| Locations.CargarCiudadesAsync | composables/useLocations.ts:163-167 | Returns the same list as `getCiudadesPorEstado`. |
| Locations.LocationPicker.constructor | composables/useLocations.ts:125 | The picker starts with no cities on offer. |
| Locations.LocationPicker.ActualizarCiudades | composables/useLocations.ts:137-139 | The cities on offer become exactly `getCiudadesPorEstado(id)`, all filed under that department, and nothing else changes. |
| Onboarding.OnboardingStore.constructor | stores/onboarding.ts:5-27 | A new store is on the first slide, not completed, over the given storage. |
| Onboarding.OnboardingStore.CurrentSlide | stores/onboarding.ts:30 | The current slide is a slide of the list, and its id is the one-based cursor position. |
| Onboarding.OnboardingStore.IsLastSlide | stores/onboarding.ts:31 | True exactly when the cursor is on the final slide, which is the slide whose id is the number of slides. |
| Onboarding.OnboardingStore.CompleteOnboarding | stores/onboarding.ts:54-63 | The flag is set. In the browser with working storage, `onboardingCompleted` is stored as `true`; otherwise storage is unchanged. |
| Onboarding.OnboardingStore.NextSlide | stores/onboarding.ts:34-40 | The cursor stays on a slide. Before the last slide it moves one on and nothing else changes. On the last slide it stays and onboarding is completed. |
| Onboarding.OnboardingStore.PreviousSlide | stores/onboarding.ts:42-46 | The cursor stays on a slide. On the first slide nothing changes; otherwise it moves one back. |
| Onboarding.OnboardingStore.GoToSlide | stores/onboarding.ts:48-52 | The cursor moves to the index exactly when that names a slide; otherwise nothing changes. |
| Onboarding.OnboardingStore.CheckOnboardingStatus | stores/onboarding.ts:65-74 | With readable storage, the flag becomes whether `onboardingCompleted` is stored as `true`; otherwise the flag is unchanged. |
| Onboarding.CompleteOnboardingTwice | stores/onboarding.ts:54-63 | Two completions leave what one leaves: the flag set, storage written once, the cursor unmoved. |
| Onboarding.WalkThrough | stores/onboarding.ts:34-74 | Stepping past the last slide completes onboarding, and a store made later over the same storage reads the completion back. |

## Left out

- The network: `fetch`, the content-type check, JSON parsing and their error messages in `request` (composables/useApi.ts:91-136). A store reply is a parameter that carries any error, whatever caused it.
- The `login` fallback that turns a parse error into a fabricated successful login (composables/useApi.ts:143-181). `register` is a single call to `request` and is not modelled either.
- `getAuthToken`'s storage read: the stored token is a parameter of `Api.RequestHeaders`.
- Api.HandleHttpError: the body's `message` is modelled as an optional string. The code accepts any JSON value there. A truthy non-string message is passed to `new Error(...)` and converted with `String(...)`, so `[]` gives an empty message and `42` gives "42". A `null` body makes `errorData.message` throw a `TypeError` instead of returning the status error (composables/useApi.ts:24). The model covers string messages and object bodies only.
- The "Error desconocido ..." branches of the profile manager. Everything the store throws is an `Error` with a message.
- The `FileReader` preview of a picked image (asynchronous browser API). Only the `image/` check and the storing of the file reference are modelled.
- `console` logging, Vue reactivity (`ref`, `computed`, `readonly`) and the simulated delay of `cargarCiudadesAsync`.
- The busy flags between the start and the end of an asynchronous call. The contracts state their value once the call has finished.
- Overlapping calls: the manager is modelled as single-threaded.
- Onboarding.OnboardingStore.GoToSlide: slide indices are integers. A fractional JavaScript number such as 1.5 passes `goToSlide`'s bounds check and leaves `currentSlide` undefined; the model cannot express that index.
- The deferred `checkOnboardingStatus` at store creation (`nextTick`). The constructor leaves the flag false and the caller runs `CheckOnboardingStatus` next.
- Local-storage exceptions are the constructor parameter `storageUsable`. When it is false, every storage call fails and is only logged.
- `process.client` is the constructor parameter `isClient`.
- The user-visible message texts: a validation entry holds a `Message` value whose text is `ProfileTypes.MessageText`. Messages of the HTTP client are strings.
- String lengths and positions count characters, not UTF-16 code units. For text outside the Basic Multilingual Plane the model therefore differs from the code in the `trim` length bounds of name (2) and description (20), and in `UserData.FormatearTelefonoColombiano`'s ten-character test and `substring` positions: `3`, eight digits and one astral character has 10 characters here and 11 code units in JavaScript, so the model groups it where the code returns it unchanged.
- JavaScript object keys inherited from `Object.prototype` (such as `constructor`) in the lookups of `getDepartamentoInfo` and `getCiudadesPorEstado`. The model answers "unknown" for them.
- composables/useGoogleMaps.ts, stores/auth.ts, the server routes, the configuration files and the type declarations are not part of this model.
