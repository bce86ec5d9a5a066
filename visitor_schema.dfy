/**
 * The Visitor document schema (backend/models/Visitor.js): which inputs the
 * document store accepts and how it normalises them before storing.
 *
 * Creating a document casts and normalises the given fields (text fields are
 * trimmed, a missing status takes its default `In`), then validates them
 * (name required, status one of `In`/`Out`, dates castable), and on success
 * stamps the document with its identifier and its two timestamps.
 */
module VisitorSchema {
  import opened Js

  /** The owning user's identifier (an ObjectId in the store, a string on the request). */
  type UserId = string

  /** A point in time, in milliseconds. */
  type Timestamp = int

  datatype Status = In | Out

  const DefaultStatus := In

  function StatusName(s: Status): string {
    match s
    case In => "In"
    case Out => "Out"
  }

  /** The `enum: ['In', 'Out']` check on a status string. */
  function ParseStatus(s: string): (r: Option<Status>)
    ensures r.Some? <==> s == "In" || s == "Out"
    ensures r.Some? ==> StatusName(r.value) == s
  {
    if s == "In" then Some(In) else if s == "Out" then Some(Out) else None
  }

  /** The value of `new Date(x)`: a time, or the invalid date. */
  datatype DateValue = ValidDate(time: Timestamp) | InvalidDate

  /** The fields handed to `Visitor.create`; `None` is an undefined field. */
  datatype VisitorInput = VisitorInput(
    userId: Option<UserId>,
    name: Option<string>,
    phone: Option<string>,
    purpose: Option<string>,
    host: Option<string>,
    checkIn: Option<DateValue>,
    checkOut: Option<DateValue>,
    status: Option<string>)

  /** A stored Visitor document. */
  datatype Visitor = Visitor(
    id: nat,
    userId: Option<UserId>,
    name: string,
    phone: Option<string>,
    purpose: Option<string>,
    host: Option<string>,
    checkIn: Option<Timestamp>,
    checkOut: Option<Timestamp>,
    status: Status,
    createdAt: Timestamp,
    updatedAt: Timestamp)

  /** Why the schema refuses an input, one per failing path. */
  datatype SchemaError = NameRequired | DateCastFailed(path: string) | NotInEnum(value: string)

  predicate OptTrimmed(o: Option<string>) {
    o.None? || IsTrimmed(o.value)
  }

  /** What every stored document satisfies. */
  predicate WellFormed(v: Visitor) {
    && v.name != "" && IsTrimmed(v.name)
    && OptTrimmed(v.phone) && OptTrimmed(v.purpose) && OptTrimmed(v.host)
    && v.createdAt <= v.updatedAt
  }

  /** The `trim: true` setter on an optional text field. */
  function TrimField(o: Option<string>): (r: Option<string>)
    ensures r.None? <==> o.None?
    ensures o.Some? ==> r == Some(Trim(o.value))
    ensures OptTrimmed(r)
  {
    match o
    case None => None
    case Some(s) => Some(Trim(s))
  }

  /** Casting before validation: text fields trimmed, the status default filled in. */
  function Normalise(input: VisitorInput): (n: VisitorInput)
    ensures n.name.None? <==> input.name.None?
    ensures OptTrimmed(n.name) && OptTrimmed(n.phone) && OptTrimmed(n.purpose) && OptTrimmed(n.host)
    ensures n.status.Some?
    ensures input.status.None? ==> n.status == Some(StatusName(DefaultStatus))
    ensures input.status.Some? ==> n.status == input.status
    ensures n.name == TrimField(input.name) && n.phone == TrimField(input.phone)
    ensures n.purpose == TrimField(input.purpose) && n.host == TrimField(input.host)
    ensures n.userId == input.userId && n.checkIn == input.checkIn && n.checkOut == input.checkOut
  {
    input.(name := TrimField(input.name),
           phone := TrimField(input.phone),
           purpose := TrimField(input.purpose),
           host := TrimField(input.host),
           status := if input.status.None? then Some(StatusName(DefaultStatus)) else input.status)
  }

  /** Normalising twice is normalising once. */
  lemma NormaliseIdempotent(input: VisitorInput)
    ensures Normalise(Normalise(input)) == Normalise(input)
  {
    var n := Normalise(input);
    if input.name.Some? { TrimIdempotent(input.name.value); }
    if input.phone.Some? { TrimIdempotent(input.phone.value); }
    if input.purpose.Some? { TrimIdempotent(input.purpose.value); }
    if input.host.Some? { TrimIdempotent(input.host.value); }
  }

  function DateErrors(path: string, d: Option<DateValue>): seq<SchemaError> {
    if d == Some(InvalidDate) then [DateCastFailed(path)] else []
  }

  /** The validation errors of a normalised input, in the schema's path order. */
  function Errors(n: VisitorInput): (errs: seq<SchemaError>)
    ensures NameRequired in errs <==> n.name.None? || n.name.value == ""
    ensures DateCastFailed("checkIn") in errs <==> n.checkIn == Some(InvalidDate)
    ensures DateCastFailed("checkOut") in errs <==> n.checkOut == Some(InvalidDate)
    ensures forall s :: NotInEnum(s) in errs <==> n.status == Some(s) && ParseStatus(s).None?
  {
    (if n.name.None? || n.name.value == "" then [NameRequired] else [])
    + DateErrors("checkIn", n.checkIn)
    + DateErrors("checkOut", n.checkOut)
    + (if n.status.Some? && ParseStatus(n.status.value).None? then [NotInEnum(n.status.value)] else [])
  }

  /** The schema's acceptance condition, stated on the raw input. */
  predicate Accepts(input: VisitorInput) {
    && input.name.Some? && !IsBlank(input.name.value)
    && input.checkIn != Some(InvalidDate)
    && input.checkOut != Some(InvalidDate)
    && (input.status.None? || ParseStatus(input.status.value).Some?)
  }

  function TimeOf(d: Option<DateValue>): Option<Timestamp> {
    match d
    case Some(ValidDate(t)) => Some(t)
    case _ => None
  }

  /**
   * `Visitor.create(input)` up to the write: the stored document, stamped with
   * identifier `id` and time `now`, or the list of validation errors.
   */
  function Create(input: VisitorInput, id: nat, now: Timestamp): (r: Result<Visitor, seq<SchemaError>>)
    ensures r.Ok? <==> Accepts(input)
    ensures r.Err? ==> r.error != [] && r.error == Errors(Normalise(input))
    ensures r.Ok? ==> WellFormed(r.value)
    ensures r.Ok? ==> r.value.id == id && r.value.createdAt == now && r.value.updatedAt == now
    ensures r.Ok? ==> r.value.userId == input.userId
    ensures r.Ok? ==> r.value.name == Trim(input.name.value)
    ensures r.Ok? ==> r.value.phone == TrimField(input.phone) && r.value.purpose == TrimField(input.purpose)
                      && r.value.host == TrimField(input.host)
    ensures r.Ok? ==> r.value.checkIn == TimeOf(input.checkIn) && r.value.checkOut == TimeOf(input.checkOut)
    ensures r.Ok? ==> StatusName(r.value.status) == if input.status.None? then "In" else input.status.value
  {
    var n := Normalise(input);
    var errs := Errors(n);
    if errs != [] then Err(errs)
    else
      assert NameRequired !in errs;
      assert NotInEnum(n.status.value) !in errs;
      Ok(Visitor(id, n.userId, n.name.value, n.phone, n.purpose, n.host,
                 TimeOf(n.checkIn), TimeOf(n.checkOut),
                 ParseStatus(n.status.value).value, now, now))
  }

  /** A status other than `In` and `Out` is refused, and says so. */
  lemma UnknownStatusRejected(input: VisitorInput, id: nat, now: Timestamp)
    requires input.status.Some? && input.status.value != "In" && input.status.value != "Out"
    ensures Create(input, id, now).Err?
    ensures NotInEnum(input.status.value) in Create(input, id, now).error
  {
    assert Normalise(input).status == input.status;
  }

  /** A missing or blank name is refused as a missing required path. */
  lemma BlankNameRejected(input: VisitorInput, id: nat, now: Timestamp)
    requires input.name.None? || IsBlank(input.name.value)
    ensures Create(input, id, now).Err?
    ensures NameRequired in Create(input, id, now).error
  {
  }

  /** Owner, check-in and check-out are optional: leaving them out never causes a refusal. */
  lemma OptionalFieldsOptional(input: VisitorInput, id: nat, now: Timestamp)
    requires Accepts(input)
    ensures Create(input.(userId := None, checkIn := None, checkOut := None), id, now).Ok?
    ensures Create(input.(userId := None, checkIn := None, checkOut := None), id, now).value.status
         == Create(input, id, now).value.status
  {
  }

  /** The path a validation error is reported under. */
  function ErrorPath(e: SchemaError): string {
    match e
    case NameRequired => "name"
    case DateCastFailed(path) => path
    case NotInEnum(_) => "status"
  }

  /** Messages of Mongoose's default validators for each failing path. */
  function ErrorText(e: SchemaError): string {
    match e
    case NameRequired => "Path `name` is required."
    case DateCastFailed(path) => "Cast to date failed for value \"Invalid Date\" (type Date) at path \"" + path + "\""
    case NotInEnum(v) => "`" + v + "` is not a valid enum value for path `status`."
  }

  function JoinErrors(errs: seq<SchemaError>): string {
    if errs == [] then ""
    else if |errs| == 1 then ErrorPath(errs[0]) + ": " + ErrorText(errs[0])
    else ErrorPath(errs[0]) + ": " + ErrorText(errs[0]) + ", " + JoinErrors(errs[1..])
  }

  /** The `message` of the ValidationError a refused create is rejected with. */
  function ValidationMessage(errs: seq<SchemaError>): string {
    "Visitor validation failed: " + JoinErrors(errs)
  }
}
