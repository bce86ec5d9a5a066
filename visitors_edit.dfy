/**
 * The edit form of a visitor record (frontend/src/pages/VisitorsEdit.jsx):
 * its field rules as functions, and the page's state (form, errors, banner,
 * loading and submitting flags) as a class whose methods are the handlers.
 *
 * Two things the page gets from the browser are parameters here: whether a
 * check-in text parses as a date (`new Date(x)` is not NaN) and the ISO text
 * of a parsed date (`new Date(x).toISOString()`).
 */
module VisitorsEdit {
  import opened Js

  datatype Field = Name | Phone | Purpose | Host | CheckIn | Status

  /** The controlled inputs of the form. */
  datatype Form = Form(name: string, phone: string, purpose: string, host: string, checkIn: string, status: string)
  {
    function Get(field: Field): string {
      match field
      case Name => name
      case Phone => phone
      case Purpose => purpose
      case Host => host
      case CheckIn => checkIn
      case Status => status
    }

    /** `{ ...form, [field]: value }`. */
    function Set(field: Field, value: string): (f: Form)
      ensures f.Get(field) == value
      ensures forall g :: g != field ==> f.Get(g) == Get(g)
    {
      match field
      case Name => this.(name := value)
      case Phone => this.(phone := value)
      case Purpose => this.(purpose := value)
      case Host => this.(host := value)
      case CheckIn => this.(checkIn := value)
      case Status => this.(status := value)
    }
  }

  /** The form before anything is loaded. */
  const Initial := Form("", "", "", "", "", "In")

  // ---------------------------------------------------------------- phone

  const MaxPhoneDigits: nat := 15

  /** `value.replace(/\D/g, '')`: the digits of `value`, in order. */
  function DigitsOf(value: string): (d: string)
    ensures AllDigits(d) && |d| <= |value|
    ensures forall c :: IsAsciiDigit(c) ==> multiset(d)[c] == multiset(value)[c]
  {
    if value == [] then []
    else
      assert value == [value[0]] + value[1..];
      (if IsAsciiDigit(value[0]) then [value[0]] else []) + DigitsOf(value[1..])
  }

  /** Removing non-digits works piecewise, so the digits keep their order. */
  lemma {:induction false} DigitsOfAppend(a: string, b: string)
    ensures DigitsOf(a + b) == DigitsOf(a) + DigitsOf(b)
  {
    if a == [] {
      assert a + b == b;
    } else {
      assert (a + b)[1..] == a[1..] + b;
      DigitsOfAppend(a[1..], b);
    }
  }

  /** A string of digits loses nothing. */
  lemma {:induction false} DigitsOfDigits(s: string)
    requires AllDigits(s)
    ensures DigitsOf(s) == s
  {
    if s != [] {
      DigitsOfDigits(s[1..]);
    }
  }

  /** The phone input's sanitiser: the first fifteen digits of what was typed. */
  function SanitisePhone(value: string): (digits: string)
    ensures AllDigits(digits) && |digits| <= MaxPhoneDigits
    ensures digits <= DigitsOf(value)
    ensures |digits| == if |DigitsOf(value)| <= MaxPhoneDigits then |DigitsOf(value)| else MaxPhoneDigits
    ensures |DigitsOf(value)| <= MaxPhoneDigits ==> digits == DigitsOf(value)
  {
    Take(DigitsOf(value), MaxPhoneDigits)
  }

  /** Sanitising a sanitised phone changes nothing. */
  lemma SanitisePhoneIdempotent(value: string)
    ensures SanitisePhone(SanitisePhone(value)) == SanitisePhone(value)
  {
    DigitsOfDigits(SanitisePhone(value));
  }

  /** `/^\d{10,15}$/`. */
  predicate PhoneFormatOk(phone: string) {
    10 <= |phone| <= 15 && AllDigits(phone)
  }

  // ----------------------------------------------------------------- name

  /*
   * The name pattern's letter class `\p{L}` is a parameter `isLetter`: the
   * Unicode character database decides which characters are letters, and
   * every fact below holds for whatever set it is.
   */

  /** `\p{L}` contains none of the punctuation the pattern names beside it. */
  predicate PunctuationIsNotLetter(isLetter: char -> bool) {
    !isLetter('_') && !isLetter('.') && !isLetter('-') && !isLetter(' ') && !isLetter('\'')
  }

  /** `[^\p{L}_.-]`: what may come before the first letter of a name. */
  predicate IsLeadChar(isLetter: char -> bool, c: char) {
    !isLetter(c) && c != '_' && c != '.' && c != '-'
  }

  /** `[\p{L} .'-]`: what may follow the first letter of a name. */
  predicate IsTailChar(isLetter: char -> bool, c: char) {
    isLetter(c) || c == ' ' || c == '.' || c == '\'' || c == '-'
  }

  /**
   * `/^[^\p{L}_.-]*\p{L}[\p{L} .'-]{1,}$/u` read as a regular expression: some
   * split of `s` into lead characters, one letter, and at least one tail character.
   */
  ghost predicate MatchesNamePattern(isLetter: char -> bool, s: string) {
    exists k :: 0 <= k < |s| - 1 && isLetter(s[k])
      && (forall i :: 0 <= i < k ==> IsLeadChar(isLetter, s[i]))
      && (forall i :: k < i < |s| ==> IsTailChar(isLetter, s[i]))
  }

  /** The index of the first letter of `s`, or `|s|` when it has none. */
  function FirstLetter(isLetter: char -> bool, s: string): (k: nat)
    ensures k <= |s|
    ensures forall i :: 0 <= i < k ==> !isLetter(s[i])
    ensures k < |s| ==> isLetter(s[k])
  {
    if s == [] || isLetter(s[0]) then 0 else 1 + FirstLetter(isLetter, s[1..])
  }

  /** The name test as the page runs it: since lead characters are no letters, the letter is the first one. */
  predicate IsValidName(isLetter: char -> bool, s: string) {
    var k := FirstLetter(isLetter, s);
    && k < |s| - 1
    && (forall i :: 0 <= i < k ==> IsLeadChar(isLetter, s[i]))
    && (forall i :: k < i < |s| ==> IsTailChar(isLetter, s[i]))
  }

  /** The name test accepts exactly the strings the pattern matches. */
  lemma NameTestMatchesPattern(isLetter: char -> bool, s: string)
    ensures IsValidName(isLetter, s) <==> MatchesNamePattern(isLetter, s)
  {
    var k := FirstLetter(isLetter, s);
    if IsValidName(isLetter, s) {
      assert isLetter(s[k]);
    }
    if MatchesNamePattern(isLetter, s) {
      var j :| 0 <= j < |s| - 1 && isLetter(s[j])
        && (forall i :: 0 <= i < j ==> IsLeadChar(isLetter, s[i]))
        && (forall i :: j < i < |s| ==> IsTailChar(isLetter, s[i]));
      assert k == j;
    }
  }

  /** A name of one character, or one whose first character is `_`, `.` or `-`, is refused. */
  lemma NamePatternRefusals(isLetter: char -> bool, c: char, s: string)
    requires PunctuationIsNotLetter(isLetter)
    ensures !MatchesNamePattern(isLetter, [c])
    ensures c == '_' || c == '.' || c == '-' ==> !MatchesNamePattern(isLetter, [c] + s)
  {
    NameTestMatchesPattern(isLetter, [c]);
    if c == '_' || c == '.' || c == '-' {
      var t := [c] + s;
      NameTestMatchesPattern(isLetter, t);
      assert !isLetter(t[0]) && !IsLeadChar(isLetter, t[0]);
      assert FirstLetter(isLetter, t) > 0;
    }
  }

  /** Names in any script pass: a letter followed by one or more letters, spaces or `.'-`. */
  lemma LettersThenTailMatch(isLetter: char -> bool, s: string)
    requires |s| >= 2 && isLetter(s[0])
    requires forall i :: 1 <= i < |s| ==> IsTailChar(isLetter, s[i])
    ensures MatchesNamePattern(isLetter, s)
  {
    assert 0 <= 0 < |s| - 1 && isLetter(s[0]);
  }

  // ----------------------------------------------------------- validation

  const NameRequired := "Name is required"
  const NameInvalid := "Please enter a valid name"
  const PhoneRequired := "Phone is required"
  const PhoneInvalid := "Phone must be 10\U{2013}15 digits"
  const PurposeRequired := "Purpose is required"
  const HostRequired := "Host is required"
  const CheckInInvalid := "Invalid date/time"

  /** The name's error: required when blank, invalid when the trimmed name does not match the pattern. */
  function NameError(isLetter: char -> bool, name: string): (r: Option<string>)
    ensures r.None? <==> IsValidName(isLetter, Trim(name))
    ensures r.Some? ==> r.value == if IsBlank(name) then NameRequired else NameInvalid
  {
    if Trim(name) == "" then Some(NameRequired)
    else if !IsValidName(isLetter, Trim(name)) then Some(NameInvalid)
    else None
  }

  /** The phone's error: required when blank, invalid unless it is 10 to 15 digits (untrimmed). */
  function PhoneError(phone: string): (r: Option<string>)
    ensures r.None? <==> !IsBlank(phone) && PhoneFormatOk(phone)
    ensures r.Some? ==> r.value == if IsBlank(phone) then PhoneRequired else PhoneInvalid
  {
    if Trim(phone) == "" then Some(PhoneRequired)
    else if !PhoneFormatOk(phone) then Some(PhoneInvalid)
    else None
  }

  /** A required text field's error: `message` exactly when the text is blank. */
  function RequiredError(text: string, message: string): (r: Option<string>)
    ensures r.None? <==> !IsBlank(text)
    ensures r.Some? ==> r.value == message
  {
    if Trim(text) == "" then Some(message) else None
  }

  /** The check-in's error: only a non-empty text that does not parse as a date is refused. */
  function CheckInError(checkIn: string, parsesAsDate: string -> bool): (r: Option<string>)
    ensures r.None? <==> !Truthy(checkIn) || parsesAsDate(checkIn)
    ensures r.Some? ==> r.value == CheckInInvalid
  {
    if Truthy(checkIn) && !parsesAsDate(checkIn) then Some(CheckInInvalid) else None
  }

  /**
   * The error object `e` of `validate`: one optional message per field that
   * can have one (`None`: the key is absent). The status never has an error.
   */
  datatype Errors = Errors(name: Option<string>, phone: Option<string>, purpose: Option<string>,
                           host: Option<string>, checkIn: Option<string>)
  {
    /** `Object.keys(e).length === 0`. */
    predicate IsEmpty() {
      name.None? && phone.None? && purpose.None? && host.None? && checkIn.None?
    }
  }

  const NoErrors := Errors(None, None, None, None, None)

  /**
   * The error object `validate` builds for form `f`, field by field.
   * `parsesAsDate(x)` says whether `new Date(x)` is a valid date.
   */
  function ValidationErrors(isLetter: char -> bool, f: Form, parsesAsDate: string -> bool): (e: Errors)
    ensures e.name.None? <==> IsValidName(isLetter, Trim(f.name))
    ensures e.phone.None? <==> !IsBlank(f.phone) && PhoneFormatOk(f.phone)
    ensures e.purpose.None? <==> !IsBlank(f.purpose)
    ensures e.host.None? <==> !IsBlank(f.host)
    ensures e.checkIn.None? <==> !Truthy(f.checkIn) || parsesAsDate(f.checkIn)
  {
    Errors(NameError(isLetter, f.name), PhoneError(f.phone), RequiredError(f.purpose, PurposeRequired),
           RequiredError(f.host, HostRequired), CheckInError(f.checkIn, parsesAsDate))
  }

  /**
   * What `validate` reports, field by field: the name is required when blank
   * and otherwise must match the name pattern after trimming; the phone is
   * required when blank and otherwise must be 10 to 15 digits; purpose and host
   * are required; a typed check-in must parse as a date; the status is never checked.
   */
  lemma ValidationErrorsMeaning(isLetter: char -> bool, f: Form, parsesAsDate: string -> bool)
    ensures var e := ValidationErrors(isLetter, f, parsesAsDate);
      && (e.name.None? <==> MatchesNamePattern(isLetter, Trim(f.name)))
      && (e.name.Some? ==> e.name.value == if IsBlank(f.name) then NameRequired else NameInvalid)
      && (e.phone.None? <==> !IsBlank(f.phone) && PhoneFormatOk(f.phone))
      && (e.phone.Some? ==> e.phone.value == if IsBlank(f.phone) then PhoneRequired else PhoneInvalid)
      && (e.purpose.None? <==> !IsBlank(f.purpose)) && (e.purpose.Some? ==> e.purpose.value == PurposeRequired)
      && (e.host.None? <==> !IsBlank(f.host)) && (e.host.Some? ==> e.host.value == HostRequired)
      && (e.checkIn.None? <==> !Truthy(f.checkIn) || parsesAsDate(f.checkIn))
      && (e.checkIn.Some? ==> e.checkIn.value == CheckInInvalid)
  {
    NameTestMatchesPattern(isLetter, Trim(f.name));
  }

  /** A form passes validation exactly when every field rule holds. */
  lemma ValidationPassesIff(isLetter: char -> bool, f: Form, parsesAsDate: string -> bool)
    ensures ValidationErrors(isLetter, f, parsesAsDate).IsEmpty() <==>
      && MatchesNamePattern(isLetter, Trim(f.name))
      && PhoneFormatOk(f.phone)
      && !IsBlank(f.purpose) && !IsBlank(f.host)
      && (f.checkIn == "" || parsesAsDate(f.checkIn))
  {
    ValidationErrorsMeaning(isLetter, f, parsesAsDate);
    if PhoneFormatOk(f.phone) {
      DigitsAreTrimmed(f.phone);
    }
  }

  // -------------------------------------------------------------- payload

  /** The body of the update request; `checkIn` is `null` (`None`) when the input is empty. */
  datatype Payload = Payload(name: string, phone: string, purpose: string, host: string,
                             checkIn: Option<string>, status: string)

  /** The payload `onSubmit` sends; `toIso(x)` is `new Date(x).toISOString()`. */
  function BuildPayload(f: Form, toIso: string -> string): (p: Payload)
    ensures p.name == Trim(f.name) && p.phone == Trim(f.phone) && p.purpose == Trim(f.purpose) && p.host == Trim(f.host)
    ensures IsTrimmed(p.name) && IsTrimmed(p.phone) && IsTrimmed(p.purpose) && IsTrimmed(p.host)
    ensures p.checkIn.None? <==> f.checkIn == ""
    ensures p.checkIn.Some? ==> p.checkIn.value == toIso(f.checkIn)
    ensures p.status == f.status
  {
    Payload(Trim(f.name), Trim(f.phone), Trim(f.purpose), Trim(f.host),
            if Truthy(f.checkIn) then Some(toIso(f.checkIn)) else None,
            f.status)
  }

  /**
   * The payload of a form that passed validation: a trimmed name that matches
   * the name pattern, the phone as typed and 10 to 15 digits long, non-blank
   * trimmed purpose and host, the status unchanged, and a check-in only when
   * one was typed, in which case it parsed as a date.
   */
  lemma ValidFormPayload(isLetter: char -> bool, f: Form, parsesAsDate: string -> bool, toIso: string -> string)
    requires ValidationErrors(isLetter, f, parsesAsDate).IsEmpty()
    ensures var p := BuildPayload(f, toIso);
      && p.name == Trim(f.name) && p.purpose == Trim(f.purpose) && p.host == Trim(f.host)
      && p.name != "" && IsTrimmed(p.name) && MatchesNamePattern(isLetter, p.name)
      && p.phone == f.phone && PhoneFormatOk(p.phone)
      && p.purpose != "" && IsTrimmed(p.purpose)
      && p.host != "" && IsTrimmed(p.host)
      && p.status == f.status
      && (p.checkIn.None? <==> f.checkIn == "")
      && (p.checkIn.Some? ==> parsesAsDate(f.checkIn))
  {
    ValidationErrorsMeaning(isLetter, f, parsesAsDate);
    DigitsAreTrimmed(f.phone);
  }

  // -------------------------------------------------------------- prefill

  /** A visitor as the list page hands it over or the API returns it; `None` is null or undefined. */
  datatype VisitorView = VisitorView(name: Option<string>, phone: Option<string>, purpose: Option<string>,
                                     host: Option<string>, checkIn: Option<string>, status: Option<string>)

  /** `x ?? ''`. */
  function OrEmpty(x: Option<string>): string {
    if x.Some? then x.value else ""
  }

  /** `x?.field ?? ''` for an optional visitor. */
  function TextOf(v: Option<VisitorView>, field: VisitorView -> Option<string>): string {
    if v.Some? then OrEmpty(field(v.value)) else ""
  }

  /**
   * The form filled from a visitor (`None`: no visitor data at all).
   * `toIso(x)` is `new Date(x).toISOString()`; its first sixteen characters
   * are what a datetime-local input shows.
   */
  function PrefillForm(v: Option<VisitorView>, toIso: string -> string): (f: Form)
    ensures f.status == "Out" <==> v.Some? && v.value.status == Some("Out")
    ensures f.status == "In" || f.status == "Out"
    ensures f.name == TextOf(v, (x: VisitorView) => x.name)
    ensures f.phone == TextOf(v, (x: VisitorView) => x.phone)
    ensures f.purpose == TextOf(v, (x: VisitorView) => x.purpose)
    ensures f.host == TextOf(v, (x: VisitorView) => x.host)
    ensures |f.checkIn| <= 16
    ensures !Truthy(TextOf(v, (x: VisitorView) => x.checkIn)) ==> f.checkIn == ""
    ensures var src := TextOf(v, (x: VisitorView) => x.checkIn);
      Truthy(src) ==> f.checkIn <= toIso(src) && |f.checkIn| == if |toIso(src)| <= 16 then |toIso(src)| else 16
  {
    var checkIn := TextOf(v, (x: VisitorView) => x.checkIn);
    Form(TextOf(v, (x: VisitorView) => x.name),
         TextOf(v, (x: VisitorView) => x.phone),
         TextOf(v, (x: VisitorView) => x.purpose),
         TextOf(v, (x: VisitorView) => x.host),
         if Truthy(checkIn) then Take(toIso(checkIn), 16) else "",
         if v.Some? && v.value.status == Some("Out") then "Out" else "In")
  }

  /** With no visitor data, or a visitor with every field missing, the form is the initial one. */
  lemma PrefillOfNothing(toIso: string -> string)
    ensures PrefillForm(None, toIso) == Initial
    ensures PrefillForm(Some(VisitorView(None, None, None, None, None, None)), toIso) == Initial
  {
  }

  // ------------------------------------------------------------ the page

  /** Why an API call failed: `err.response.data.message`, `err.response.data.error`, `err.message` ("" when absent). */
  datatype HttpFailure = HttpFailure(dataMessage: string, dataError: string, message: string)

  /** The banner text for a failure: the first of the three that is non-empty, else `fallback`. */
  function FailureText(err: HttpFailure, fallback: string): (r: string)
    ensures r == err.dataMessage || r == err.dataError || r == err.message || r == fallback
    ensures Truthy(fallback) ==> Truthy(r)
  {
    FirstTruthy([err.dataMessage, err.dataError, err.message], fallback)
  }

  /** The three messages take precedence in order, and the fallback is used only when all are empty. */
  lemma FailureTextChoice(err: HttpFailure, fallback: string)
    ensures err.dataMessage != "" ==> FailureText(err, fallback) == err.dataMessage
    ensures err.dataMessage == "" && err.dataError != "" ==> FailureText(err, fallback) == err.dataError
    ensures err.dataMessage == "" && err.dataError == "" && err.message != "" ==> FailureText(err, fallback) == err.message
    ensures err.dataMessage == "" && err.dataError == "" && err.message == "" ==> FailureText(err, fallback) == fallback
  {
    var c := [err.dataMessage, err.dataError, err.message];
    assert c[0] == err.dataMessage && c[1] == err.dataError && c[2] == err.message;
  }

  datatype FetchReply = Fetched(data: Option<VisitorView>) | FetchFailed(failure: HttpFailure)
  datatype PutReply = PutOk | PutFailed(failure: HttpFailure)

  /** What a submit does: nothing (validation failed), or a PUT that saved or failed. */
  datatype SubmitOutcome = Blocked | Saved(payload: Payload, flash: string) | Failed(payload: Payload, message: string)

  const FetchFallback := "Failed to fetch visitor."
  const UpdateFallback := "Failed to update visitor."
  const UpdatedFlash := "Visitor updated successfully."

  class EditPage {
    var form: Form
    var errors: Errors
    var apiError: string
    var loading: bool
    var submitting: bool

    /** The page's initial state; it is loading unless the list handed over a visitor. */
    constructor (hasListVisitor: bool)
      ensures form == Initial && errors == NoErrors && apiError == ""
      ensures loading == !hasListVisitor && !submitting
    {
      form := Initial;
      errors := NoErrors;
      apiError := "";
      loading := !hasListVisitor;
      submitting := false;
    }

    /** The loading effect: prefill from the list's visitor, else from the fetched one. */
    method Load(fromList: Option<VisitorView>, fetch: FetchReply, toIso: string -> string)
      modifies this`form, this`apiError, this`loading
      ensures !loading
      ensures fromList.Some? ==> form == PrefillForm(fromList, toIso) && apiError == ""
      ensures fromList.None? && fetch.Fetched? ==> form == PrefillForm(fetch.data, toIso) && apiError == ""
      ensures fromList.None? && fetch.FetchFailed? ==>
                form == old(form) && apiError == FailureText(fetch.failure, FetchFallback)
    {
      if fromList.Some? {
        form := PrefillForm(fromList, toIso);
        apiError := "";
        loading := false;
        return;
      }
      match fetch {
        case Fetched(data) =>
          form := PrefillForm(data, toIso);
          apiError := "";
        case FetchFailed(failure) =>
          apiError := FailureText(failure, FetchFallback);
      }
      loading := false;
    }

    /** `onChange`: the phone input keeps only its first fifteen digits; other inputs take the value as is. */
    method OnChange(field: Field, value: string)
      modifies this`form
      ensures form.Get(field) == if field == Phone then SanitisePhone(value) else value
      ensures forall g :: g != field ==> form.Get(g) == old(form).Get(g)
    {
      if field == Phone {
        var digits := SanitisePhone(value);
        form := form.(phone := digits);
      } else {
        form := form.Set(field, value);
      }
    }

    /** `validate`: fills the error object field by field, stores it, and reports whether it is empty. */
    method Validate(isLetter: char -> bool, parsesAsDate: string -> bool) returns (ok: bool)
      modifies this`errors
      ensures errors == ValidationErrors(isLetter, form, parsesAsDate)
      ensures ok <==> errors.IsEmpty()
    {
      var e := NoErrors;
      if Trim(form.name) == "" {
        e := e.(name := Some(NameRequired));
      } else if !IsValidName(isLetter, Trim(form.name)) {
        e := e.(name := Some(NameInvalid));
      }
      if Trim(form.phone) == "" {
        e := e.(phone := Some(PhoneRequired));
      } else if !PhoneFormatOk(form.phone) {
        e := e.(phone := Some(PhoneInvalid));
      }
      if Trim(form.purpose) == "" {
        e := e.(purpose := Some(PurposeRequired));
      }
      if Trim(form.host) == "" {
        e := e.(host := Some(HostRequired));
      }
      if Truthy(form.checkIn) && !parsesAsDate(form.checkIn) {
        e := e.(checkIn := Some(CheckInInvalid));
      }
      errors := e;
      ok := e.IsEmpty();
    }

    /**
     * `onSubmit`: clears the banner, validates, and only for a valid form sends
     * the payload; `reply` is how the PUT request ends.
     */
    method OnSubmit(isLetter: char -> bool, parsesAsDate: string -> bool, toIso: string -> string, reply: PutReply)
      returns (outcome: SubmitOutcome)
      modifies this`errors, this`apiError, this`submitting
      ensures errors == ValidationErrors(isLetter, form, parsesAsDate)
      ensures !errors.IsEmpty() ==> outcome == Blocked && apiError == "" && submitting == old(submitting)
      ensures errors.IsEmpty() ==> !submitting
      ensures errors.IsEmpty() && reply == PutOk ==>
                outcome == Saved(BuildPayload(form, toIso), UpdatedFlash) && apiError == ""
      ensures errors.IsEmpty() && reply.PutFailed? ==>
                && outcome == Failed(BuildPayload(form, toIso), FailureText(reply.failure, UpdateFallback))
                && apiError == outcome.message
    {
      apiError := "";
      var ok := Validate(isLetter, parsesAsDate);
      if !ok {
        return Blocked;
      }
      submitting := true;
      var payload := BuildPayload(form, toIso);
      match reply {
        case PutOk =>
          outcome := Saved(payload, UpdatedFlash);
        case PutFailed(failure) =>
          apiError := FailureText(failure, UpdateFallback);
          outcome := Failed(payload, apiError);
      }
      submitting := false;
    }
  }
}
