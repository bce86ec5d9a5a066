# Visitor Management System — a Dafny model of its core

The system records visitors of a site on behalf of logged-in users. A user
registers a visitor (name, phone, purpose, host, check-in time, status `In`
or `Out`), lists their own visitors newest first, and edits one in a form
that checks every field before it sends the update. This project models the
core of that flow and proves what it promises:

- `visitor_schema.dfy` (module `VisitorSchema`): the Visitor document schema.
  It trims the text fields, requires a name, gives the status the default
  `In` and limits it to `In`/`Out`, casts the dates, and stamps the
  timestamps. `Create` either gives a well-formed document or the list of
  validation errors, with the store's error message.
- `visitor_controller.dfy` (module `VisitorController`): the `addVisitor` and
  `getVisitors` handlers, as methods of a `VisitorStore` class. The class
  holds the documents in insertion order and the next identifier. The
  listing is the requester's documents sorted newest first.
- `visitors_edit.dfy` (module `VisitorsEdit`): the edit page.
  - Its rules are functions: the phone sanitiser, the name pattern, the
    per-field errors, the prefill and the update payload.
  - Its state (form, errors, banner, loading and submitting flags) is an
    `EditPage` class. The class's methods are the page's handlers: load,
    change, validate, submit.
- `api_client.dfy` (module `ApiClient`): the browser's HTTP client.
  - The base URL is normalised to end in `/`.
  - The request interceptor attaches the stored bearer token.
  - The 401 interceptor clears the session and redirects to the login page.
  - localStorage and the request config are classes updated in place.
- `server.dfy` (module `Server`): the CORS origin decision and the health
  endpoint.
- `js.dfy` (module `Js`) and `http.dfy` (module `Http`): JavaScript's
  `String.prototype.trim` (with its whitespace set), truthiness, `||`
  chains, `slice`, and the status/body shape of a response.

`addVisitor` has no fallback owner. With no user attached, reading
`req.user.id` throws a TypeError and the handler answers 500 with its
message. `VisitorStore.AddVisitor` models exactly that.

The browser and the store give the model some values it cannot compute
itself. These are parameters, and every proof holds for all of them:

- which characters are letters (the `\p{L}` class of the name pattern);
- whether a text parses as a date (`new Date(x)`);
- the ISO text of a date (`toISOString`);
- the store's clock;
- whether the store's own write or read succeeds;
- how the HTTP request of the edit page ends.

## Model

| member | source | states |
|---|---|---|
| Js.Trim | backend/models/Visitor.js:7-10 | The trimmed text has no leading or trailing JavaScript whitespace and is no longer than the input. It is empty exactly when the input is all whitespace. |
| Js.TrimIsSlice | backend/models/Visitor.js:7-10 | The trimmed text is a middle slice of the input with only whitespace cut off before and after it. Together with Trim's contract, it is the input minus all its leading and trailing whitespace. |
| Js.TrimIdempotent | backend/models/Visitor.js:7-10 | Trimming twice is trimming once. |
| Js.Take | frontend/src/pages/VisitorsEdit.jsx:68 | `slice(0, n)` gives a prefix of the input of exactly `min(length, n)` characters. |
| Js.FirstTruthy | frontend/src/pages/VisitorsEdit.jsx:51-55 | An `a \|\| b \|\| fallback` chain gives the first non-empty candidate, or the fallback when all are empty. |
| VisitorSchema.ParseStatus | backend/models/Visitor.js:13 | The status enum accepts exactly `In` and `Out`, and the accepted value round-trips through its name. |
| VisitorSchema.TrimField | backend/models/Visitor.js:8-10 | An optional trimmed field stays absent when absent, and holds the trimmed input when present. |
| VisitorSchema.Normalise | backend/models/Visitor.js:7-13 | Casting replaces name, phone, purpose and host by their trimmed values, absent ones staying absent. A missing status becomes `In` and a given one is kept. Owner and dates pass through unchanged. |
| VisitorSchema.NormaliseIdempotent | backend/models/Visitor.js:7-13 | Normalising an already normalised input changes nothing. |
| VisitorSchema.Errors | backend/models/Visitor.js:7-13 | There is a required-name error iff the cast name is missing or empty. There is a cast error for a date path iff that date is invalid. There is an enum error for exactly the status outside `In`/`Out`. |
| VisitorSchema.Create | backend/models/Visitor.js:4-16 | Creation succeeds iff the name is present and not blank, neither date is invalid, and the status is absent, `In` or `Out`; a refusal carries exactly the errors of the failing paths, `Errors` of the cast input, so at least one. A created document is well formed. It has the given identifier, both timestamps equal to now, and the input's owner. Its text fields are the trimmed inputs and its dates are the cast ones. Its status is the given one, or `In`. |
| VisitorSchema.UnknownStatusRejected | backend/models/Visitor.js:13 | A status other than `In`/`Out` is refused with an enum error naming it. |
| VisitorSchema.BlankNameRejected | backend/models/Visitor.js:7 | A missing or all-whitespace name is refused with the required-path error. |
| VisitorSchema.OptionalFieldsOptional | backend/models/Visitor.js:6-13 | Leaving out the owner and both dates never turns an accepted input into a refused one, and does not change the status. |
| VisitorController.CheckInOf | backend/controllers/visitorController.js:17 | The check-in is passed on iff the body's is present and non-empty, and then as its parsed date. |
| VisitorController.CreateInput | backend/controllers/visitorController.js:11-19 | The create input is owned by the requester and carries the body's name, phone, purpose, host and status unchanged. Its check-in is the body's parsed as a date when non-empty, and it has no check-out. The schema accepts it iff the body's name is present and not blank, an empty or missing check-in or one that parses, and a missing, `In` or `Out` status. |
| VisitorController.OwnedBy | backend/controllers/visitorController.js:33 | The filter keeps exactly the documents whose owner is the requester, each as often as the store holds it. |
| VisitorController.InsertNewestFirst | backend/controllers/visitorController.js:34 | Inserting into a newest-first list keeps it newest first and adds exactly the one document. |
| VisitorController.SortNewestFirst | backend/controllers/visitorController.js:34 | The sort result is newest first and is a permutation of its input. |
| VisitorController.Listing | backend/controllers/visitorController.js:32-34 | The listing is newest first and a permutation of the owned documents. |
| VisitorController.ListingContract | backend/controllers/visitorController.js:32-35 | The listing is newest first. It holds each owned document as often as the store does, and no other document. |
| VisitorController.InsertKeepsStoreValid | backend/controllers/visitorController.js:11-20 | Appending a well-formed document under the next identifier keeps every document well formed with a distinct identifier below the counter. |
| VisitorController.CreatedFromBody | backend/controllers/visitorController.js:9-19 | A document created from a request body: owned by the requester, with the body's trimmed name and optional fields. It has a check-in iff the body's was non-empty, and then at the time the body's check-in parses to. It has no check-out, and the body's status or `In`. |
| VisitorController.VisitorStore.constructor | backend/controllers/visitorController.js:11 | The store starts empty and valid, with the first identifier 0. |
| VisitorController.VisitorStore.AddVisitor | backend/controllers/visitorController.js:8-24 | Answers 201 iff a user is attached, the schema accepts the body and the write succeeds. In that case it appends exactly the created document, advances the identifier by one and returns the document. Otherwise it answers 500 with the TypeError, validation or store message and leaves documents and identifier unchanged. The store invariant is kept. |
| VisitorController.VisitorStore.GetVisitors | backend/controllers/visitorController.js:30-39 | Answers 500 with the error message when no user is attached or the read fails. Otherwise it answers 200 with exactly the requester's documents, newest first. |
| VisitorsEdit.Form.Set | frontend/src/pages/VisitorsEdit.jsx:71 | Setting one input changes that input and no other. |
| VisitorsEdit.DigitsOf | frontend/src/pages/VisitorsEdit.jsx:68 | Removing non-digits leaves only digits, each digit as often as in the input. |
| VisitorsEdit.DigitsOfAppend | frontend/src/pages/VisitorsEdit.jsx:68 | Removing non-digits works piecewise, so the digits keep their order. |
| VisitorsEdit.DigitsOfDigits | frontend/src/pages/VisitorsEdit.jsx:68 | A string of digits loses nothing. |
| VisitorsEdit.SanitisePhone | frontend/src/pages/VisitorsEdit.jsx:68 | The phone input holds a prefix of the typed digits: all of them when there are at most 15, else exactly the first 15. |
| VisitorsEdit.SanitisePhoneIdempotent | frontend/src/pages/VisitorsEdit.jsx:68 | Sanitising a sanitised phone changes nothing. |
| VisitorsEdit.FirstLetter | frontend/src/pages/VisitorsEdit.jsx:78 | Finds the position of the first letter of a name (or its length). |
| VisitorsEdit.NameTestMatchesPattern | frontend/src/pages/VisitorsEdit.jsx:78 | For every letter class, the name test accepts exactly what the name pattern matches: non-letters other than `_ . -`, then a letter, then one or more letters, spaces, `.`, `'` or `-`. |
| VisitorsEdit.NamePatternRefusals | frontend/src/pages/VisitorsEdit.jsx:78 | A one-character name is refused. So is a name starting with `_`, `.` or `-`, when none of them is a letter, as in `\p{L}`. |
| VisitorsEdit.LettersThenTailMatch | frontend/src/pages/VisitorsEdit.jsx:78 | A letter of any script followed by one or more letters, spaces, `.`, `'` or `-` matches the pattern. |
| VisitorsEdit.NameError | frontend/src/pages/VisitorsEdit.jsx:77-78 | No name error iff the trimmed name passes the name test. The message is "required" for a blank name and "invalid" otherwise. |
| VisitorsEdit.PhoneError | frontend/src/pages/VisitorsEdit.jsx:80-81 | No phone error iff the phone is not blank and is 10 to 15 digits as typed. The message is "required" for a blank phone and "10–15 digits" otherwise. |
| VisitorsEdit.RequiredError | frontend/src/pages/VisitorsEdit.jsx:83-84 | Purpose and host get their required message exactly when blank. |
| VisitorsEdit.CheckInError | frontend/src/pages/VisitorsEdit.jsx:86-89 | An empty check-in is accepted. A typed one is refused exactly when it does not parse as a date. |
| VisitorsEdit.ValidationErrors | frontend/src/pages/VisitorsEdit.jsx:75-92 | Each field of the error object is absent exactly when its rule holds: name test, non-blank 10–15 digit phone, non-blank purpose and host, empty or parsing check-in. |
| VisitorsEdit.ValidationErrorsMeaning | frontend/src/pages/VisitorsEdit.jsx:75-92 | For each field of the error object: when it is absent, and which message it holds otherwise. The name is stated against the pattern itself. The status never has an error. |
| VisitorsEdit.ValidationPassesIff | frontend/src/pages/VisitorsEdit.jsx:75-92 | A form validates iff the trimmed name matches the pattern, the phone is 10 to 15 digits, purpose and host are not blank, and the check-in is empty or parses. |
| VisitorsEdit.BuildPayload | frontend/src/pages/VisitorsEdit.jsx:101-108 | The payload's name, phone, purpose and host are the form's values trimmed. Its check-in is `null` iff the input is empty, and the ISO text otherwise. The status is sent as it is. |
| VisitorsEdit.ValidFormPayload | frontend/src/pages/VisitorsEdit.jsx:101-108 | The payload of a valid form carries the form's trimmed name, which is non-empty and matches the pattern, and the typed 10–15 digit phone. Purpose and host are the form's trimmed values and non-empty, and the status is unchanged. It has a check-in iff one was typed, and that one parsed. |
| VisitorsEdit.PrefillForm | frontend/src/pages/VisitorsEdit.jsx:23-29 | Prefilling takes each text field or `''`. The check-in is empty when the source has none, and otherwise the first 16 characters of its ISO text. The status is `Out` iff the visitor's status is `Out`, else `In`. The same function serves the fetched visitor (lines 41-47). |
| VisitorsEdit.PrefillOfNothing | frontend/src/pages/VisitorsEdit.jsx:41-47 | With no data, or data with every field missing, the prefilled form is the initial form. |
| VisitorsEdit.FailureText | frontend/src/pages/VisitorsEdit.jsx:51-55 | The banner text is one of the three messages or the fallback, and never empty when the fallback is not. |
| VisitorsEdit.FailureTextChoice | frontend/src/pages/VisitorsEdit.jsx:116-120 | The banner shows the response's `message`, then its `error`, then the error's own message, and only when all are empty the fallback. |
| VisitorsEdit.EditPage.constructor | frontend/src/pages/VisitorsEdit.jsx:14-18 | The page starts with the initial form, no errors, no banner and not submitting. It is loading iff the list handed over no visitor. |
| VisitorsEdit.EditPage.Load | frontend/src/pages/VisitorsEdit.jsx:21-63 | Loading ends with the form prefilled from the list's visitor, or else from the fetched one, and an empty banner. A failed fetch leaves the form and shows the failure text. |
| VisitorsEdit.EditPage.OnChange | frontend/src/pages/VisitorsEdit.jsx:65-73 | The changed input takes the sanitised phone or the value as given. Every other input is unchanged. |
| VisitorsEdit.EditPage.Validate | frontend/src/pages/VisitorsEdit.jsx:75-92 | The stored error object is the form's validation errors. The result is true iff it is empty. |
| VisitorsEdit.EditPage.OnSubmit | frontend/src/pages/VisitorsEdit.jsx:94-125 | An invalid form sends nothing and leaves the banner empty. A valid one sends the payload. On success the outcome carries the flash and the banner stays empty. On failure the banner shows the failure text. In both cases submitting ends false. |
| ApiClient.LeftmostMatchPosition | frontend/src/api/axiosConfig.jsx:6 | The leftmost match of `\/?$` is the final slash if there is one, else the empty match at the end. |
| ApiClient.ReplaceTrailingSlash | frontend/src/api/axiosConfig.jsx:6 | The replaced base ends in `/`. A base already ending in `/` is unchanged; any other gains exactly one `/`. |
| ApiClient.ReplaceTrailingSlashIdempotent | frontend/src/api/axiosConfig.jsx:6 | Normalising the base twice is normalising it once. |
| ApiClient.ApiBase | frontend/src/api/axiosConfig.jsx:5-6 | The base URL is the configured value, or the default when that is unset or empty, unchanged if it ends in `/` and with one `/` appended otherwise. |
| ApiClient.DefaultApiBase | frontend/src/api/axiosConfig.jsx:5-6 | With the setting unset or empty, the base is `http://localhost:5001/api/`. |
| ApiClient.LocalStorage.constructor | frontend/src/api/axiosConfig.jsx:16 | The storage holds the given items. |
| ApiClient.LocalStorage.GetItem | frontend/src/api/axiosConfig.jsx:16 | Reading a key gives its stored value, or `null` when it is not stored. |
| ApiClient.LocalStorage.RemoveItem | frontend/src/api/axiosConfig.jsx:28-29 | Removing a key drops exactly that key. |
| ApiClient.RequestConfig.constructor | frontend/src/api/axiosConfig.jsx:15 | A request config holds the given headers. |
| ApiClient.WithBearer | frontend/src/api/axiosConfig.jsx:15-21 | An `Authorization: Bearer <token>` header is added exactly when a non-empty token is stored. Every other header is kept. |
| ApiClient.InterceptRequest | frontend/src/api/axiosConfig.jsx:15-21 | The interceptor updates the config's headers in place as above and returns the same config. |
| ApiClient.SessionAfter | frontend/src/api/axiosConfig.jsx:27-31 | A 401 removes `token` and `user` and nothing else; any other failure leaves the storage unchanged. |
| ApiClient.InterceptResponseError | frontend/src/api/axiosConfig.jsx:24-34 | Every error is rejected unchanged. A 401 also clears the session and redirects to `/login`; nothing else redirects. |
| ApiClient.NoBearerAfterUnauthorized | frontend/src/api/axiosConfig.jsx:15-31 | After a 401 no token is stored, so the next request's headers go out unchanged. |
| Server.DecideOrigin | backend/server.js:19-25 | An origin is allowed iff it is missing, empty or exactly one of the allowed origins. Otherwise it is blocked with `CORS blocked: <origin>`. |
| Server.AllowedOriginsWrittenOut | backend/server.js:12-17 | The allowed origins are exactly `http://3.107.202.99`, `http://3.107.202.99:80` and `http://localhost:3000`. |
| Server.TrailingSlashVariantBlocked | backend/server.js:13-24 | An allowed origin with a trailing slash is blocked, since the match is exact. |
| Server.BlockedUnlessListed | backend/server.js:22-24 | A non-empty origin other than the three allowed ones is blocked with `CORS blocked: <origin>`. |
| Server.OtherEc2PortsBlocked | backend/server.js:13-24 | The deployed host with any port text other than `80` is blocked. |
| Server.OtherLocalPortsBlocked | backend/server.js:13-24 | The development host with any port text other than `3000` is blocked. |
| Server.HttpsBlocked | backend/server.js:13-24 | Every `https` origin is blocked, since all allowed origins are plain `http`. |
| Server.Health | backend/server.js:36 | The health endpoint answers 200 with `ok` true. |

## Left out

- VisitorSchema.Create: a JSON `null` body field is treated like an absent one. In particular the model gives a `null` status the default `In`, while the store library applies defaults only to undefined values. A `null` status is then refused or stored as `null`, depending on the library version.

- The Unicode character database behind `\p{L}` is not modelled. The letter class is a parameter, and the name facts hold for every choice of it.
- Date parsing, `toISOString`, and the RangeError that `toISOString` throws for an invalid stored date are parameters or not modelled. The model does not compute calendar times.
- VisitorsEdit.EditPage.Load: the `alive` flag, which drops a reply that arrives after the page has gone, and the fetch's URL are not modelled. The reply is a parameter.
- VisitorsEdit.EditPage.OnSubmit: the navigation to `/visitors` after a save is the `Saved` outcome with its flash text. The routing itself is not modelled.
- VisitorController.VisitorStore.AddVisitor: the store's own write errors (connection, duplicate key) are one failure parameter with its message.
- VisitorController.SortNewestFirst: documents with equal creation times are listed in store order, while the store leaves their order unspecified.
- VisitorSchema.Create: error messages use the store library's default wording in path order (name, checkIn, checkOut, status). Real ObjectIds are modelled as natural numbers handed out in order.
- ApiClient.InterceptResponseError: `window.location.assign` is returned as the redirect path. The page reload is not modelled.
- The success path of the response interceptor is the identity and has no member.
- The axios instance's `timeout` and `withCredentials`, and the CORS `credentials` flag, are not modelled. Nor are JSON parsing, the database connection, the server's listen call or route mounting. These are framework wiring with no logic of their own.
- The update and delete endpoints and the other pages (list, add, login, register, profile) are not part of this model.
