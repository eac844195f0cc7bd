# Event management client: session and data layer

This project models the client-side state layer of the event-management web
client, whose core is the `App` component in `src/App.jsx`. Users register or
log in; a stored session (`devops.auth` in `localStorage`) restores the login.
The component loads the students and events together, creates, updates and
deletes students, creates, updates and cancels events, and subscribes students
to events. Every request goes through one `request` helper. It adds the JSON
content type and the bearer token, and turns an error response into one
user-facing message, which `normalizeApiError` extracts.

The model has three layers:

- **Pure helpers.**
  - `Wrappers` and `Js` model JSON values, JavaScript truthiness, `?.`, `??` and `String()`.
  - `Api` models `normalizeApiError`, the header object, and `request`.
  - `Session` models `getSavedAuth` and the record a login stores.
- **The component as a state machine** (`AppModel`). `AppState` holds every
  hook of the component, the stored session and a log of the requests issued
  so far. Each handler is a step function from the state before to the state
  after, given how its requests settled. A `Command` datatype with `Apply`
  gathers them.
- **The component as an object** (`AppComponent.App`). The class has one field
  per hook, one setter method per hook, and a field for the storage entry.
  Each handler is a method that changes the object only through those
  setters, in the order the component calls them. For example, a save resets
  its form before `finally` lowers `loading`. Each method keeps the class
  invariant `Valid()` (the register form has an `email` entry) and is proved to end in the state its step function
  gives.
- **Properties** (`AppProperties`). These are proved about the step functions,
  so they hold of the object as well:
  - request shapes and the bearer token;
  - create versus update;
  - entering and leaving edit mode;
  - the subscription guard;
  - logout;
  - the login round trip through storage;
  - one invariant that every command keeps.

Network outcomes (`HttpOutcome`: a transport failure, or a response with its
`ok` flag and its body) are inputs. So is the pair of outcomes of the joined
reload (`Reload`). `JSON.parse`, `JSON.stringify`, `Date#toISOString` and the
text of the `TypeError` raised by reading a property of `null` are
uninterpreted fields of `Env`.

Where a reader might expect otherwise, the model follows the code:

- A rejected `fetch` (a transport failure) is not normalised: its own message
  reaches the error display.
- `cancelEvent` does not check the event's status. Only the disabled button
  does.
- `loadData` catches its own error. So a mutation that succeeds, followed by a
  reload that fails, shows both the reload's error and the success notice, and
  still resets the form. The failure is not left with the prior state intact.
- Subscribe and unsubscribe issue no reload.

## Model

| member | source | states |
|---|---|---|
| Js.Coalesce | src/App.jsx:262-264 | `v ?? fallback` is the fallback exactly for undefined and null, the value otherwise |
| Js.ElementStringsOfStrings | src/App.jsx:24-25 | the strings `join` concatenates for a list of strings are those strings |
| Js.JoinStringsSnoc | src/App.jsx:25 | joining agrees with the left-to-right accumulation of `Array#join` |
| Js.NatToStringRoundTrip | src/App.jsx:200-202 | the decimal text of a non-negative number reads back as that number |
| Js.IntToStringInjective | src/App.jsx:200-202 | distinct numeric ids print differently, so they give distinct endpoints |
| Api.NormalizeApiError | src/App.jsx:21-28 | a message other than the fallback only ever comes from a truthy payload whose `message` is a string or a non-empty list; the lemmas below pin each shape |
| Api.NormalizeFalsyPayload | src/App.jsx:22 | a falsy payload gives the fallback message |
| Api.NormalizeStringMessage | src/App.jsx:23 | a string `message` is returned verbatim |
| Api.NormalizeListPayload | src/App.jsx:24-26 | a non-empty list `message` gives its elements as `join` renders them, separated by ", " |
| Api.NormalizeListMessage | src/App.jsx:24-26 | a non-empty list of strings is joined with ", " |
| Api.NormalizeOtherShapes | src/App.jsx:21-28 | any payload without a string or non-empty list `message` gives the fallback |
| Api.NormalizeExamples | src/App.jsx:21-28 | the documented payload shapes: a string, a two-element list, an empty list, no message, null |
| Api.LookupSetHeader | src/App.jsx:36-38 | assigning a header changes that name's value and no other |
| Api.SetHeaderShape | src/App.jsx:36-38 | assigning a header adds its name, keeps the first header first and keeps names distinct |
| Api.MergeHeadersLookup | src/App.jsx:31-34 | in `{...base, ...extra}` a name from `extra` wins and every other name keeps its value from `base` |
| Api.MergeHeadersShape | src/App.jsx:31-34 | spreading keeps the first header of the base first and keeps names distinct |
| Api.RequestHeaders | src/App.jsx:31-38 | the header object `request` builds; its properties are stated by `RequestHeadersSpec` |
| Api.RequestHeadersSpec | src/App.jsx:31-38 | Content-Type comes first and is JSON unless the caller sets it; Authorization is `Bearer <token>` exactly when the token is truthy and the caller's value otherwise; every other header is the caller's |
| Api.BuildHeaders | src/App.jsx:31-38 | building the header object step by step gives the headers `RequestHeadersSpec` describes |
| Api.IssuedCall | src/App.jsx:30-44 | the request handed to `fetch`; `Request` states its method, endpoint, body and Authorization header |
| Api.ResponseResult | src/App.jsx:45-53 | `request` resolves exactly when the response is ok, and a transport failure keeps its own message |
| Api.Request | src/App.jsx:30-53 | the issued request (method defaulting to GET, endpoint, body, headers with the bearer token) and how it settles: an ok response gives its body or null, a non-ok one the normalised message with the generic fallback, a transport failure its own message |
| Session.SavedAuth | src/App.jsx:8-19 | a session is restored exactly when the entry is present, non-empty, parses, and has a truthy user and token, and it is then the parsed record unchanged |
| Session.NextAuth | src/App.jsx:144-147 | the record a login keeps holds exactly the response's token and user |
| Session.RestoreAfterLogin | src/App.jsx:144-149 | when the stored text parses back, restoring gives the login's record exactly when its token and user are truthy, and no session otherwise |
| AppModel.JoinAll | src/App.jsx:98-101 | `Promise.all` of two requests succeeds exactly when both do, with both values, and otherwise fails with the first rejection |
| AppModel.Initial | src/App.jsx:56-84 | the first render is well formed and idle, has issued no request, and holds a session only when the stored entry parses to it |
| AppModel.LoadDataStep | src/App.jsx:92-109 | `loadData` keeps the view, the session, the editor, `loading` and the notice, and only appends to the log |
| AppModel.SubmitStep | src/App.jsx:117-156 | `handleSubmit` logs exactly its one request, keeps the register form, the lists and the editor, lowers `loading`, and changes the session only on a successful login |
| AppModel.LogoutStep | src/App.jsx:169-182 | `logout` leaves no session and an idle editor, issues no request and keeps the credentials |
| AppModel.Mutation | src/App.jsx:281-294 | the shared try/catch/finally keeps view, session and editor, lowers `loading`, logs its request first, shows the error and keeps the lists on failure, shows the notice on success, and without a reload changes neither the lists nor the rest of the log |
| AppModel.StudentSubmitStep | src/App.jsx:194-227 | `handleStudentSubmit` logs its request first, lowers `loading`, and leaves the view, the session, the event form and the selection alone |
| AppModel.EventSubmitStep | src/App.jsx:229-258 | `handleEventSubmit` logs its request first, lowers `loading`, and leaves the view, the session, the student form and the selection alone |
| AppModel.StartEditStudentStep | src/App.jsx:260-268 | entering edit mode issues no request and keeps the session, the lists, the messages and the event editor |
| AppModel.StartEditEventStep | src/App.jsx:270-279 | entering edit mode issues no request and keeps the session, the lists, the messages and the student editor |
| AppModel.DeleteStudentStep | src/App.jsx:281-294 | `deleteStudent` logs its DELETE first, lowers `loading`, and keeps view, session and editor |
| AppModel.CancelEventStep | src/App.jsx:296-309 | `cancelEvent` logs its PATCH first, lowers `loading`, and keeps view, session and editor |
| AppModel.SubscribeStep | src/App.jsx:311-333 | `subscribeToEvent` never reloads and keeps view, session, editor and lists; it logs nothing without a selection and exactly its POST with one |
| AppModel.UnsubscribeStep | src/App.jsx:335-357 | `unsubscribeFromEvent` never reloads and keeps view, session, editor and lists; it logs nothing without a selection and exactly its DELETE with one |
| AppModel.SelectStudentStep | src/App.jsx:497-502 | the picker issues no request and touches neither the view, the messages, the session nor the lists |
| AppModel.Apply | src/App.jsx:92-357 | every command keeps the state well formed and only appends to the request log |
| AppModel.LoadDataIgnoresLoading | src/App.jsx:92-109 | `loadData` neither reads nor writes the submission flag |
| AppProperties.IssuedCallAuthorized | src/App.jsx:30-38 | a request with no caller headers carries `Bearer <token>` exactly when the token is truthy, and the JSON content type |
| AppProperties.LoadDataWithoutToken | src/App.jsx:93 | without a truthy token `loadData` changes nothing and issues no request |
| AppProperties.LoadDataWithToken | src/App.jsx:92-109 | with a token: GET /students then GET /events with the token; both lists replaced and the error cleared on success, neither list changed and the error shown on failure; content loading off; nothing else changes |
| AppProperties.ReloadFailsIfEitherFails | src/App.jsx:98-101 | the joined reload succeeds exactly when both fetches do, and otherwise fails with the message of a failed one |
| AppProperties.MutationLog | src/App.jsx:281-294 | a mutation issues its own request, then the two reload requests only when it succeeded and reloads with a truthy token |
| AppProperties.MutationOutcome | src/App.jsx:281-294 | on failure only the messages, the flag and the log change and the error is shown; on success the notice is shown, beside the reload's error when the reload failed; view, session and editor never change |
| AppProperties.StudentSubmitRequest | src/App.jsx:194-213 | PATCH /students/{id} when the editing id is truthy, POST /students otherwise, with the form as JSON and the token |
| AppProperties.StudentSubmitOutcome | src/App.jsx:194-227 | success resets the form, clears the editing id and shows the create or update notice; failure keeps the form, the editing id and the lists, and shows the error; loading is off either way |
| AppProperties.EventSubmitRequest | src/App.jsx:229-248 | PATCH /events/{id} when the editing id is truthy, POST /events otherwise, with the form as JSON and the token |
| AppProperties.EventSubmitOutcome | src/App.jsx:229-258 | as for students, for the event form and its editing id |
| AppProperties.SavedThenReloadFailed | src/App.jsx:214-221 | a saved student followed by a failed reload shows both the reload's error and the success notice, resets the form and keeps the lists |
| AppProperties.ZeroIdIsCreated | src/App.jsx:200-203 | an editing id of 0 is falsy, so the submit creates with POST /students |
| AppProperties.StudentFormFields | src/App.jsx:261-266 | the pre-filled student form has the three fields, each the record's value or `''` when null or missing |
| AppProperties.StartEditStudentPrefills | src/App.jsx:260-268 | the editing id becomes the record's id, the form is pre-filled, the students tab is shown, nothing else changes |
| AppProperties.EventFormFields | src/App.jsx:272-277 | the pre-filled event form has the four fields, each the record's value or `''`, and the date as given |
| AppProperties.StartEditEventPrefills | src/App.jsx:270-279 | the editing id becomes the record's id, the form is pre-filled with the date cut to the minute, the events tab is shown, nothing else changes |
| AppProperties.StartEditEventBadDate | src/App.jsx:270-276 | a date that `toISOString` rejects leaves only the editing id set |
| AppProperties.MinutesIsPrefix | src/App.jsx:275 | the shown date is a prefix of the ISO text of at most 16 characters, exactly 16 when the text is that long |
| AppProperties.CancelEditIsIdle | src/App.jsx:598-601 | cancelling an edit clears the editing id and empties the form, for students and (457-465) for events; nothing else changes |
| AppProperties.EditThenSubmitUpdates | src/App.jsx:194-268 | editing a record with a truthy id and submitting sends PATCH /students/{id} with the pre-filled form, and success returns to the idle state |
| AppProperties.EditStudentFiveExample | src/App.jsx:200-202 | editing student 5 then submitting addresses /students/5 |
| AppProperties.DeleteStudentRequest | src/App.jsx:281-285 | DELETE /students/{id} with the token and no body |
| AppProperties.CancelEventRequest | src/App.jsx:296-300 | PATCH /events/{id}/cancel with the token, whatever the event's status |
| AppProperties.SubscribeWithoutSelection | src/App.jsx:311-316 | without a truthy selection for the event, no request is issued and only the specific error is set |
| AppProperties.SubscribeWithSelection | src/App.jsx:311-357 | with a selection: POST /events/{e}/subscribe/{s} or DELETE /events/{e}/unsubscribe/{s}, no reload, lists and selection unchanged, the notice on success and the error on failure |
| AppProperties.SelectStudentIsLocal | src/App.jsx:497-502 | the picker sets its own event's entry, leaves every other entry and everything else alone |
| AppProperties.LogoutResets | src/App.jsx:169-182 | logout clears the session in memory and storage, empties the lists, resets both forms, both editing ids, the selection, the tab and the messages, and keeps mode, credentials, flags and log |
| AppProperties.LogoutIdempotent | src/App.jsx:169-182 | logging out twice is logging out once |
| AppProperties.LoginEstablishesSession | src/App.jsx:143-149 | a login keeps `{token, user}` in memory and in storage, and restoring the stored text gives it back exactly when token and user are truthy |
| AppProperties.SubmitRequest | src/App.jsx:117-133 | the credentials submit adds one request: POST to /auth/login or /auth/register with the active form, without a token |
| AppProperties.RegisterReturnsToLogin | src/App.jsx:135-142 | a registration switches to login with the registered email and an empty password, shows the notice and keeps the session |
| AppProperties.SubmitFailureKeepsSession | src/App.jsx:151-155 | a failed submit, or a login answered with no JSON, keeps the session and the view and shows the error |
| AppProperties.LoadDataCalls | src/App.jsx:92-101 | the requests `loadData` adds extend the log and carry the token |
| AppProperties.MutationCalls | src/App.jsx:281-294 | the requests a mutation adds, its own and its reload's, extend the log and carry the token |
| AppProperties.LoadDataFrame | src/App.jsx:92-109 | `loadData` touches only the lists, the error, content loading and the log, and installs exactly the fetched pair |
| AppProperties.MutationCollections | src/App.jsx:281-294 | a mutation keeps the lists or installs exactly its reload's pair, keeps view, session and editor, and leaves loading off |
| AppProperties.MutationFramed | src/App.jsx:281-294 | a mutation stays within the frame of its command |
| AppProperties.StudentSubmitFramed | src/App.jsx:194-227 | the student submit stays within its frame |
| AppProperties.EventSubmitFramed | src/App.jsx:229-258 | the event submit stays within its frame |
| AppProperties.DeleteStudentFramed | src/App.jsx:281-294 | delete stays within its frame |
| AppProperties.CancelEventFramed | src/App.jsx:296-309 | cancel stays within its frame |
| AppProperties.SubscriptionFramed | src/App.jsx:311-357 | subscribe and unsubscribe stay within their frame |
| AppProperties.LoadFramed | src/App.jsx:92-109 | the session-triggered reload stays within its frame |
| AppProperties.SubmitFramed | src/App.jsx:117-156 | the credentials submit keeps the register form's email and changes the session only when logging in |
| AppProperties.LogoutFramed | src/App.jsx:169-182 | logout stays within its frame |
| AppProperties.LocalIsLocal | src/App.jsx:158-192 | form, mode, tab, edit-mode and picker commands change only the view, the editor and the messages |
| AppProperties.LocalFramed | src/App.jsx:158-192 | those commands stay within their frame |
| AppProperties.RemoteFramed | src/App.jsx:92-357 | every command that sends a request stays within its frame |
| AppProperties.ApplyKeepsInvariants | src/App.jsx:92-357 | every command keeps the register form's email and stays within its frame: lists unchanged, emptied by logout or exactly a reload's pair; session changed only by logout or a login; no loading flag left raised; the log only grows, by requests carrying the right token |
| AppProperties.ApplyRequestsCarrySession | src/App.jsx:92-357 | the log only grows, and each request a command adds carries the session's bearer token (none for the credentials form) |
| AppComponent.App.constructor | src/App.jsx:56-84 | every hook starts at its initial value and the session is read back from storage |
| AppComponent.App.StoreSession | src/App.jsx:149 | writing the storage entry sets it and nothing else |
| AppComponent.App.ForgetSession | src/App.jsx:171 | removing the storage entry clears it and nothing else |
| AppComponent.App.Attempt | src/App.jsx:281-291 | the shared `try` and `catch` end in `Mutation` with `loading` still raised, and report whether the request succeeded |
| AppComponent.App.Send | src/App.jsx:30-53 | a request is logged as `request` issues it and settles as `request` does |
| AppComponent.App.LoadData | src/App.jsx:92-109 | ends in `LoadDataStep`: with a token both lists installed together or neither, the error shown otherwise (`LoadDataWithToken`), nothing done without one (`LoadDataWithoutToken`) |
| AppComponent.App.HandleSubmit | src/App.jsx:117-156 | ends in `SubmitStep` and keeps the register form's email: login stores the session (`LoginEstablishesSession`), registration returns to login (`RegisterReturnsToLogin`), failure keeps the session (`SubmitFailureKeepsSession`) |
| AppComponent.App.HandleFieldChange | src/App.jsx:158-167 | writes the field into the form of the current mode only (`LocalIsLocal`) |
| AppComponent.App.SwitchMode | src/App.jsx:664-682 | sets the mode and clears both messages |
| AppComponent.App.SelectTab | src/App.jsx:384-399 | sets the tab |
| AppComponent.App.Logout | src/App.jsx:169-182 | ends in `LogoutStep`: session gone from memory and storage, content and editor reset (`LogoutResets`) |
| AppComponent.App.UpdateStudentFormField | src/App.jsx:184-187 | writes the field into the student form |
| AppComponent.App.UpdateEventFormField | src/App.jsx:189-192 | writes the field into the event form |
| AppComponent.App.Mutate | src/App.jsx:281-294 | `Attempt` followed by the `finally` ends in `Mutation`: the error, or the notice after the optional reload (`MutationOutcome`) |
| AppComponent.App.HandleStudentSubmit | src/App.jsx:194-227 | ends in `StudentSubmitStep`: PATCH when editing a truthy id, POST otherwise; success resets the form, failure keeps it (`StudentSubmitRequest`, `StudentSubmitOutcome`) |
| AppComponent.App.HandleEventSubmit | src/App.jsx:229-258 | ends in `EventSubmitStep`: as for students (`EventSubmitRequest`, `EventSubmitOutcome`) |
| AppComponent.App.StartEditStudent | src/App.jsx:260-268 | ends in `StartEditStudentStep`: editing id, pre-filled form, students tab (`StartEditStudentPrefills`) |
| AppComponent.App.StartEditEvent | src/App.jsx:270-279 | ends in `StartEditEventStep`: editing id, pre-filled form and events tab, or only the editing id on a bad date (`StartEditEventPrefills`, `StartEditEventBadDate`) |
| AppComponent.App.CancelStudentEdit | src/App.jsx:598-601 | clears the student editing id and empties the form (`CancelEditIsIdle`) |
| AppComponent.App.CancelEventEdit | src/App.jsx:457-465 | clears the event editing id and empties the form (`CancelEditIsIdle`) |
| AppComponent.App.DeleteStudent | src/App.jsx:281-294 | ends in `DeleteStudentStep`: DELETE /students/{id}, then the shared outcome (`DeleteStudentRequest`, `MutationOutcome`) |
| AppComponent.App.CancelEvent | src/App.jsx:296-309 | ends in `CancelEventStep`: PATCH /events/{id}/cancel with no status check (`CancelEventRequest`, `MutationOutcome`) |
| AppComponent.App.SubscribeToEvent | src/App.jsx:311-333 | ends in `SubscribeStep`: the error alone without a selection, otherwise POST /events/{e}/subscribe/{s} with no reload (`SubscribeWithoutSelection`, `SubscribeWithSelection`) |
| AppComponent.App.UnsubscribeFromEvent | src/App.jsx:335-357 | ends in `UnsubscribeStep`: as for subscribe, with DELETE /events/{e}/unsubscribe/{s} |
| AppComponent.App.SelectStudentForEvent | src/App.jsx:497-502 | sets the picked student of that event's card only (`SelectStudentIsLocal`) |

## Left out

- `fetch`, the HTTP transport and `response.json()` are not executed. Each
  request's outcome is an input. A body that is not JSON is `None`.
- `JSON.parse`, `JSON.stringify` and `new Date(...).toISOString()` are
  uninterpreted functions in `Env`. So is the text of the `TypeError` that
  reading `data.token` of a `null` body raises. Their real behaviour is not
  modelled.
- Illegal or overlong credential values (for example unpaired surrogates in
  `JSON.stringify`) are not modelled, because stringify is uninterpreted.
- The `useEffect` that calls `loadData(auth)` when `auth` changes is not
  scheduled automatically. It is the `Load` command (and `App.LoadData`),
  applied when the environment fires it.
- Asynchronous interleaving is not modelled. Each handler runs to completion
  as one step, and a second handler cannot run while a request is in flight.
  The two fetches of `Promise.all` are one join of two outcomes, with a flag
  for which rejection comes first.
- The value of `loading` and `contentLoading` while a request is in flight is
  not modelled. The component shows it through disabled buttons and a loading
  text. The methods set these flags in the component's order, but only the
  state after the handler completes is stated.
- React's batching of state updates is not modelled. The setters apply at
  once, in call order; the final state is the same.
- JSX rendering, CSS, `useMemo` as a cache (`activeForm` is the function
  `ActiveForm`), the `isAdmin` role gating and the disabled buttons, including
  the CANCELED guard on the cancel button, are not modelled. They only decide
  what is shown or clickable.
- `preventDefault` on the form events is not modelled. It has no effect on
  state.
- `formatDate` is not modelled. It is presentation only, and depends on
  locale formatting and `Date`.
- `API_BASE_URL` from the build environment is not modelled. Endpoints are
  kept relative to it.
- `src/Home.jsx` is not part of this model. It holds presentational links
  only.
- JSON numbers are integers. Fractions, exponent notation for magnitudes from
  10^21, `-0` and `NaN` are not modelled, so `String(id)` prints integers only.
- JavaScript objects are `map`s. Key order, integer-like keys enumerating
  first, and properties inherited from the prototype are not modelled.
- Header names are case-sensitive here. The `Headers` class of `fetch` merges
  names case-insensitively; the object literal built in `request` does not.
- Api.Request: the Authorization header is stated only for caller headers
  with distinct names, as a JavaScript object has them. Every call site passes
  none.
- Event ids and student ids reach the handlers as optional JSON values
  (`None` for `undefined`). The picker's value is a string.
