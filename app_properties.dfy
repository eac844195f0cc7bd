/**
 * What the handlers of the `App` component promise: the request each one
 * issues, what it leaves in the state on success and on failure, and the
 * invariants every handler keeps.
 */
module AppProperties {
  import opened Wrappers
  import opened Js
  import opened Api
  import opened Session
  import opened AppModel

  /** A request carries `Authorization: Bearer <token>` exactly when the token is truthy. */
  predicate Authorized(c: Call, token: Option<Json>) {
    Lookup(c.headers, "Authorization")
      == if TruthyValue(token) then Some("Bearer " + ToJsString(token.value)) else None
  }

  /** Every call site passes no headers of its own, so only the token decides Authorization. */
  lemma IssuedCallAuthorized(endpoint: string, verb: Option<string>, body: Option<string>, token: Option<Json>)
    ensures Authorized(IssuedCall(endpoint, Options(verb, body, []), token), token)
    ensures Lookup(IssuedCall(endpoint, Options(verb, body, []), token).headers, "Content-Type") == Some("application/json")
  {
    RequestHeadersSpec([], token, "Authorization");
  }

  // ----- loadData -----

  /** Without a truthy token `loadData` does nothing and issues no request. */
  lemma LoadDataWithoutToken(s: AppState, currentAuth: Option<Json>, fetched: Result<(Json, Json)>)
    requires !TruthyValue(TokenOf(currentAuth))
    ensures LoadDataStep(s, currentAuth, fetched) == s
  {
  }

  /**
   * With a token, `loadData` issues GET /students and GET /events with the
   * bearer token, replaces both collections when the joined fetch succeeds
   * and neither otherwise, and leaves content loading off; the view, the
   * session, the editor, the submission flag and the notice stay.
   */
  lemma LoadDataWithToken(s: AppState, currentAuth: Option<Json>, fetched: Result<(Json, Json)>)
    requires TruthyValue(TokenOf(currentAuth))
    ensures var r := LoadDataStep(s, currentAuth, fetched);
      && r.log == s.log + ReloadCalls(TokenOf(currentAuth))
      && r.log[|s.log|].verb == "GET" && r.log[|s.log|].endpoint == "/students"
      && r.log[|s.log| + 1].verb == "GET" && r.log[|s.log| + 1].endpoint == "/events"
      && Authorized(r.log[|s.log|], TokenOf(currentAuth)) && Authorized(r.log[|s.log| + 1], TokenOf(currentAuth))
      && !r.status.contentLoading
      && (fetched.Ok? ==> r.content == Content(fetched.value.0, fetched.value.1) && r.status.error == "")
      && (fetched.Err? ==> r.content == s.content && r.status.error == fetched.message)
      && r.view == s.view && r.session == s.session && r.editor == s.editor
      && r.status.loading == s.status.loading && r.status.notice == s.status.notice
  {
    var token := TokenOf(currentAuth);
    IssuedCallAuthorized("/students", None, None, token);
    IssuedCallAuthorized("/events", None, None, token);
  }

  /** The joined fetch of a reload fails as soon as either fetch fails, with one of their messages. */
  lemma ReloadFailsIfEitherFails(reload: Reload)
    ensures Fetched(reload).Ok? <==> ResponseResult(reload.students).Ok? && ResponseResult(reload.events).Ok?
    ensures Fetched(reload).Ok? ==>
      Fetched(reload).value == (ResponseResult(reload.students).value, ResponseResult(reload.events).value)
    ensures Fetched(reload).Err? ==>
      || (ResponseResult(reload.students).Err? && Fetched(reload).message == ResponseResult(reload.students).message)
      || (ResponseResult(reload.events).Err? && Fetched(reload).message == ResponseResult(reload.events).message)
  {
  }

  // ----- the shared mutation shape -----

  /** The requests a mutation issues: its own call, then the reload's when it succeeded. */
  lemma MutationLog(s: AppState, call: Call, result: Result<Json>, reload: Option<Result<(Json, Json)>>, success: string)
    ensures Mutation(s, call, result, reload, success).log
         == s.log + [call]
            + (if result.Ok? && reload.Some? && TruthyValue(TokenOf(s.session.auth)) then ReloadCalls(TokenOf(s.session.auth)) else [])
  {
  }

  /**
   * A mutation that fails leaves everything but the messages, the flag and
   * the log alone and shows the error; one that succeeds shows its notice
   * even when the reload after it failed, in which case the reload's error
   * stays shown too. The view, the session and the editor never change.
   */
  lemma MutationOutcome(s: AppState, call: Call, result: Result<Json>, reload: Option<Result<(Json, Json)>>, success: string)
    ensures var r := Mutation(s, call, result, reload, success);
      && !r.status.loading
      && r.view == s.view && r.session == s.session && r.editor == s.editor
      && (result.Err? ==>
            r == s.(status := Status(false, s.status.contentLoading, result.message, ""), log := s.log + [call]))
      && (result.Ok? ==> r.status.notice == success)
      && (result.Ok? && reload.None? ==>
            r == s.(status := Status(false, s.status.contentLoading, "", success), log := s.log + [call]))
      && (result.Ok? && reload.Some? && TruthyValue(TokenOf(s.session.auth)) && reload.value.Err? ==>
            r.status.error == reload.value.message && r.content == s.content)
      && (result.Ok? && reload.Some? && TruthyValue(TokenOf(s.session.auth)) && reload.value.Ok? ==>
            r.status.error == "" && r.content == Content(reload.value.value.0, reload.value.value.1))
  {
  }

  // ----- create versus update -----

  /**
   * `handleStudentSubmit` sends the form as JSON: PATCH /students/{id} when
   * the editing id is truthy, POST /students otherwise.
   */
  lemma StudentSubmitRequest(s: AppState, env: Env, result: Result<Json>, fetched: Result<(Json, Json)>)
    ensures var r := StudentSubmitStep(s, env, result, fetched);
      && |r.log| > |s.log| && r.log[..|s.log|] == s.log
      && r.log[|s.log|].verb == (if TruthyValue(s.editor.editingStudentId) then "PATCH" else "POST")
      && r.log[|s.log|].endpoint
         == (if TruthyValue(s.editor.editingStudentId) then "/students/" + ToJsString(s.editor.editingStudentId.value) else "/students")
      && r.log[|s.log|].body == Some(env.stringify(JObj(s.editor.studentForm)))
      && Authorized(r.log[|s.log|], TokenOf(s.session.auth))
  {
    var target := SubmitTarget("/students", s.editor.editingStudentId);
    IssuedCallAuthorized(target.1, Some(target.0), FormBody(env, s.editor.studentForm), TokenOf(s.session.auth));
    MutationLog(s, StudentSubmitCall(s, env), result, Some(fetched), StudentSubmitNotice(s));
  }

  /**
   * On success the form is emptied, the editing id cleared and the create or
   * update notice shown; on failure the form, the editing id and the
   * collections stay and the error is shown. Loading is off either way.
   */
  lemma StudentSubmitOutcome(s: AppState, env: Env, result: Result<Json>, fetched: Result<(Json, Json)>)
    ensures var r := StudentSubmitStep(s, env, result, fetched);
      && !r.status.loading
      && (result.Ok? ==>
            && r.editor == s.editor.(studentForm := EmptyStudentForm, editingStudentId := None)
            && r.status.notice == (if TruthyValue(s.editor.editingStudentId) then StudentUpdatedNotice else StudentCreatedNotice))
      && (result.Err? ==>
            && r.editor == s.editor && r.content == s.content
            && r.status.error == result.message && r.status.notice == "")
  {
    MutationOutcome(s, StudentSubmitCall(s, env), result, Some(fetched), StudentSubmitNotice(s));
  }

  lemma EventSubmitRequest(s: AppState, env: Env, result: Result<Json>, fetched: Result<(Json, Json)>)
    ensures var r := EventSubmitStep(s, env, result, fetched);
      && |r.log| > |s.log| && r.log[..|s.log|] == s.log
      && r.log[|s.log|].verb == (if TruthyValue(s.editor.editingEventId) then "PATCH" else "POST")
      && r.log[|s.log|].endpoint
         == (if TruthyValue(s.editor.editingEventId) then "/events/" + ToJsString(s.editor.editingEventId.value) else "/events")
      && r.log[|s.log|].body == Some(env.stringify(JObj(s.editor.eventForm)))
      && Authorized(r.log[|s.log|], TokenOf(s.session.auth))
  {
    var target := SubmitTarget("/events", s.editor.editingEventId);
    IssuedCallAuthorized(target.1, Some(target.0), FormBody(env, s.editor.eventForm), TokenOf(s.session.auth));
    MutationLog(s, EventSubmitCall(s, env), result, Some(fetched), EventSubmitNotice(s));
  }

  lemma EventSubmitOutcome(s: AppState, env: Env, result: Result<Json>, fetched: Result<(Json, Json)>)
    ensures var r := EventSubmitStep(s, env, result, fetched);
      && !r.status.loading
      && (result.Ok? ==>
            && r.editor == s.editor.(eventForm := EmptyEventForm, editingEventId := None)
            && r.status.notice == (if TruthyValue(s.editor.editingEventId) then EventUpdatedNotice else EventCreatedNotice))
      && (result.Err? ==>
            && r.editor == s.editor && r.content == s.content
            && r.status.error == result.message && r.status.notice == "")
  {
    MutationOutcome(s, EventSubmitCall(s, env), result, Some(fetched), EventSubmitNotice(s));
  }

  /**
   * `loadData` swallows its error: a saved student followed by a failed
   * reload shows both the reload's error and the success notice, and the
   * form is reset.
   */
  lemma SavedThenReloadFailed(s: AppState, env: Env, result: Result<Json>, fetched: Result<(Json, Json)>)
    requires result.Ok? && TruthyValue(TokenOf(s.session.auth)) && fetched.Err?
    ensures var r := StudentSubmitStep(s, env, result, fetched);
      && r.status.error == fetched.message
      && r.status.notice == (if TruthyValue(s.editor.editingStudentId) then StudentUpdatedNotice else StudentCreatedNotice)
      && r.editor.studentForm == EmptyStudentForm && r.editor.editingStudentId == None
      && r.content == s.content
  {
    MutationOutcome(s, StudentSubmitCall(s, env), result, Some(fetched), StudentSubmitNotice(s));
  }

  /** The editing id is tested for truthiness: a record whose id is 0 is created anew, not updated. */
  lemma ZeroIdIsCreated(s: AppState, env: Env, result: Result<Json>, fetched: Result<(Json, Json)>)
    requires s.editor.editingStudentId == Some(JNum(0))
    ensures var r := StudentSubmitStep(s, env, result, fetched);
      r.log[|s.log|].verb == "POST" && r.log[|s.log|].endpoint == "/students"
  {
    StudentSubmitRequest(s, env, result, fetched);
  }

  // ----- edit mode -----

  /** Each field of a pre-filled student form is the record's field, `''` when null or missing. */
  lemma StudentFormFields(student: Json)
    ensures StudentFormOf(student).Keys == EmptyStudentForm.Keys
    ensures forall k :: k in StudentFormOf(student) ==> StudentFormOf(student)[k] == Coalesce(Field(student, k), JStr(""))
  {
  }

  /**
   * `startEditStudent` sets the editing id to the record's id, fills each
   * form field from the record (`''` when null or missing) and shows the
   * students tab; nothing else changes.
   */
  lemma StartEditStudentPrefills(s: AppState, student: Json)
    requires !student.JNull?
    ensures var r := StartEditStudentStep(s, student);
      && r.editor == s.editor.(editingStudentId := Field(student, "id"), studentForm := StudentFormOf(student))
      && r.editor.studentForm.Keys == EmptyStudentForm.Keys
      && (forall k :: k in r.editor.studentForm ==> r.editor.studentForm[k] == Coalesce(Field(student, k), JStr("")))
      && r.view == s.view.(activeTab := StudentsTab)
      && r.(view := s.view, editor := s.editor) == s
  {
    StudentFormFields(student);
  }

  /** Each field of a pre-filled event form but the date is the record's field, `''` when null or missing. */
  lemma EventFormFields(eventItem: Json, dateText: string)
    ensures EventFormOf(eventItem, dateText).Keys == EmptyEventForm.Keys
    ensures forall k :: k in EventFormOf(eventItem, dateText) && k != "date" ==>
              EventFormOf(eventItem, dateText)[k] == Coalesce(Field(eventItem, k), JStr(""))
    ensures EventFormOf(eventItem, dateText)["date"] == JStr(dateText)
  {
  }

  /** `startEditEvent`: as for students, with the date cut to the minute, and the events tab. */
  lemma StartEditEventPrefills(s: AppState, env: Env, eventItem: Json)
    requires !eventItem.JNull?
    requires !TruthyValue(Field(eventItem, "date")) || env.isoString(Field(eventItem, "date").value).Some?
    ensures var r := StartEditEventStep(s, env, eventItem);
      var date := Field(eventItem, "date");
      var dateText := if TruthyValue(date) then Minutes(env.isoString(date.value).value) else "";
      && r.editor == s.editor.(editingEventId := Field(eventItem, "id"), eventForm := EventFormOf(eventItem, dateText))
      && r.editor.eventForm.Keys == EmptyEventForm.Keys
      && (forall k :: k in r.editor.eventForm && k != "date" ==> r.editor.eventForm[k] == Coalesce(Field(eventItem, k), JStr("")))
      && r.editor.eventForm["date"] == JStr(dateText)
      && r.view == s.view.(activeTab := EventsTab)
      && r.(view := s.view, editor := s.editor) == s
  {
    var date := Field(eventItem, "date");
    EventFormFields(eventItem, if TruthyValue(date) then Minutes(env.isoString(date.value).value) else "");
  }

  /** A date `toISOString` rejects stops `startEditEvent` after it set the editing id. */
  lemma StartEditEventBadDate(s: AppState, env: Env, eventItem: Json)
    requires !eventItem.JNull?
    requires TruthyValue(Field(eventItem, "date")) && env.isoString(Field(eventItem, "date").value).None?
    ensures StartEditEventStep(s, env, eventItem) == s.(editor := s.editor.(editingEventId := Field(eventItem, "id")))
  {
  }

  /** The date shown for editing is at most 16 characters and a prefix of the ISO text. */
  lemma MinutesIsPrefix(iso: string)
    ensures |Minutes(iso)| <= 16 && Minutes(iso) <= iso
    ensures |iso| >= 16 ==> |Minutes(iso)| == 16
  {
  }

  /** Cancelling an edit returns to the idle state: no id, empty form; nothing else changes. */
  lemma CancelEditIsIdle(s: AppState)
    ensures CancelStudentEditStep(s).editor.editingStudentId == None
    ensures CancelStudentEditStep(s).editor.studentForm == EmptyStudentForm
    ensures CancelEventEditStep(s).editor.editingEventId == None
    ensures CancelEventEditStep(s).editor.eventForm == EmptyEventForm
    ensures CancelStudentEditStep(s).(editor := s.editor) == s
    ensures CancelEventEditStep(s).(editor := s.editor) == s
    ensures CancelStudentEditStep(s).editor.(editingStudentId := s.editor.editingStudentId, studentForm := s.editor.studentForm) == s.editor
    ensures CancelEventEditStep(s).editor.(editingEventId := s.editor.editingEventId, eventForm := s.editor.eventForm) == s.editor
  {
  }

  /**
   * Editing a record with a truthy id and submitting updates that record:
   * PATCH /students/{id} with the pre-filled form, and on success back to idle.
   */
  lemma EditThenSubmitUpdates(s: AppState, env: Env, student: Json, result: Result<Json>, fetched: Result<(Json, Json)>)
    requires !student.JNull? && TruthyValue(Field(student, "id"))
    ensures var edited := StartEditStudentStep(s, student);
      var r := StudentSubmitStep(edited, env, result, fetched);
      && r.log[|s.log|].verb == "PATCH"
      && r.log[|s.log|].endpoint == "/students/" + ToJsString(Field(student, "id").value)
      && r.log[|s.log|].body == Some(env.stringify(JObj(StudentFormOf(student))))
      && (result.Ok? ==>
            && r.editor.editingStudentId == None && r.editor.studentForm == EmptyStudentForm
            && r.status.notice == StudentUpdatedNotice)
  {
    var edited := StartEditStudentStep(s, student);
    assert edited.editor.editingStudentId == Field(student, "id") && edited.editor.studentForm == StudentFormOf(student);
    assert edited.log == s.log;
    StudentSubmitRequest(edited, env, result, fetched);
    StudentSubmitOutcome(edited, env, result, fetched);
  }

  /** The numeric case: editing student 5 patches /students/5. */
  lemma EditStudentFiveExample(s: AppState, env: Env, student: Json, result: Result<Json>, fetched: Result<(Json, Json)>)
    requires !student.JNull? && Field(student, "id") == Some(JNum(5))
    ensures StudentSubmitStep(StartEditStudentStep(s, student), env, result, fetched).log[|s.log|].endpoint
         == "/students/5"
  {
    EditThenSubmitUpdates(s, env, student, result, fetched);
    assert ToJsString(JNum(5)) == "5";
  }

  // ----- delete and cancel -----

  lemma DeleteStudentRequest(s: AppState, studentId: Option<Json>, result: Result<Json>, fetched: Result<(Json, Json)>)
    ensures var r := DeleteStudentStep(s, studentId, result, fetched);
      && r.log[..|s.log|] == s.log
      && r.log[|s.log|] == Call("DELETE", "/students/" + ToJsStringOpt(studentId), None, RequestHeaders([], TokenOf(s.session.auth)))
      && Authorized(r.log[|s.log|], TokenOf(s.session.auth))
  {
    IssuedCallAuthorized("/students/" + ToJsStringOpt(studentId), Some("DELETE"), None, TokenOf(s.session.auth));
    MutationLog(s, DeleteCall(s, studentId), result, Some(fetched), StudentDeletedNotice);
  }

  /** `cancelEvent` issues its PATCH whatever the event's status: the guard lives only in the disabled button. */
  lemma CancelEventRequest(s: AppState, eventId: Option<Json>, result: Result<Json>, fetched: Result<(Json, Json)>)
    ensures var r := CancelEventStep(s, eventId, result, fetched);
      && r.log[..|s.log|] == s.log
      && r.log[|s.log|] == Call("PATCH", "/events/" + ToJsStringOpt(eventId) + "/cancel", None, RequestHeaders([], TokenOf(s.session.auth)))
      && Authorized(r.log[|s.log|], TokenOf(s.session.auth))
  {
    IssuedCallAuthorized("/events/" + ToJsStringOpt(eventId) + "/cancel", Some("PATCH"), None, TokenOf(s.session.auth));
    MutationLog(s, CancelCall(s, eventId), result, Some(fetched), EventCanceledNotice);
  }

  // ----- subscriptions -----

  /** Without a selected student nothing is sent; only the error changes. */
  lemma SubscribeWithoutSelection(s: AppState, eventId: Option<Json>, result: Result<Json>)
    requires !HasSelection(s, eventId)
    ensures SubscribeStep(s, eventId, result) == s.(status := s.status.(error := SelectForSubscribeError))
    ensures UnsubscribeStep(s, eventId, result) == s.(status := s.status.(error := SelectForUnsubscribeError))
  {
  }

  /**
   * With a selected student the pair is addressed by event and student id;
   * no reload follows, and neither the collections nor the selection change.
   */
  lemma SubscribeWithSelection(s: AppState, eventId: Option<Json>, result: Result<Json>)
    requires HasSelection(s, eventId)
    ensures var key := ToJsStringOpt(eventId);
      var r := SubscribeStep(s, eventId, result);
      && r.log == s.log + [Call("POST", "/events/" + key + "/subscribe/" + s.editor.selection[key], None, RequestHeaders([], TokenOf(s.session.auth)))]
      && r.content == s.content && r.editor == s.editor && !r.status.loading
      && r.status.notice == (if result.Ok? then SubscribedNotice else "")
      && r.status.error == (if result.Ok? then "" else result.message)
    ensures var key := ToJsStringOpt(eventId);
      var r := UnsubscribeStep(s, eventId, result);
      && r.log == s.log + [Call("DELETE", "/events/" + key + "/unsubscribe/" + s.editor.selection[key], None, RequestHeaders([], TokenOf(s.session.auth)))]
      && r.content == s.content && r.editor == s.editor && !r.status.loading
      && r.status.notice == (if result.Ok? then UnsubscribedNotice else "")
      && r.status.error == (if result.Ok? then "" else result.message)
  {
  }

  /** The picker of one event sets that event's entry and changes nothing else. */
  lemma SelectStudentIsLocal(s: AppState, eventId: Option<Json>, studentId: string, other: string)
    requires other != ToJsStringOpt(eventId)
    ensures var r := SelectStudentStep(s, eventId, studentId);
      && r.editor.selection[ToJsStringOpt(eventId)] == studentId
      && (other in r.editor.selection <==> other in s.editor.selection)
      && (other in s.editor.selection ==> r.editor.selection[other] == s.editor.selection[other])
      && r.editor.(selection := s.editor.selection) == s.editor
      && r.(editor := s.editor) == s
  {
  }

  // ----- session -----

  /**
   * `logout` forgets the session in memory and in storage and returns every
   * view value to its default, leaving mode, credentials, loading flags and
   * the request log untouched.
   */
  lemma LogoutResets(s: AppState)
    ensures var r := LogoutStep(s);
      && r.session.auth == None && r.session.stored == None
      && r.content.students == JArr([]) && r.content.events == JArr([])
      && r.editor.studentForm == EmptyStudentForm && r.editor.eventForm == EmptyEventForm
      && r.editor.editingStudentId == None && r.editor.editingEventId == None
      && r.editor.selection == map[] && r.view.activeTab == EventsTab
      && r.status.error == "" && r.status.notice == ""
      && r.view.mode == s.view.mode && r.view.loginData == s.view.loginData && r.view.registerData == s.view.registerData
      && r.status.loading == s.status.loading && r.status.contentLoading == s.status.contentLoading && r.log == s.log
  {
  }

  lemma LogoutIdempotent(s: AppState)
    ensures LogoutStep(LogoutStep(s)) == LogoutStep(s)
  {
  }

  /**
   * A successful login stores `{token, user}` in memory and in storage:
   * when the stored text parses back, restoring it gives the same session
   * exactly when token and user are truthy.
   */
  lemma LoginEstablishesSession(s: AppState, env: Env, result: Result<Json>)
    requires WellFormed(s) && s.view.mode == Login
    requires result.Ok? && !result.value.JNull?
    requires env.stringify(NextAuth(result.value)) != ""
    requires env.parse(env.stringify(NextAuth(result.value))) == Some(NextAuth(result.value))
    ensures var r := SubmitStep(s, env, result);
      && r.session == SessionState(Some(NextAuth(result.value)), Some(env.stringify(NextAuth(result.value))))
      && (SavedAuth(r.session.stored, env.parse) == r.session.auth
          <==> (TruthyValue(Field(result.value, "token")) && TruthyValue(Field(result.value, "user"))))
      && !r.status.loading && r.status.error == "" && r.status.notice == ""
      && r.view == s.view && r.content == s.content && r.editor == s.editor
  {
    RestoreAfterLogin(result.value, env.stringify(NextAuth(result.value)), env.parse);
  }

  /** The credentials go to /auth/login or /auth/register as JSON, without a token. */
  lemma SubmitRequest(s: AppState, env: Env, result: Result<Json>)
    requires WellFormed(s)
    ensures var r := SubmitStep(s, env, result);
      && |r.log| == |s.log| + 1 && r.log[..|s.log|] == s.log
      && r.log[|s.log|].verb == "POST"
      && r.log[|s.log|].endpoint == (if s.view.mode == Login then "/auth/login" else "/auth/register")
      && r.log[|s.log|].body == CredentialsBody(env, if s.view.mode == Login then s.view.loginData else s.view.registerData)
      && Authorized(r.log[|s.log|], None)
  {
    IssuedCallAuthorized(SubmitEndpoint(s.view.mode), Some("POST"), CredentialsBody(env, ActiveForm(s.view)), None);
  }

  /** A registration switches to the login form with the new email and an empty password. */
  lemma RegisterReturnsToLogin(s: AppState, env: Env, result: Result<Json>)
    requires WellFormed(s) && s.view.mode == Register && result.Ok?
    ensures var r := SubmitStep(s, env, result);
      && r.view.mode == Login && r.status.notice == AccountCreatedNotice && r.status.error == ""
      && r.view.loginData["email"] == s.view.registerData["email"] && r.view.loginData["password"] == ""
      && r.view.registerData == s.view.registerData
      && r.session == s.session && !r.status.loading
  {
  }

  /** A failed submit, or a login answered by a non-JSON body, keeps the session and the mode as they were. */
  lemma SubmitFailureKeepsSession(s: AppState, env: Env, result: Result<Json>)
    requires WellFormed(s)
    requires result.Err? || (s.view.mode == Login && result.value.JNull?)
    ensures var r := SubmitStep(s, env, result);
      && r.session == s.session && r.view == s.view && !r.status.loading && r.status.notice == ""
      && r.status.error == (if result.Err? then result.message else env.nullReadMessage)
  {
  }

  // ----- invariants of every command -----

  /** The joined fetch a command may have installed, when it reloads. */
  function ReloadOf(cmd: Command): Option<Result<(Json, Json)>> {
    match cmd
    case Load(fetched) => Some(fetched)
    case SubmitStudent(_, fetched) => Some(fetched)
    case SubmitEvent(_, fetched) => Some(fetched)
    case DeleteStudent(_, _, fetched) => Some(fetched)
    case CancelEvent(_, _, fetched) => Some(fetched)
    case _ => None
  }

  /** The token a command's requests carry: none for the credentials form, the session's otherwise. */
  function TokenFor(s: AppState, cmd: Command): Option<Json> {
    if cmd.SubmitCredentials? then None else TokenOf(s.session.auth)
  }

  /** `now` extends `before`, and every request added carries `token` as its bearer credential. */
  predicate LogExtends(before: seq<Call>, now: seq<Call>, token: Option<Json>) {
    && |now| >= |before| && now[..|before|] == before
    && forall i :: |before| <= i < |now| ==> Authorized(now[i], token)
  }

  /** Appending authorized calls extends the log. */
  lemma LogExtendsBy(before: seq<Call>, added: seq<Call>, token: Option<Json>)
    requires forall c :: c in added ==> Authorized(c, token)
    ensures LogExtends(before, before + added, token)
  {
    assert (before + added)[..|before|] == before;
    forall i | |before| <= i < |before + added| ensures Authorized((before + added)[i], token) {
      assert (before + added)[i] == added[i - |before|];
    }
  }

  /** The calls a reload adds carry the token. */
  lemma LoadDataCalls(s: AppState, currentAuth: Option<Json>, fetched: Result<(Json, Json)>)
    ensures LogExtends(s.log, LoadDataStep(s, currentAuth, fetched).log, TokenOf(currentAuth))
  {
    var token := TokenOf(currentAuth);
    if TruthyValue(token) {
      IssuedCallAuthorized("/students", None, None, token);
      IssuedCallAuthorized("/events", None, None, token);
      LogExtendsBy(s.log, ReloadCalls(token), token);
    } else {
      LogExtendsBy(s.log, [], token);
      assert s.log + [] == s.log;
    }
  }

  /** The calls a mutation adds, its own and its reload's, carry the token. */
  lemma MutationCalls(s: AppState, c: Call, result: Result<Json>, reload: Option<Result<(Json, Json)>>, success: string)
    requires Authorized(c, TokenOf(s.session.auth))
    ensures var r := Mutation(s, c, result, reload, success);
      |r.log| > |s.log| && LogExtends(s.log, r.log, TokenOf(s.session.auth))
  {
    var token := TokenOf(s.session.auth);
    IssuedCallAuthorized("/students", None, None, token);
    IssuedCallAuthorized("/events", None, None, token);
    MutationLog(s, c, result, reload, success);
    var added := [c] + (if result.Ok? && reload.Some? && TruthyValue(token) then ReloadCalls(token) else []);
    LogExtendsBy(s.log, added, token);
  }

  /**
   * The log only grows, and every request a command adds carries the
   * session's bearer token exactly when that token is truthy; the login and
   * register requests carry none.
   */
  lemma ApplyRequestsCarrySession(s: AppState, env: Env, cmd: Command)
    requires WellFormed(s)
    ensures var r := Apply(s, env, cmd);
      && |r.log| >= |s.log| && r.log[..|s.log|] == s.log
      && forall i :: |s.log| <= i < |r.log| ==> Authorized(r.log[i], TokenFor(s, cmd))
  {
    ApplyKeepsInvariants(s, env, cmd);
  }

  /** What `loadData` may touch: the collections, the error, content loading and the log. */
  lemma LoadDataFrame(s: AppState, currentAuth: Option<Json>, fetched: Result<(Json, Json)>)
    ensures var r := LoadDataStep(s, currentAuth, fetched);
      && (r.content == s.content || fetched == Ok((r.content.students, r.content.events)))
      && r.view == s.view && r.session == s.session && r.editor == s.editor
      && r.status.loading == s.status.loading && (r.status.contentLoading ==> s.status.contentLoading)
  {
  }

  /** A mutation leaves the collections alone or installs exactly what its reload fetched. */
  lemma MutationCollections(s: AppState, c: Call, result: Result<Json>, reload: Option<Result<(Json, Json)>>, success: string)
    ensures var r := Mutation(s, c, result, reload, success);
      && (r.content == s.content || (reload.Some? && reload.value == Ok((r.content.students, r.content.events))))
      && r.view == s.view && r.session == s.session && r.editor == s.editor
      && !r.status.loading && (r.status.contentLoading ==> s.status.contentLoading)
  {
    if result.Ok? && reload.Some? {
      LoadDataFrame(Begun(s, c), s.session.auth, reload.value);
    }
  }

  /**
   * What a command may change beyond its own fields: the collections only
   * as the installed pair of a reload or by logout, the session only by
   * logout or a login, and no loading flag that was not already raised.
   */
  predicate Framed(s: AppState, r: AppState, cmd: Command) {
    && (|| r.content == s.content
        || (cmd.LogOut? && r.content == Content(JArr([]), JArr([])))
        || (ReloadOf(cmd).Some? && ReloadOf(cmd).value == Ok((r.content.students, r.content.events))))
    && (r.session != s.session ==> cmd.LogOut? || (cmd.SubmitCredentials? && s.view.mode == Login))
    && (r.status.loading ==> s.status.loading)
    && (r.status.contentLoading ==> s.status.contentLoading)
    && r.view.registerData.Keys >= s.view.registerData.Keys
    && LogExtends(s.log, r.log, TokenFor(s, cmd))
  }

  /** A mutation that issues `c` with the session's token, and maybe reloads `reload`, stays within the frame of `cmd`. */
  lemma MutationFramed(s: AppState, c: Call, result: Result<Json>, reload: Option<Result<(Json, Json)>>, success: string, cmd: Command)
    requires Authorized(c, TokenOf(s.session.auth))
    requires !cmd.SubmitCredentials? && (reload.Some? ==> ReloadOf(cmd) == reload)
    ensures Framed(s, Mutation(s, c, result, reload, success), cmd)
  {
    MutationCalls(s, c, result, reload, success);
    MutationCollections(s, c, result, reload, success);
  }

  /** Clearing the form and the editing id after a saved submit leaves the frame as it was. */
  lemma EditorResetFramed(s: AppState, r: AppState, e: Editor, cmd: Command)
    requires Framed(s, r, cmd)
    ensures Framed(s, r.(editor := e), cmd)
  {
  }

  lemma StudentSubmitFramed(s: AppState, env: Env, result: Result<Json>, fetched: Result<(Json, Json)>)
    ensures Framed(s, StudentSubmitStep(s, env, result, fetched), SubmitStudent(result, fetched))
  {
    var target := SubmitTarget("/students", s.editor.editingStudentId);
    IssuedCallAuthorized(target.1, Some(target.0), FormBody(env, s.editor.studentForm), TokenOf(s.session.auth));
    var after := Mutation(s, StudentSubmitCall(s, env), result, Some(fetched), StudentSubmitNotice(s));
    MutationFramed(s, StudentSubmitCall(s, env), result, Some(fetched), StudentSubmitNotice(s), SubmitStudent(result, fetched));
    EditorResetFramed(s, after, after.editor.(studentForm := EmptyStudentForm, editingStudentId := None), SubmitStudent(result, fetched));
  }

  lemma EventSubmitFramed(s: AppState, env: Env, result: Result<Json>, fetched: Result<(Json, Json)>)
    ensures Framed(s, EventSubmitStep(s, env, result, fetched), SubmitEvent(result, fetched))
  {
    var target := SubmitTarget("/events", s.editor.editingEventId);
    IssuedCallAuthorized(target.1, Some(target.0), FormBody(env, s.editor.eventForm), TokenOf(s.session.auth));
    var after := Mutation(s, EventSubmitCall(s, env), result, Some(fetched), EventSubmitNotice(s));
    MutationFramed(s, EventSubmitCall(s, env), result, Some(fetched), EventSubmitNotice(s), SubmitEvent(result, fetched));
    EditorResetFramed(s, after, after.editor.(eventForm := EmptyEventForm, editingEventId := None), SubmitEvent(result, fetched));
  }

  lemma DeleteStudentFramed(s: AppState, id: Option<Json>, result: Result<Json>, fetched: Result<(Json, Json)>)
    ensures Framed(s, DeleteStudentStep(s, id, result, fetched), DeleteStudent(id, result, fetched))
  {
    IssuedCallAuthorized("/students/" + ToJsStringOpt(id), Some("DELETE"), None, TokenOf(s.session.auth));
    MutationFramed(s, DeleteCall(s, id), result, Some(fetched), StudentDeletedNotice, DeleteStudent(id, result, fetched));
  }

  lemma CancelEventFramed(s: AppState, id: Option<Json>, result: Result<Json>, fetched: Result<(Json, Json)>)
    ensures Framed(s, CancelEventStep(s, id, result, fetched), CancelEvent(id, result, fetched))
  {
    IssuedCallAuthorized("/events/" + ToJsStringOpt(id) + "/cancel", Some("PATCH"), None, TokenOf(s.session.auth));
    MutationFramed(s, CancelCall(s, id), result, Some(fetched), EventCanceledNotice, CancelEvent(id, result, fetched));
  }

  lemma SubscriptionFramed(s: AppState, id: Option<Json>, result: Result<Json>)
    ensures Framed(s, SubscribeStep(s, id, result), Subscribe(id, result))
    ensures Framed(s, UnsubscribeStep(s, id, result), Unsubscribe(id, result))
  {
    if HasSelection(s, id) {
      var key := ToJsStringOpt(id);
      IssuedCallAuthorized("/events/" + key + "/subscribe/" + s.editor.selection[key], Some("POST"), None, TokenOf(s.session.auth));
      IssuedCallAuthorized("/events/" + key + "/unsubscribe/" + s.editor.selection[key], Some("DELETE"), None, TokenOf(s.session.auth));
      MutationFramed(s, SubscriptionCall(s, id, "POST", "/subscribe/"), result, None, SubscribedNotice, Subscribe(id, result));
      MutationFramed(s, SubscriptionCall(s, id, "DELETE", "/unsubscribe/"), result, None, UnsubscribedNotice, Unsubscribe(id, result));
    } else {
      LogExtendsBy(s.log, [], TokenOf(s.session.auth));
      assert s.log + [] == s.log;
    }
  }

  lemma LoadFramed(s: AppState, fetched: Result<(Json, Json)>)
    ensures Framed(s, LoadDataStep(s, s.session.auth, fetched), Load(fetched))
  {
    LoadDataCalls(s, s.session.auth, fetched);
    LoadDataFrame(s, s.session.auth, fetched);
  }

  /** The credentials request carries no token, and only a login touches the session. */
  lemma SubmitFramed(s: AppState, env: Env, result: Result<Json>)
    requires WellFormed(s)
    ensures WellFormed(SubmitStep(s, env, result))
    ensures Framed(s, SubmitStep(s, env, result), SubmitCredentials(result))
  {
    IssuedCallAuthorized(SubmitEndpoint(s.view.mode), Some("POST"), CredentialsBody(env, ActiveForm(s.view)), None);
    LogExtendsBy(s.log, [SubmitCall(s.view, env)], None);
  }

  /** A state that differs from `s` only in its view, its editor or its messages stays within any frame. */
  lemma LocalEditFramed(s: AppState, r: AppState, cmd: Command)
    requires r.session == s.session && r.content == s.content && r.log == s.log
    requires r.status.loading == s.status.loading && r.status.contentLoading == s.status.contentLoading
    requires r.view.registerData.Keys >= s.view.registerData.Keys
    ensures Framed(s, r, cmd)
  {
    LogExtendsBy(s.log, [], TokenFor(s, cmd));
    assert s.log + [] == s.log;
  }

  lemma LogoutFramed(s: AppState)
    ensures Framed(s, LogoutStep(s), LogOut)
  {
    LogExtendsBy(s.log, [], TokenFor(s, LogOut));
    assert s.log + [] == s.log;
  }

  /** Commands that only edit the view: forms, mode, tab, edit mode and the student pickers. */
  predicate IsLocal(cmd: Command) {
    || cmd.EditCredential? || cmd.SwitchMode? || cmd.SelectTab? || cmd.EditStudentField? || cmd.EditEventField?
    || cmd.StartEditStudent? || cmd.StartEditEvent? || cmd.CancelStudentEdit? || cmd.CancelEventEdit? || cmd.SelectStudent?
  }

  /** A local command changes only the view, the editor and the messages, and keeps the register form's keys. */
  lemma LocalIsLocal(s: AppState, env: Env, cmd: Command)
    requires WellFormed(s) && IsLocal(cmd)
    ensures var r := Apply(s, env, cmd);
      && r.session == s.session && r.content == s.content && r.log == s.log
      && r.status.loading == s.status.loading && r.status.contentLoading == s.status.contentLoading
      && r.view.registerData.Keys >= s.view.registerData.Keys
  {
  }

  lemma LocalFramed(s: AppState, env: Env, cmd: Command)
    requires WellFormed(s) && IsLocal(cmd)
    ensures Framed(s, Apply(s, env, cmd), cmd)
  {
    LocalIsLocal(s, env, cmd);
    LocalEditFramed(s, Apply(s, env, cmd), cmd);
  }

  lemma RemoteFramed(s: AppState, env: Env, cmd: Command)
    requires WellFormed(s) && !IsLocal(cmd)
    ensures Framed(s, Apply(s, env, cmd), cmd)
  {
    match cmd {
      case Load(fetched) => LoadFramed(s, fetched);
      case SubmitStudent(result, fetched) => StudentSubmitFramed(s, env, result, fetched);
      case SubmitEvent(result, fetched) => EventSubmitFramed(s, env, result, fetched);
      case DeleteStudent(id, result, fetched) => DeleteStudentFramed(s, id, result, fetched);
      case CancelEvent(id, result, fetched) => CancelEventFramed(s, id, result, fetched);
      case Subscribe(id, result) => SubscriptionFramed(s, id, result);
      case Unsubscribe(id, result) => SubscriptionFramed(s, id, result);
      case SubmitCredentials(result) => SubmitFramed(s, env, result);
      case LogOut => LogoutFramed(s);
    }
  }

  /**
   * Every command keeps the register form's email and stays within its
   * frame: the collections are unchanged, emptied by logout, or exactly the
   * pair a successful reload fetched; only a login and a logout touch the
   * session, in memory or in storage; no loading flag is left raised that
   * was not raised before; the log only grows, by requests that carry the
   * token.
   */
  lemma ApplyKeepsInvariants(s: AppState, env: Env, cmd: Command)
    requires WellFormed(s)
    ensures WellFormed(Apply(s, env, cmd))
    ensures Framed(s, Apply(s, env, cmd), cmd)
  {
    if IsLocal(cmd) {
      LocalFramed(s, env, cmd);
    } else {
      RemoteFramed(s, env, cmd);
    }
  }
}
