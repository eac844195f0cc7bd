/**
 * The state of the `App` component and what each of its handlers does to it,
 * as functions from the state before to the state after. How each request
 * settled is an input; every request a handler issues is appended to `log`.
 */
module AppModel {
  import opened Wrappers
  import opened Js
  import opened Api
  import opened Session

  /** The browser facilities the model leaves uninterpreted. */
  datatype Env = Env(
    parse: string -> Option<Json>,      // JSON.parse; None when it throws
    stringify: Json -> string,          // JSON.stringify
    isoString: Json -> Option<string>,  // new Date(v).toISOString(); None when it throws
    nullReadMessage: string)            // message of the TypeError raised by reading a property of null

  datatype Mode = Login | Register

  datatype Tab = EventsTab | StudentsTab

  /** What the login screen and the navigation show: the mode, the tab and the two credential forms. */
  datatype View = View(
    mode: Mode,
    activeTab: Tab,
    loginData: map<string, string>,
    registerData: map<string, string>)

  /** The two progress flags and the two messages. */
  datatype Status = Status(
    loading: bool,
    contentLoading: bool,
    error: string,
    notice: string)

  /** The session: in memory (`auth`) and in storage (`stored`, the `devops.auth` entry). */
  datatype SessionState = SessionState(
    auth: Option<Json>,
    stored: Option<string>)

  /** The two collections shown once logged in. */
  datatype Content = Content(
    students: Json,
    events: Json)

  /** The entity forms, the edit mode of each, and the student picked on each event card. */
  datatype Editor = Editor(
    studentForm: map<string, Json>,
    eventForm: map<string, Json>,
    editingStudentId: Option<Json>,
    editingEventId: Option<Json>,
    selection: map<string, string>)

  /** Every state field of the component, the stored session and the request log. */
  datatype AppState = AppState(
    view: View,
    status: Status,
    session: SessionState,
    content: Content,
    editor: Editor,
    log: seq<Call>)

  const EmptyStudentForm: map<string, Json> :=
    map["firstName" := JStr(""), "lastName" := JStr(""), "email" := JStr("")]
  const EmptyEventForm: map<string, Json> :=
    map["title" := JStr(""), "description" := JStr(""), "date" := JStr(""), "location" := JStr("")]

  const AccountCreatedNotice := "Compte cree. Tu peux maintenant te connecter."
  const StudentUpdatedNotice := "Etudiant mis a jour."
  const StudentCreatedNotice := "Etudiant cree avec succes."
  const EventUpdatedNotice := "Evenement mis a jour."
  const EventCreatedNotice := "Evenement cree avec succes."
  const StudentDeletedNotice := "Etudiant supprime."
  const EventCanceledNotice := "Evenement annule."
  const SubscribedNotice := "Inscription effectuee."
  const UnsubscribedNotice := "Desinscription effectuee."
  const SelectForSubscribeError := "Selectionne un etudiant pour l inscription."
  const SelectForUnsubscribeError := "Selectionne un etudiant pour la desinscription."

  /** The register form always has an `email` entry, which a registration copies. */
  predicate WellFormed(s: AppState) {
    "email" in s.view.registerData
  }

  /** The editor with both forms empty, nothing being edited and no student picked. */
  const IdleEditor := Editor(EmptyStudentForm, EmptyEventForm, None, None, map[])

  /** The state on first render; the session comes from storage. */
  function Initial(env: Env, stored: Option<string>): (r: AppState)
    ensures WellFormed(r) && r.log == [] && !r.status.loading && !r.status.contentLoading
    ensures r.session.auth.Some? ==> r.session.stored.Some? && env.parse(r.session.stored.value) == r.session.auth
  {
    AppState(
      View(Login, EventsTab, map["email" := "", "password" := ""], map["name" := "", "email" := "", "password" := ""]),
      Status(false, false, "", ""),
      SessionState(SavedAuth(stored, env.parse), stored),
      Content(JArr([]), JArr([])),
      IdleEditor,
      [])
  }

  /** `auth?.token` */
  function TokenOf(auth: Option<Json>): Option<Json> {
    if auth.None? then None else Field(auth.value, "token")
  }

  /** `JSON.stringify(form)` for an entity form and for the login/register form. */
  function FormBody(env: Env, form: map<string, Json>): Option<string> {
    Some(env.stringify(JObj(form)))
  }

  function CredentialsBody(env: Env, form: map<string, string>): Option<string> {
    Some(env.stringify(JObj(map k | k in form :: JStr(form[k]))))
  }

  /** The options `loadData` passes: none, so a GET without body. */
  const NoOptions := Options(None, None, [])

  /** The outcomes of the two fetches of a reload, and which rejection comes first when both fail. */
  datatype Reload = Reload(students: HttpOutcome, events: HttpOutcome, eventsRejectsFirst: bool)

  /** `Promise.all([a, b])`: fulfilled when both are, otherwise rejected with the first rejection. */
  function JoinAll(a: Result<Json>, b: Result<Json>, bRejectsFirst: bool): (r: Result<(Json, Json)>)
    ensures r.Ok? <==> a.Ok? && b.Ok?
    ensures r.Ok? ==> r.value == (a.value, b.value)
    ensures a.Err? && (b.Ok? || !bRejectsFirst) ==> r == Err(a.message)
    ensures b.Err? && (a.Ok? || bRejectsFirst) ==> r == Err(b.message)
  {
    if a.Ok? && b.Ok? then Ok((a.value, b.value))
    else if a.Err? && (b.Ok? || !bRejectsFirst) then Err(a.message)
    else Err(b.message)
  }

  function Fetched(reload: Reload): Result<(Json, Json)> {
    JoinAll(ResponseResult(reload.students), ResponseResult(reload.events), reload.eventsRejectsFirst)
  }

  /** The two requests a reload issues, in the order they are made. */
  function ReloadCalls(token: Option<Json>): seq<Call> {
    [IssuedCall("/students", NoOptions, token), IssuedCall("/events", NoOptions, token)]
  }

  /**
   * `loadData(currentAuth)`, given how the joined fetch settled; the content
   * loading flag it raises meanwhile is down again at the end.
   */
  function LoadDataStep(s: AppState, currentAuth: Option<Json>, fetched: Result<(Json, Json)>): (r: AppState)
    ensures r.view == s.view && r.session == s.session && r.editor == s.editor
    ensures r.status.loading == s.status.loading && r.status.notice == s.status.notice
    ensures s.log <= r.log
  {
    var token := TokenOf(currentAuth);
    if !TruthyValue(token) then s
    else
      var logged := s.log + ReloadCalls(token);
      match fetched
      case Ok(both) =>
        s.(status := s.status.(error := "", contentLoading := false), content := Content(both.0, both.1), log := logged)
      case Err(m) =>
        s.(status := s.status.(error := m, contentLoading := false), log := logged)
  }

  /** The state with the form-submission flag set to `flag`. */
  function WithLoading(s: AppState, flag: bool): AppState {
    s.(status := s.status.(loading := flag))
  }

  /** `loadData` neither reads nor writes the `loading` flag. */
  lemma LoadDataIgnoresLoading(s: AppState, currentAuth: Option<Json>, fetched: Result<(Json, Json)>, flag: bool)
    ensures LoadDataStep(WithLoading(s, flag), currentAuth, fetched) == WithLoading(LoadDataStep(s, currentAuth, fetched), flag)
  {
  }

  /** How a handler that sends a request begins: both messages cleared, the request logged. */
  function Begun(s: AppState, call: Call): AppState {
    s.(status := s.status.(error := "", notice := ""), log := s.log + [call])
  }

  /** The end of a handler whose request failed with `message`. */
  function Failed(s: AppState, message: string): AppState {
    s.(status := s.status.(error := message, loading := false))
  }

  /** The end of a handler whose request succeeded, showing `success`. */
  function Succeeded(s: AppState, success: string): AppState {
    s.(status := s.status.(notice := success, loading := false))
  }

  /**
   * The try/catch/finally every mutating handler shares: clear the
   * messages, issue `call`, which settles as `result`, then on success
   * reload (when the handler reloads) and show `success`, on failure show
   * the error.
   */
  function Mutation(s: AppState, call: Call, result: Result<Json>, reload: Option<Result<(Json, Json)>>, success: string): (r: AppState)
    ensures r.view == s.view && r.session == s.session && r.editor == s.editor && !r.status.loading
    ensures s.log + [call] <= r.log
    ensures result.Err? ==> r.status.error == result.message && r.status.notice == "" && r.content == s.content
    ensures result.Ok? ==> r.status.notice == success
    ensures reload.None? ==> r.content == s.content && r.log == s.log + [call]
  {
    var begun := Begun(s, call);
    match result
    case Err(m) => Failed(begun, m)
    case Ok(_) =>
      var reloaded := if reload.Some? then LoadDataStep(begun, s.session.auth, reload.value) else begun;
      Succeeded(reloaded, success)
  }

  /** The joined fetch of the reload a mutation runs after success, if it runs one. */
  function FetchedAfter(reload: Option<Reload>): Option<Result<(Json, Json)>> {
    if reload.Some? then Some(Fetched(reload.value)) else None
  }

  /** `activeForm`: the form of the current mode. */
  function ActiveForm(v: View): map<string, string> {
    if v.mode == Login then v.loginData else v.registerData
  }

  /** Where the credentials go in each mode. */
  function SubmitEndpoint(mode: Mode): string {
    if mode == Login then "/auth/login" else "/auth/register"
  }

  /** The request `handleSubmit` issues: the active form as JSON, without a token. */
  function SubmitCall(v: View, env: Env): Call {
    IssuedCall(SubmitEndpoint(v.mode), Options(Some("POST"), CredentialsBody(env, ActiveForm(v)), []), None)
  }

  /** The login form after a registration: the registered email, an empty password. */
  function RegisteredLogin(v: View): map<string, string>
    requires "email" in v.registerData
  {
    v.loginData["email" := v.registerData["email"]]["password" := ""]
  }

  /**
   * `handleSubmit`: log in or register with the active form. A login answer
   * that is not JSON reads as `null`, and reading its token throws.
   */
  function SubmitStep(s: AppState, env: Env, result: Result<Json>): (r: AppState)
    requires WellFormed(s)
    ensures WellFormed(r) && r.view.registerData == s.view.registerData
    ensures r.log == s.log + [SubmitCall(s.view, env)]
    ensures r.content == s.content && r.editor == s.editor && !r.status.loading
    ensures r.session != s.session ==> s.view.mode == Login && result.Ok?
  {
    var begun := Begun(s, SubmitCall(s.view, env));
    match result
    case Err(m) => Failed(begun, m)
    case Ok(data) =>
      if s.view.mode == Register then
        Succeeded(begun.(view := s.view.(mode := Login, loginData := RegisteredLogin(s.view))), AccountCreatedNotice)
      else if data.JNull? then
        Failed(begun, env.nullReadMessage)
      else
        var next := NextAuth(data);
        WithLoading(begun.(session := SessionState(Some(next), Some(env.stringify(next)))), false)
  }

  /** `handleFieldChange`: writes the field into the active form. */
  function CredentialFieldStep(s: AppState, name: string, value: string): AppState {
    if s.view.mode == Login then s.(view := s.view.(loginData := s.view.loginData[name := value]))
    else s.(view := s.view.(registerData := s.view.registerData[name := value]))
  }

  /** The mode switch buttons. */
  function SwitchModeStep(s: AppState, mode: Mode): AppState {
    s.(view := s.view.(mode := mode), status := s.status.(error := "", notice := ""))
  }

  /** The tab buttons. */
  function SelectTabStep(s: AppState, tab: Tab): AppState {
    s.(view := s.view.(activeTab := tab))
  }

  /** `logout` */
  function LogoutStep(s: AppState): (r: AppState)
    ensures r.session == SessionState(None, None) && r.editor == IdleEditor
    ensures r.log == s.log && r.view.registerData == s.view.registerData
  {
    s.(session := SessionState(None, None),
       content := Content(JArr([]), JArr([])),
       editor := IdleEditor,
       view := s.view.(activeTab := EventsTab),
       status := s.status.(error := "", notice := ""))
  }

  /** `updateStudentFormField` and `updateEventFormField` */
  function StudentFieldStep(s: AppState, name: string, value: string): AppState {
    s.(editor := s.editor.(studentForm := s.editor.studentForm[name := JStr(value)]))
  }

  function EventFieldStep(s: AppState, name: string, value: string): AppState {
    s.(editor := s.editor.(eventForm := s.editor.eventForm[name := JStr(value)]))
  }

  /** The method and endpoint of a submit: an update when the editing id is truthy, a creation otherwise. */
  function SubmitTarget(collection: string, editingId: Option<Json>): (string, string) {
    if TruthyValue(editingId) then ("PATCH", collection + "/" + ToJsString(editingId.value))
    else ("POST", collection)
  }

  /** The request `handleStudentSubmit` issues. */
  function StudentSubmitCall(s: AppState, env: Env): Call {
    var target := SubmitTarget("/students", s.editor.editingStudentId);
    IssuedCall(target.1, Options(Some(target.0), FormBody(env, s.editor.studentForm), []), TokenOf(s.session.auth))
  }

  function StudentSubmitNotice(s: AppState): string {
    if TruthyValue(s.editor.editingStudentId) then StudentUpdatedNotice else StudentCreatedNotice
  }

  /** `handleStudentSubmit` */
  function StudentSubmitStep(s: AppState, env: Env, result: Result<Json>, fetched: Result<(Json, Json)>): (r: AppState)
    ensures r.view == s.view && r.session == s.session && !r.status.loading
    ensures s.log + [StudentSubmitCall(s, env)] <= r.log
    ensures r.editor.eventForm == s.editor.eventForm && r.editor.editingEventId == s.editor.editingEventId
    ensures r.editor.selection == s.editor.selection
  {
    var after := Mutation(s, StudentSubmitCall(s, env), result, Some(fetched), StudentSubmitNotice(s));
    if result.Ok? then after.(editor := after.editor.(studentForm := EmptyStudentForm, editingStudentId := None))
    else after
  }

  /** The request `handleEventSubmit` issues. */
  function EventSubmitCall(s: AppState, env: Env): Call {
    var target := SubmitTarget("/events", s.editor.editingEventId);
    IssuedCall(target.1, Options(Some(target.0), FormBody(env, s.editor.eventForm), []), TokenOf(s.session.auth))
  }

  function EventSubmitNotice(s: AppState): string {
    if TruthyValue(s.editor.editingEventId) then EventUpdatedNotice else EventCreatedNotice
  }

  /** `handleEventSubmit` */
  function EventSubmitStep(s: AppState, env: Env, result: Result<Json>, fetched: Result<(Json, Json)>): (r: AppState)
    ensures r.view == s.view && r.session == s.session && !r.status.loading
    ensures s.log + [EventSubmitCall(s, env)] <= r.log
    ensures r.editor.studentForm == s.editor.studentForm && r.editor.editingStudentId == s.editor.editingStudentId
    ensures r.editor.selection == s.editor.selection
  {
    var after := Mutation(s, EventSubmitCall(s, env), result, Some(fetched), EventSubmitNotice(s));
    if result.Ok? then after.(editor := after.editor.(eventForm := EmptyEventForm, editingEventId := None))
    else after
  }

  /** The student form pre-filled from a record, `''` for a field that is null or missing. */
  function StudentFormOf(student: Json): map<string, Json> {
    map["firstName" := Coalesce(Field(student, "firstName"), JStr("")),
        "lastName" := Coalesce(Field(student, "lastName"), JStr("")),
        "email" := Coalesce(Field(student, "email"), JStr(""))]
  }

  /** `startEditStudent`; reading a property of a null record throws before any update. */
  function StartEditStudentStep(s: AppState, student: Json): (r: AppState)
    ensures r.session == s.session && r.content == s.content && r.status == s.status && r.log == s.log
    ensures r.editor.eventForm == s.editor.eventForm && r.editor.editingEventId == s.editor.editingEventId
  {
    if student.JNull? then s
    else s.(editor := s.editor.(editingStudentId := Field(student, "id"), studentForm := StudentFormOf(student)),
            view := s.view.(activeTab := StudentsTab))
  }

  /** `toISOString().slice(0, 16)`: the date and time to the minute. */
  function Minutes(iso: string): string {
    if |iso| <= 16 then iso else iso[..16]
  }

  /** The event form pre-filled from a record, with the date already converted to `dateText`. */
  function EventFormOf(eventItem: Json, dateText: string): map<string, Json> {
    map["title" := Coalesce(Field(eventItem, "title"), JStr("")),
        "description" := Coalesce(Field(eventItem, "description"), JStr("")),
        "date" := JStr(dateText),
        "location" := Coalesce(Field(eventItem, "location"), JStr(""))]
  }

  /**
   * `startEditEvent`. When the date cannot be converted, `toISOString`
   * throws after the editing id was set, so only that update happens.
   */
  function StartEditEventStep(s: AppState, env: Env, eventItem: Json): (r: AppState)
    ensures r.session == s.session && r.content == s.content && r.status == s.status && r.log == s.log
    ensures r.editor.studentForm == s.editor.studentForm && r.editor.editingStudentId == s.editor.editingStudentId
  {
    if eventItem.JNull? then s
    else
      var date := Field(eventItem, "date");
      var withId := s.(editor := s.editor.(editingEventId := Field(eventItem, "id")));
      if TruthyValue(date) && env.isoString(date.value).None? then withId
      else
        var dateText := if TruthyValue(date) then Minutes(env.isoString(date.value).value) else "";
        withId.(editor := withId.editor.(eventForm := EventFormOf(eventItem, dateText)),
                view := s.view.(activeTab := EventsTab))
  }

  /** The two cancel-edit buttons. */
  function CancelStudentEditStep(s: AppState): AppState {
    s.(editor := s.editor.(editingStudentId := None, studentForm := EmptyStudentForm))
  }

  function CancelEventEditStep(s: AppState): AppState {
    s.(editor := s.editor.(editingEventId := None, eventForm := EmptyEventForm))
  }

  /** The request `deleteStudent(studentId)` issues. */
  function DeleteCall(s: AppState, studentId: Option<Json>): Call {
    IssuedCall("/students/" + ToJsStringOpt(studentId), Options(Some("DELETE"), None, []), TokenOf(s.session.auth))
  }

  /** `deleteStudent(studentId)` */
  function DeleteStudentStep(s: AppState, studentId: Option<Json>, result: Result<Json>, fetched: Result<(Json, Json)>): (r: AppState)
    ensures r.view == s.view && r.session == s.session && r.editor == s.editor && !r.status.loading
    ensures s.log + [DeleteCall(s, studentId)] <= r.log
  {
    Mutation(s, DeleteCall(s, studentId), result, Some(fetched), StudentDeletedNotice)
  }

  /** The request `cancelEvent(eventId)` issues. */
  function CancelCall(s: AppState, eventId: Option<Json>): Call {
    IssuedCall("/events/" + ToJsStringOpt(eventId) + "/cancel", Options(Some("PATCH"), None, []), TokenOf(s.session.auth))
  }

  /** `cancelEvent(eventId)`: nothing here looks at the event's status. */
  function CancelEventStep(s: AppState, eventId: Option<Json>, result: Result<Json>, fetched: Result<(Json, Json)>): (r: AppState)
    ensures r.view == s.view && r.session == s.session && r.editor == s.editor && !r.status.loading
    ensures s.log + [CancelCall(s, eventId)] <= r.log
  {
    Mutation(s, CancelCall(s, eventId), result, Some(fetched), EventCanceledNotice)
  }

  /** `selectedStudentIdByEvent[eventId]` is truthy */
  predicate HasSelection(s: AppState, eventId: Option<Json>) {
    ToJsStringOpt(eventId) in s.editor.selection && s.editor.selection[ToJsStringOpt(eventId)] != ""
  }

  /**
   * The request of `subscribeToEvent` (`verb` POST, `action` "/subscribe/")
   * or `unsubscribeFromEvent` (DELETE, "/unsubscribe/") for the student picked on the card.
   */
  function SubscriptionCall(s: AppState, eventId: Option<Json>, verb: string, action: string): Call
    requires HasSelection(s, eventId)
  {
    var key := ToJsStringOpt(eventId);
    IssuedCall("/events/" + key + action + s.editor.selection[key], Options(Some(verb), None, []), TokenOf(s.session.auth))
  }

  /** `subscribeToEvent(eventId)`: refused without a request when no student is selected; no reload. */
  function SubscribeStep(s: AppState, eventId: Option<Json>, result: Result<Json>): (r: AppState)
    ensures r.view == s.view && r.session == s.session && r.editor == s.editor && r.content == s.content
    ensures !HasSelection(s, eventId) ==> r.log == s.log
    ensures HasSelection(s, eventId) ==> r.log == s.log + [SubscriptionCall(s, eventId, "POST", "/subscribe/")]
  {
    if !HasSelection(s, eventId) then s.(status := s.status.(error := SelectForSubscribeError))
    else Mutation(s, SubscriptionCall(s, eventId, "POST", "/subscribe/"), result, None, SubscribedNotice)
  }

  /** `unsubscribeFromEvent(eventId)` */
  function UnsubscribeStep(s: AppState, eventId: Option<Json>, result: Result<Json>): (r: AppState)
    ensures r.view == s.view && r.session == s.session && r.editor == s.editor && r.content == s.content
    ensures !HasSelection(s, eventId) ==> r.log == s.log
    ensures HasSelection(s, eventId) ==> r.log == s.log + [SubscriptionCall(s, eventId, "DELETE", "/unsubscribe/")]
  {
    if !HasSelection(s, eventId) then s.(status := s.status.(error := SelectForUnsubscribeError))
    else Mutation(s, SubscriptionCall(s, eventId, "DELETE", "/unsubscribe/"), result, None, UnsubscribedNotice)
  }

  /** The student picker of one event card. */
  function SelectStudentStep(s: AppState, eventId: Option<Json>, studentId: string): (r: AppState)
    ensures r.view == s.view && r.status == s.status && r.session == s.session && r.content == s.content
    ensures r.log == s.log
  {
    s.(editor := s.editor.(selection := s.editor.selection[ToJsStringOpt(eventId) := studentId]))
  }

  // ----- every handler as one command -----

  /**
   * A user intent or the session effect, with how its requests settled: the
   * handler's own request (`result`) and the reload after it (`fetched`).
   */
  datatype Command =
    | Load(fetched: Result<(Json, Json)>)
    | SubmitCredentials(result: Result<Json>)
    | EditCredential(name: string, value: string)
    | SwitchMode(mode: Mode)
    | SelectTab(tab: Tab)
    | LogOut
    | EditStudentField(name: string, value: string)
    | EditEventField(name: string, value: string)
    | SubmitStudent(result: Result<Json>, fetched: Result<(Json, Json)>)
    | SubmitEvent(result: Result<Json>, fetched: Result<(Json, Json)>)
    | StartEditStudent(record: Json)
    | StartEditEvent(record: Json)
    | CancelStudentEdit
    | CancelEventEdit
    | DeleteStudent(id: Option<Json>, result: Result<Json>, fetched: Result<(Json, Json)>)
    | CancelEvent(id: Option<Json>, result: Result<Json>, fetched: Result<(Json, Json)>)
    | Subscribe(id: Option<Json>, result: Result<Json>)
    | Unsubscribe(id: Option<Json>, result: Result<Json>)
    | SelectStudent(id: Option<Json>, studentId: string)

  /** The state after a command; `Load` is `loadData(auth)` with the current session. */
  function Apply(s: AppState, env: Env, cmd: Command): (r: AppState)
    requires WellFormed(s)
    ensures WellFormed(r) && s.log <= r.log
  {
    match cmd
    case Load(fetched) => LoadDataStep(s, s.session.auth, fetched)
    case SubmitCredentials(result) => SubmitStep(s, env, result)
    case EditCredential(name, value) => CredentialFieldStep(s, name, value)
    case SwitchMode(mode) => SwitchModeStep(s, mode)
    case SelectTab(tab) => SelectTabStep(s, tab)
    case LogOut => LogoutStep(s)
    case EditStudentField(name, value) => StudentFieldStep(s, name, value)
    case EditEventField(name, value) => EventFieldStep(s, name, value)
    case SubmitStudent(result, fetched) => StudentSubmitStep(s, env, result, fetched)
    case SubmitEvent(result, fetched) => EventSubmitStep(s, env, result, fetched)
    case StartEditStudent(record) => StartEditStudentStep(s, record)
    case StartEditEvent(record) => StartEditEventStep(s, env, record)
    case CancelStudentEdit => CancelStudentEditStep(s)
    case CancelEventEdit => CancelEventEditStep(s)
    case DeleteStudent(id, result, fetched) => DeleteStudentStep(s, id, result, fetched)
    case CancelEvent(id, result, fetched) => CancelEventStep(s, id, result, fetched)
    case Subscribe(id, result) => SubscribeStep(s, id, result)
    case Unsubscribe(id, result) => UnsubscribeStep(s, id, result)
    case SelectStudent(id, studentId) => SelectStudentStep(s, id, studentId)
  }
}
