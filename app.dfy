/**
 * The `App` component as an object: one field per state hook, the stored
 * session for `localStorage`, one method per state setter, and one method
 * per handler, which changes state only through those setters as the
 * component does. Each handler is proved to leave the object in the state
 * its step function in `AppModel` describes, so every property proved there
 * holds of the object too.
 */
module AppComponent {
  import opened Wrappers
  import opened Js
  import opened Api
  import opened Session
  import opened AppModel

  class App {
    const env: Env
    var mode: Mode
    var activeTab: Tab
    var loginData: map<string, string>
    var registerData: map<string, string>
    var loading: bool
    var contentLoading: bool
    var error: string
    var notice: string
    var auth: Option<Json>
    var students: Json
    var events: Json
    var studentForm: map<string, Json>
    var eventForm: map<string, Json>
    var editingStudentId: Option<Json>
    var editingEventId: Option<Json>
    var selection: map<string, string>
    /** The `devops.auth` entry of `localStorage`. */
    var storage: Option<string>
    /** Every request issued so far, in order. */
    ghost var log: seq<Call>

    ghost function State(): AppState
      reads this
    {
      AppState(View(mode, activeTab, loginData, registerData),
               Status(loading, contentLoading, error, notice),
               SessionState(auth, storage),
               Content(students, events),
               Editor(studentForm, eventForm, editingStudentId, editingEventId, selection),
               log)
    }

    ghost predicate Valid()
      reads this
    {
      WellFormed(State())
    }

    /** First render: every hook at its initial value, the session read back from storage. */
    constructor(env: Env, stored: Option<string>)
      ensures this.env == env
      ensures State() == Initial(env, stored)
      ensures Valid()
    {
      this.env := env;
      mode := Login;
      activeTab := EventsTab;
      loginData := map["email" := "", "password" := ""];
      registerData := map["name" := "", "email" := "", "password" := ""];
      loading := false;
      contentLoading := false;
      error := "";
      notice := "";
      auth := SavedAuth(stored, env.parse);
      students := JArr([]);
      events := JArr([]);
      studentForm := EmptyStudentForm;
      eventForm := EmptyEventForm;
      editingStudentId := None;
      editingEventId := None;
      selection := map[];
      storage := stored;
      log := [];
    }

    // ----- the state setters of the hooks -----

    method SetMode(v: Mode)
      modifies this
      ensures State() == old(State()).(view := old(State()).view.(mode := v))
    {
      mode := v;
    }

    method SetActiveTab(v: Tab)
      modifies this
      ensures State() == old(State()).(view := old(State()).view.(activeTab := v))
    {
      activeTab := v;
    }

    method SetLoginData(v: map<string, string>)
      modifies this
      ensures State() == old(State()).(view := old(State()).view.(loginData := v))
    {
      loginData := v;
    }

    method SetRegisterData(v: map<string, string>)
      modifies this
      ensures State() == old(State()).(view := old(State()).view.(registerData := v))
    {
      registerData := v;
    }

    method SetLoading(v: bool)
      modifies this
      ensures State() == old(State()).(status := old(State()).status.(loading := v))
    {
      loading := v;
    }

    method SetContentLoading(v: bool)
      modifies this
      ensures State() == old(State()).(status := old(State()).status.(contentLoading := v))
    {
      contentLoading := v;
    }

    method SetError(v: string)
      modifies this
      ensures State() == old(State()).(status := old(State()).status.(error := v))
    {
      error := v;
    }

    method SetNotice(v: string)
      modifies this
      ensures State() == old(State()).(status := old(State()).status.(notice := v))
    {
      notice := v;
    }

    method SetAuth(v: Option<Json>)
      modifies this
      ensures State() == old(State()).(session := old(State()).session.(auth := v))
    {
      auth := v;
    }

    method SetStudents(v: Json)
      modifies this
      ensures State() == old(State()).(content := old(State()).content.(students := v))
    {
      students := v;
    }

    method SetEvents(v: Json)
      modifies this
      ensures State() == old(State()).(content := old(State()).content.(events := v))
    {
      events := v;
    }

    method SetStudentForm(v: map<string, Json>)
      modifies this
      ensures State() == old(State()).(editor := old(State()).editor.(studentForm := v))
    {
      studentForm := v;
    }

    method SetEventForm(v: map<string, Json>)
      modifies this
      ensures State() == old(State()).(editor := old(State()).editor.(eventForm := v))
    {
      eventForm := v;
    }

    method SetEditingStudentId(v: Option<Json>)
      modifies this
      ensures State() == old(State()).(editor := old(State()).editor.(editingStudentId := v))
    {
      editingStudentId := v;
    }

    method SetEditingEventId(v: Option<Json>)
      modifies this
      ensures State() == old(State()).(editor := old(State()).editor.(editingEventId := v))
    {
      editingEventId := v;
    }

    method SetSelectedStudentIdByEvent(v: map<string, string>)
      modifies this
      ensures State() == old(State()).(editor := old(State()).editor.(selection := v))
    {
      selection := v;
    }

    /** `localStorage.setItem('devops.auth', v)` */
    method StoreSession(v: string)
      modifies this
      ensures State() == old(State()).(session := old(State()).session.(stored := Some(v)))
    {
      storage := Some(v);
    }

    /** `localStorage.removeItem('devops.auth')` */
    method ForgetSession()
      modifies this
      ensures State() == old(State()).(session := old(State()).session.(stored := None))
    {
      storage := None;
    }

    /** `request(endpoint, options, token)`, which settles as `outcome`; the call is logged. */
    method Send(endpoint: string, options: Options, token: Option<Json>, outcome: HttpOutcome) returns (result: Result<Json>)
      modifies this
      ensures State() == old(State()).(log := old(log) + [IssuedCall(endpoint, options, token)])
      ensures result == ResponseResult(outcome)
    {
      var call;
      call, result := Request(endpoint, options, token, outcome);
      log := log + [call];
    }

    // ----- the handlers -----

    /** `loadData(currentAuth)`: both lists fetched together, installed together or not at all. */
    method LoadData(currentAuth: Option<Json>, reload: Reload)
      requires Valid()
      modifies this
      ensures Valid()
      ensures State() == LoadDataStep(old(State()), currentAuth, Fetched(reload))
    {
      var token := TokenOf(currentAuth);
      if !TruthyValue(token) {
        return;
      }
      ghost var before := State();
      SetContentLoading(true);
      SetError("");
      var studentsResult := Send("/students", NoOptions, token, reload.students);
      var eventsResult := Send("/events", NoOptions, token, reload.events);
      assert State() == before.(status := before.status.(contentLoading := true, error := ""),
                                log := before.log + ReloadCalls(token));
      var both := JoinAll(studentsResult, eventsResult, reload.eventsRejectsFirst);
      match both {
        case Ok(pair) =>
          SetStudents(pair.0);
          SetEvents(pair.1);
        case Err(m) =>
          SetError(m);
      }
      SetContentLoading(false);
    }

    /** The opening every request handler shares: clear both messages, raise `loading`, send. */
    method Begin(endpoint: string, options: Options, token: Option<Json>, outcome: HttpOutcome) returns (result: Result<Json>)
      modifies this
      ensures result == ResponseResult(outcome)
      ensures State() == WithLoading(Begun(old(State()), IssuedCall(endpoint, options, token)), true)
    {
      SetError("");
      SetNotice("");
      SetLoading(true);
      result := Send(endpoint, options, token, outcome);
    }

    /** The `catch` and `finally` of a request handler: show the error, lower `loading`. */
    method Fail(message: string)
      modifies this
      ensures State() == Failed(old(State()), message)
    {
      SetError(message);
      SetLoading(false);
    }

    /** The end of the `try` of a request handler, then its `finally`: show the notice, lower `loading`. */
    method Succeed(success: string)
      modifies this
      ensures State() == Succeeded(old(State()), success)
    {
      SetNotice(success);
      SetLoading(false);
    }

    /** `handleSubmit`: log in or register with the active form. */
    method HandleSubmit(outcome: HttpOutcome)
      requires Valid()
      modifies this
      ensures Valid()
      ensures State() == SubmitStep(old(State()), env, ResponseResult(outcome))
    {
      var login := mode == Login;
      var registeredEmail := registerData["email"];
      var form := if login then loginData else registerData;
      var result := Begin(SubmitEndpoint(mode), Options(Some("POST"), CredentialsBody(env, form), []), None, outcome);
      match result {
        case Err(m) =>
          Fail(m);
        case Ok(data) =>
          if !login {
            SetMode(Login);
            SetLoginData(loginData["email" := registeredEmail]["password" := ""]);
            Succeed(AccountCreatedNotice);
          } else if data.JNull? {
            Fail(env.nullReadMessage);
          } else {
            var next := NextAuth(data);
            SetAuth(Some(next));
            StoreSession(env.stringify(next));
            SetLoading(false);
          }
      }
    }

    /** `handleFieldChange`: writes into the form of the current mode. */
    method HandleFieldChange(name: string, value: string)
      requires Valid()
      modifies this
      ensures Valid()
      ensures State() == CredentialFieldStep(old(State()), name, value)
    {
      if mode == Login {
        SetLoginData(loginData[name := value]);
        return;
      }
      SetRegisterData(registerData[name := value]);
    }

    /** The two mode buttons of the login screen. */
    method SwitchMode(next: Mode)
      requires Valid()
      modifies this
      ensures Valid()
      ensures State() == SwitchModeStep(old(State()), next)
    {
      SetMode(next);
      SetError("");
      SetNotice("");
    }

    /** The two tab buttons. */
    method SelectTab(tab: Tab)
      requires Valid()
      modifies this
      ensures Valid()
      ensures State() == SelectTabStep(old(State()), tab)
    {
      SetActiveTab(tab);
    }

    /** `logout` */
    method Logout()
      requires Valid()
      modifies this
      ensures Valid()
      ensures State() == LogoutStep(old(State()))
    {
      SetAuth(None);
      ForgetSession();
      SetStudents(JArr([]));
      SetEvents(JArr([]));
      SetStudentForm(EmptyStudentForm);
      SetEventForm(EmptyEventForm);
      SetEditingStudentId(None);
      SetEditingEventId(None);
      SetSelectedStudentIdByEvent(map[]);
      SetActiveTab(EventsTab);
      SetError("");
      SetNotice("");
    }

    /** `updateStudentFormField` */
    method UpdateStudentFormField(name: string, value: string)
      requires Valid()
      modifies this
      ensures Valid()
      ensures State() == StudentFieldStep(old(State()), name, value)
    {
      SetStudentForm(studentForm[name := JStr(value)]);
    }

    /** `updateEventFormField` */
    method UpdateEventFormField(name: string, value: string)
      requires Valid()
      modifies this
      ensures Valid()
      ensures State() == EventFieldStep(old(State()), name, value)
    {
      SetEventForm(eventForm[name := JStr(value)]);
    }

    /**
     * The `try` and `catch` every mutating handler shares: clear both messages,
     * raise `loading`, send the request; on success run the reload, if any,
     * and show `success`; on failure show the error. `loading` stays raised
     * for the handler's own `finally`.
     */
    method Attempt(endpoint: string, options: Options, outcome: HttpOutcome, reload: Option<Reload>, success: string)
      returns (ok: bool)
      requires Valid()
      modifies this
      ensures Valid()
      ensures ok == ResponseResult(outcome).Ok?
      ensures State() == WithLoading(Mutation(old(State()), IssuedCall(endpoint, options, TokenOf(old(auth))),
                                              ResponseResult(outcome), FetchedAfter(reload), success), true)
    {
      ghost var before := State();
      var result := Begin(endpoint, options, TokenOf(auth), outcome);
      ok := result.Ok?;
      match result {
        case Err(m) =>
          SetError(m);
        case Ok(_) =>
          if reload.Some? {
            ghost var begun := Begun(before, IssuedCall(endpoint, options, TokenOf(before.session.auth)));
            LoadData(auth, reload.value);
            LoadDataIgnoresLoading(begun, before.session.auth, Fetched(reload.value), true);
          }
          SetNotice(success);
      }
    }

    /** A mutating handler whose `try` ends with the notice: `Attempt`, then the `finally`. */
    method Mutate(endpoint: string, options: Options, outcome: HttpOutcome, reload: Option<Reload>, success: string)
      requires Valid()
      modifies this
      ensures Valid()
      ensures State() == Mutation(old(State()), IssuedCall(endpoint, options, TokenOf(old(auth))),
                                  ResponseResult(outcome), FetchedAfter(reload), success)
    {
      var _ := Attempt(endpoint, options, outcome, reload, success);
      SetLoading(false);
    }

    /** `handleStudentSubmit`: update the edited student, or create one; on success reload and reset the form. */
    method HandleStudentSubmit(outcome: HttpOutcome, reload: Reload)
      requires Valid()
      modifies this
      ensures Valid()
      ensures State() == StudentSubmitStep(old(State()), env, ResponseResult(outcome), Fetched(reload))
    {
      var target := SubmitTarget("/students", editingStudentId);
      var success := if TruthyValue(editingStudentId) then StudentUpdatedNotice else StudentCreatedNotice;
      var ok := Attempt(target.1, Options(Some(target.0), FormBody(env, studentForm), []), outcome, Some(reload), success);
      if ok {
        SetStudentForm(EmptyStudentForm);
        SetEditingStudentId(None);
      }
      SetLoading(false);
    }

    /** `handleEventSubmit`: update the edited event, or create one; on success reload and reset the form. */
    method HandleEventSubmit(outcome: HttpOutcome, reload: Reload)
      requires Valid()
      modifies this
      ensures Valid()
      ensures State() == EventSubmitStep(old(State()), env, ResponseResult(outcome), Fetched(reload))
    {
      var target := SubmitTarget("/events", editingEventId);
      var success := if TruthyValue(editingEventId) then EventUpdatedNotice else EventCreatedNotice;
      var ok := Attempt(target.1, Options(Some(target.0), FormBody(env, eventForm), []), outcome, Some(reload), success);
      if ok {
        SetEventForm(EmptyEventForm);
        SetEditingEventId(None);
      }
      SetLoading(false);
    }

    /** `startEditStudent(student)`; a null record throws before anything is set. */
    method StartEditStudent(student: Json)
      requires Valid()
      modifies this
      ensures Valid()
      ensures State() == StartEditStudentStep(old(State()), student)
    {
      if student.JNull? {
        return;
      }
      SetEditingStudentId(Field(student, "id"));
      SetStudentForm(StudentFormOf(student));
      SetActiveTab(StudentsTab);
    }

    /** `startEditEvent(eventItem)`; a date `toISOString` rejects throws once the editing id is set. */
    method StartEditEvent(eventItem: Json)
      requires Valid()
      modifies this
      ensures Valid()
      ensures State() == StartEditEventStep(old(State()), env, eventItem)
    {
      if eventItem.JNull? {
        return;
      }
      SetEditingEventId(Field(eventItem, "id"));
      var date := Field(eventItem, "date");
      var dateText := "";
      if TruthyValue(date) {
        match env.isoString(date.value) {
          case None => return;
          case Some(iso) => dateText := Minutes(iso);
        }
      }
      SetEventForm(EventFormOf(eventItem, dateText));
      SetActiveTab(EventsTab);
    }

    /** The cancel-edit button of the student form. */
    method CancelStudentEdit()
      requires Valid()
      modifies this
      ensures Valid()
      ensures State() == CancelStudentEditStep(old(State()))
    {
      SetEditingStudentId(None);
      SetStudentForm(EmptyStudentForm);
    }

    /** The cancel-edit button of the event form. */
    method CancelEventEdit()
      requires Valid()
      modifies this
      ensures Valid()
      ensures State() == CancelEventEditStep(old(State()))
    {
      SetEditingEventId(None);
      SetEventForm(EmptyEventForm);
    }

    /** `deleteStudent(studentId)`, then reload. */
    method DeleteStudent(studentId: Option<Json>, outcome: HttpOutcome, reload: Reload)
      requires Valid()
      modifies this
      ensures Valid()
      ensures State() == DeleteStudentStep(old(State()), studentId, ResponseResult(outcome), Fetched(reload))
    {
      Mutate("/students/" + ToJsStringOpt(studentId), Options(Some("DELETE"), None, []), outcome, Some(reload),
                      StudentDeletedNotice);
    }

    /** `cancelEvent(eventId)`, then reload; the event's status is not looked at here. */
    method CancelEvent(eventId: Option<Json>, outcome: HttpOutcome, reload: Reload)
      requires Valid()
      modifies this
      ensures Valid()
      ensures State() == CancelEventStep(old(State()), eventId, ResponseResult(outcome), Fetched(reload))
    {
      Mutate("/events/" + ToJsStringOpt(eventId) + "/cancel", Options(Some("PATCH"), None, []), outcome, Some(reload),
                      EventCanceledNotice);
    }

    /** `subscribeToEvent(eventId)` with the student picked for that event; no reload. */
    method SubscribeToEvent(eventId: Option<Json>, outcome: HttpOutcome)
      requires Valid()
      modifies this
      ensures Valid()
      ensures State() == SubscribeStep(old(State()), eventId, ResponseResult(outcome))
    {
      var key := ToJsStringOpt(eventId);
      if key !in selection || selection[key] == "" {
        SetError(SelectForSubscribeError);
        return;
      }
      var studentId := selection[key];
      Mutate("/events/" + key + "/subscribe/" + studentId, Options(Some("POST"), None, []), outcome, None,
                      SubscribedNotice);
    }

    /** `unsubscribeFromEvent(eventId)` with the student picked for that event; no reload. */
    method UnsubscribeFromEvent(eventId: Option<Json>, outcome: HttpOutcome)
      requires Valid()
      modifies this
      ensures Valid()
      ensures State() == UnsubscribeStep(old(State()), eventId, ResponseResult(outcome))
    {
      var key := ToJsStringOpt(eventId);
      if key !in selection || selection[key] == "" {
        SetError(SelectForUnsubscribeError);
        return;
      }
      var studentId := selection[key];
      Mutate("/events/" + key + "/unsubscribe/" + studentId, Options(Some("DELETE"), None, []), outcome, None,
                      UnsubscribedNotice);
    }

    /** The student picker of one event card. */
    method SelectStudentForEvent(eventId: Option<Json>, studentId: string)
      requires Valid()
      modifies this
      ensures Valid()
      ensures State() == SelectStudentStep(old(State()), eventId, studentId)
    {
      SetSelectedStudentIdByEvent(selection[ToJsStringOpt(eventId) := studentId]);
    }
  }
}
