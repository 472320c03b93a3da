/** The user session store as values: what the store holds, what it receives from the
    identity API, what it emits, and one pure transition function per action.
    Each transition is built from the stages of the action's promise chain
    (`then`, `catch`, `finally`), and its contract states the net effect per outcome. */
module UserModel {

  datatype Option<T> = None | Some(value: T)

  /** An identity as the identity API returns it, or the development placeholder. */
  datatype Identity = Identity(repr: string)

  /** The placeholder identity the development login stores. */
  const MockUser: Identity := Identity("Mock User")

  /** The JavaScript values that can reach the `user` field: the two empty values
      `undefined` and `null`, or an identity. */
  datatype JsValue = Undefined | Null | Value(identity: Identity)

  /** `v == null` under JavaScript loose equality: true of both `null` and `undefined`. */
  predicate LooselyNull(v: JsValue)
  {
    v.Undefined? || v.Null?
  }

  /** What the store keeps when it assigns `v` to `user`: the two empty values become
      the one absent value. */
  function Stored(v: JsValue): (u: Option<Identity>)
    ensures u.None? <==> LooselyNull(v)
    ensures u.Some? ==> v == Value(u.value)
  {
    if v.Value? then Some(v.identity) else None
  }

  /** The `hasUser` getter. */
  predicate HasUser(u: Option<Identity>)
  {
    u.Some?
  }

  /** `hasUser` holds exactly when the assigned value is neither `null` nor `undefined`,
      and the store starts without a user. */
  lemma HasUserExactlyWhenNotNull(v: JsValue)
    ensures HasUser(Stored(v)) <==> !LooselyNull(v)
    ensures Stored(Null) == Stored(Undefined) == None
    ensures !HasUser(Initial.user)
  {
  }

  /** A toast shown through the notifier. */
  datatype Notification = Notification(color: string, position: string, message: string, icon: string)

  const FetchFailedMessage: string := "Could not fetch user information"
  const LoginFailedMessage: string := "Login failed"

  /** The one notification shape the store uses, with the given message. */
  function Problem(message: string): Notification
  {
    Notification("negative", "top", message, "report_problem")
  }

  /** A notification the store may emit: negative, at the top, with the problem icon,
      and one of its two messages. */
  predicate IsStoreNotification(n: Notification)
  {
    n.color == "negative" && n.position == "top" && n.icon == "report_problem" &&
    (n.message == FetchFailedMessage || n.message == LoginFailedMessage)
  }

  datatype Verb = Get | Put

  /** A request to the identity API, by verb and path. */
  datatype Request = Request(verb: Verb, path: string)

  const IdRequest: Request := Request(Get, "/id")
  const LogoutRequest: Request := Request(Put, "/logout")

  /** The login path: account and password concatenated in, without any escaping. */
  function LoginPath(account: string, password: string): string
  {
    "/login/" + account + "/" + password
  }

  function LoginRequest(account: string, password: string): Request
  {
    Request(Get, LoginPath(account, password))
  }

  /** How a request settles: a response with a status and a payload, or a transport
      failure (no response at all). */
  datatype Outcome = Response(status: int, data: JsValue) | TransportFailure

  /** The store's observable state: the user, every notification emitted so far, how many
      times a `closeDialog` callback was invoked, and every request issued, oldest first. */
  datatype Session = Session(
    user: Option<Identity>,
    notifications: seq<Notification>,
    closeDialogCalls: nat,
    requests: seq<Request>)

  const Initial: Session := Session(None, [], 0, [])

  // Stages of the actions' promise chains.

  function Issue(s: Session, req: Request): Session
  {
    s.(requests := s.requests + [req])
  }

  function Notify(s: Session, message: string): Session
  {
    s.(notifications := s.notifications + [Problem(message)])
  }

  function CloseDialog(s: Session): Session
  {
    s.(closeDialogCalls := s.closeDialogCalls + 1)
  }

  /** The `then` handler shared by `updateUser` and `logIn`: status 200 stores the payload,
      any other status clears the user. */
  function UserFromResponse(status: int, data: JsValue): Option<Identity>
  {
    if status == 200 then Stored(data) else None
  }

  /** The `finally` handler of `logIn`: it reads the user the earlier stages left. */
  function LogInFinally(s: Session): Session
  {
    if s.user == None then Notify(s, LoginFailedMessage) else CloseDialog(s)
  }

  /** `updateUser`. */
  function UpdateUserStep(dev: bool, s: Session, outcome: Outcome): (r: Session)
    ensures dev ==> r == s
    ensures !dev ==> r.requests == s.requests + [IdRequest]
    ensures r.closeDialogCalls == s.closeDialogCalls
    ensures !dev && outcome.Response? && outcome.status == 200 ==> r.user == Stored(outcome.data)
    ensures !dev && outcome.Response? && outcome.status != 200 ==> r.user == None
    ensures outcome.Response? ==> r.notifications == s.notifications
    ensures !dev && outcome.TransportFailure? ==>
      r.user == s.user && r.notifications == s.notifications + [Problem(FetchFailedMessage)]
  {
    if dev then
      s
    else
      var issued := Issue(s, IdRequest);
      match outcome
      case Response(status, data) => issued.(user := UserFromResponse(status, data))
      case TransportFailure => Notify(issued, FetchFailedMessage)
  }

  /** `logIn(account, password, closeDialog)`. */
  function LogInStep(dev: bool, s: Session, account: string, password: string, outcome: Outcome): (r: Session)
    ensures r.requests == if dev then s.requests else s.requests + [LoginRequest(account, password)]
    ensures dev && account == "mock" ==>
      r.user == Some(MockUser) && r.closeDialogCalls == s.closeDialogCalls + 1 &&
      r.notifications == s.notifications
    ensures dev && account != "mock" ==>
      r.user == s.user && r.closeDialogCalls == s.closeDialogCalls &&
      r.notifications == s.notifications + [Problem(LoginFailedMessage)]
    ensures !dev && outcome.Response? && outcome.status == 200 ==> r.user == Stored(outcome.data)
    ensures !dev && outcome.Response? && outcome.status != 200 ==> r.user == None
    ensures !dev && outcome.TransportFailure? ==> r.user == s.user
    ensures !dev && r.user == None ==>
      r.notifications == s.notifications + [Problem(LoginFailedMessage)] &&
      r.closeDialogCalls == s.closeDialogCalls
    ensures !dev && r.user != None ==>
      r.notifications == s.notifications && r.closeDialogCalls == s.closeDialogCalls + 1
  {
    if dev then
      if account == "mock" then CloseDialog(s.(user := Some(MockUser)))
      else Notify(s, LoginFailedMessage)
    else
      var issued := Issue(s, LoginRequest(account, password));
      var settled :=
        match outcome
        case Response(status, data) => issued.(user := UserFromResponse(status, data))
        case TransportFailure => issued;
      LogInFinally(settled)
  }

  /** `logOut`. */
  function LogOutStep(dev: bool, s: Session, outcome: Outcome): (r: Session)
    ensures r.requests == if dev then s.requests else s.requests + [LogoutRequest]
    ensures r.notifications == s.notifications && r.closeDialogCalls == s.closeDialogCalls
    ensures dev || outcome.Response? ==> r.user == None
    ensures !dev && outcome.TransportFailure? ==> r.user == s.user
  {
    if dev then
      s.(user := None)
    else
      var issued := Issue(s, LogoutRequest);
      match outcome
      case Response(_, _) => issued.(user := None)
      case TransportFailure => issued
  }

  /** In development mode the login ignores the password and the outcome. */
  lemma DevLogInIgnoresPassword(s: Session, account: string, p1: string, p2: string, o1: Outcome, o2: Outcome)
    ensures LogInStep(true, s, account, p1, o1) == LogInStep(true, s, account, p2, o2)
  {
  }

  /** A production login after a transport failure keeps a previous user, and so closes
      the dialog without a notification although the request failed. */
  lemma FailedLogInKeepsPreviousUser(s: Session, account: string, password: string)
    requires s.user != None
    ensures var r := LogInStep(false, s, account, password, TransportFailure);
      r.user == s.user && r.closeDialogCalls == s.closeDialogCalls + 1 &&
      r.notifications == s.notifications
  {
  }

  /** A production login answered with status 200 and an empty payload fails like a
      rejected one. */
  lemma EmptyPayloadLogInFails(s: Session, account: string, password: string, data: JsValue)
    requires LooselyNull(data)
    ensures var r := LogInStep(false, s, account, password, Response(200, data));
      r.user == None && r.notifications == s.notifications + [Problem(LoginFailedMessage)] &&
      r.closeDialogCalls == s.closeDialogCalls
  {
  }

  /** Starting without a user in production, a successful login stores the payload and
      closes the dialog once, without a notification. */
  lemma SuccessfulLogInScenario()
    ensures LogInStep(false, Initial, "alice", "pw", Response(200, Value(Identity("{id: 42}")))) ==
      Session(Some(Identity("{id: 42}")), [], 1, [Request(Get, "/login/alice/pw")])
  {
    assert LoginPath("alice", "pw") == "/login/alice/pw";
  }

  /** Because nothing is escaped, a slash in the account makes two credential pairs
      issue the same request. */
  lemma LoginPathAmbiguous()
    ensures LoginPath("a/b", "c") == LoginPath("a", "b/c")
  {
  }

  /** In `account + "/" + password` with no slash in the account, the first slash is the
      separator. */
  lemma FirstSlash(account: string, password: string)
    requires '/' !in account
    ensures var t := account + "/" + password;
      t[|account|] == '/' && forall k :: 0 <= k < |account| ==> t[k] != '/'
  {
  }

  /** For accounts without a slash, the login path determines account and password. */
  lemma LoginPathInjective(a1: string, p1: string, a2: string, p2: string)
    requires '/' !in a1 && '/' !in a2
    requires LoginPath(a1, p1) == LoginPath(a2, p2)
    ensures a1 == a2 && p1 == p2
  {
    var prefix := "/login/";
    var t1 := a1 + "/" + p1;
    var t2 := a2 + "/" + p2;
    assert LoginPath(a1, p1) == prefix + t1;
    assert LoginPath(a2, p2) == prefix + t2;
    assert t1 == LoginPath(a1, p1)[|prefix|..];
    assert t2 == LoginPath(a2, p2)[|prefix|..];
    FirstSlash(a1, p1);
    FirstSlash(a2, p2);
    assert |a1| == |a2|;
    assert a1 == t1[..|a1|];
    assert a2 == t2[..|a2|];
    assert p1 == t1[|a1| + 1..];
    assert p2 == t2[|a2| + 1..];
  }

  /** What every state the store reaches satisfies: it has emitted only its own two
      notifications, and in development mode it has issued no request and holds no user
      but the placeholder. */
  predicate Consistent(dev: bool, s: Session)
  {
    (forall i :: 0 <= i < |s.notifications| ==> IsStoreNotification(s.notifications[i])) &&
    (dev ==> s.requests == [] && (s.user == None || s.user == Some(MockUser)))
  }

  lemma InitialConsistent(dev: bool)
    ensures Consistent(dev, Initial)
  {
  }
}
