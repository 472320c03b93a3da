/** Sequences of store actions, each with the outcome of its request, and what holds of
    every run of the store. */
module SessionTraces {
  import opened UserModel

  datatype Action =
    | UpdateUser(outcome: Outcome)
    | LogIn(account: string, password: string, outcome: Outcome)
    | LogOut(outcome: Outcome)

  function Step(dev: bool, s: Session, a: Action): Session
  {
    match a
    case UpdateUser(o) => UpdateUserStep(dev, s, o)
    case LogIn(account, password, o) => LogInStep(dev, s, account, password, o)
    case LogOut(o) => LogOutStep(dev, s, o)
  }

  /** The session after the actions run one after another, each completing before the next. */
  function Run(dev: bool, s: Session, actions: seq<Action>): Session
    decreases |actions|
  {
    if actions == [] then s else Run(dev, Step(dev, s, actions[0]), actions[1..])
  }

  /** The request a production action issues. */
  function RequestOf(a: Action): Request
  {
    match a
    case UpdateUser(_) => IdRequest
    case LogIn(account, password, _) => LoginRequest(account, password)
    case LogOut(_) => LogoutRequest
  }

  function RequestsOf(actions: seq<Action>): seq<Request>
    decreases |actions|
  {
    if actions == [] then [] else [RequestOf(actions[0])] + RequestsOf(actions[1..])
  }

  function LogInCount(actions: seq<Action>): nat
    decreases |actions|
  {
    if actions == [] then 0
    else (if actions[0].LogIn? then 1 else 0) + LogInCount(actions[1..])
  }

  /** How many `updateUser` calls met a transport failure. */
  function FetchFailureCount(actions: seq<Action>): nat
    decreases |actions|
  {
    if actions == [] then 0
    else
      var failed := actions[0].UpdateUser? && actions[0].outcome.TransportFailure?;
      (if failed then 1 else 0) + FetchFailureCount(actions[1..])
  }

  /** One action keeps the store consistent. */
  lemma StepKeepsConsistent(dev: bool, s: Session, a: Action)
    requires Consistent(dev, s)
    ensures Consistent(dev, Step(dev, s, a))
  {
  }

  /** Every run keeps the store consistent: only the two store notifications are ever
      emitted, and a development store never issues a request or holds another user. */
  lemma {:induction false} RunKeepsConsistent(dev: bool, s: Session, actions: seq<Action>)
    requires Consistent(dev, s)
    ensures Consistent(dev, Run(dev, s, actions))
    decreases |actions|
  {
    if actions != [] {
      StepKeepsConsistent(dev, s, actions[0]);
      RunKeepsConsistent(dev, Step(dev, s, actions[0]), actions[1..]);
    }
  }

  /** A production store issues exactly one request per action, in order; a development
      store issues none. */
  lemma {:induction false} RunRequests(dev: bool, s: Session, actions: seq<Action>)
    ensures Run(dev, s, actions).requests == s.requests + (if dev then [] else RequestsOf(actions))
    decreases |actions|
  {
    if actions != [] {
      var next := Step(dev, s, actions[0]);
      RunRequests(dev, next, actions[1..]);
      assert next.requests == s.requests + (if dev then [] else [RequestOf(actions[0])]);
    }
  }

  /** Over a run, each `logIn` call adds one to the count of "Login failed" notifications
      plus `closeDialog` calls; besides those the only feedback is one notification per
      failed production `updateUser`. */
  lemma {:induction false} RunFeedback(dev: bool, s: Session, actions: seq<Action>)
    ensures var r := Run(dev, s, actions);
      |r.notifications| + r.closeDialogCalls ==
        |s.notifications| + s.closeDialogCalls + LogInCount(actions) +
        (if dev then 0 else FetchFailureCount(actions))
    decreases |actions|
  {
    if actions != [] {
      RunFeedback(dev, Step(dev, s, actions[0]), actions[1..]);
    }
  }

  /** A run from a fresh store stays consistent. */
  lemma RunFromInitial(dev: bool, actions: seq<Action>)
    ensures Consistent(dev, Run(dev, Initial, actions))
  {
    InitialConsistent(dev);
    RunKeepsConsistent(dev, Initial, actions);
  }
}
