/** The Pinia store `user` as an object: its `user` field is updated in place by the three
    actions, the notifier and the `closeDialog` callbacks are logs on the object, and the
    identity API is replaced by the outcome each action is given and the request it records. */
module UserStore {
  import opened UserModel

  class Store {
    /** The store's only persistent state; `null` and `undefined` are both `None`. */
    var user: Option<Identity>
    /** The development flag, fixed when the store is created. */
    const dev: bool
    /** Every notification passed to the notifier, oldest first. */
    var notifications: seq<Notification>
    /** How many times a `closeDialog` callback has been invoked. */
    var closeDialogCalls: nat
    /** Every request issued to the identity API, oldest first. */
    var requests: seq<Request>

    function Snapshot(): Session
      reads this
    {
      Session(user, notifications, closeDialogCalls, requests)
    }

    ghost predicate Valid()
      reads this
    {
      Consistent(dev, Snapshot())
    }

    constructor (dev: bool)
      ensures this.dev == dev
      ensures Snapshot() == Initial
      ensures Valid()
    {
      this.dev := dev;
      user := None;
      notifications := [];
      closeDialogCalls := 0;
      requests := [];
      InitialConsistent(dev);
    }

    /** The `hasUser` getter. */
    predicate HasUser()
      reads this
      ensures HasUser() <==> user != None
    {
      UserModel.HasUser(user)
    }

    /** `updateUser`, with the outcome of GET "/id" given. */
    method UpdateUser(outcome: Outcome)
      requires Valid()
      modifies this
      ensures Valid()
      ensures Snapshot() == UpdateUserStep(dev, old(Snapshot()), outcome)
    {
      if !dev {
        requests := requests + [IdRequest];
        match outcome {
          case Response(status, data) =>
            if status == 200 {
              user := Stored(data);
            } else {
              user := None;
            }
          case TransportFailure =>
            notifications := notifications + [Problem(FetchFailedMessage)];
        }
      }
    }

    /** `logIn(account, password, closeDialog)`, with the outcome of the login request given;
        the `then`/`catch` stage runs first, then the `finally` stage reads the field. */
    method LogIn(account: string, password: string, outcome: Outcome)
      requires Valid()
      modifies this
      ensures Valid()
      ensures Snapshot() == LogInStep(dev, old(Snapshot()), account, password, outcome)
    {
      if dev {
        if account == "mock" {
          user := Some(MockUser);
          closeDialogCalls := closeDialogCalls + 1;
        } else {
          notifications := notifications + [Problem(LoginFailedMessage)];
        }
      } else {
        requests := requests + [LoginRequest(account, password)];
        match outcome {
          case Response(status, data) =>
            if status == 200 {
              user := Stored(data);
            } else {
              user := None;
            }
          case TransportFailure =>
        }
        if user == None {
          notifications := notifications + [Problem(LoginFailedMessage)];
        } else {
          closeDialogCalls := closeDialogCalls + 1;
        }
      }
    }

    /** `logOut`, with the outcome of PUT "/logout" given. */
    method LogOut(outcome: Outcome)
      requires Valid()
      modifies this
      ensures Valid()
      ensures Snapshot() == LogOutStep(dev, old(Snapshot()), outcome)
    {
      if dev {
        user := None;
      } else {
        requests := requests + [LogoutRequest];
        if outcome.Response? {
          user := None;
        }
      }
    }
  }
}
