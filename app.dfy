/**
 * The route handlers of the web application over the state they share: the
 * `User` and `Prediction` tables and the browser's login session. The
 * historical table and the regression model are loaded once at start-up and
 * never change, so they are constants of the application object, as are the
 * password-hashing functions.
 *
 * The session is a signed cookie kept by the browser, so it may name a user
 * the current tables do not hold (a cookie from before the database file was
 * recreated, or one signed with the application's fixed key). The routes do
 * not check for that: the name lookup then finds nobody, and reading the
 * missing user's id raises, which `ServerError` stands for.
 */
module App {
  import opened Wrappers
  import opened Estimator
  import opened Accounts

  /** What a route answers: a redirect, or the page it renders. */
  datatype Response =
    | RedirectToRegister
    | RedirectToLogin
    | RedirectToForecast
    | RedirectToHome
    | ForecastForm
    | ForecastResult(cost: real)
    | ModelError
    | ServerError
    | HistoryPage(predictions: seq<Prediction>)

  /** A request to the forecast route: showing the form, or submitting a profile. */
  datatype Request = Get | Post(profile: Profile)

  class CostApp {
    /** The historical table, read once from the spreadsheet. */
    const table: seq<Row>
    /** The trained model; `None` when it rejects its input. */
    const predict: Input -> Option<real>
    /** The salted password hash, from salt and password. */
    const hash: (string, string) -> string
    /** Whether a stored hash accepts a password. */
    const check: (string, string) -> bool

    /** The `User` table, in insertion order. */
    var users: seq<User>
    /** The `Prediction` table, in insertion order; rows are only ever appended. */
    var log: seq<Prediction>
    /** `session['user']`: the logged-in user's name, if any. */
    var session: Option<string>

    ghost predicate Valid()
      reads this
    {
      && HashSound(hash, check)
      && UserIdsSequential(users)
      && UniqueEmails(users)
      && PredictionIdsSequential(log)
      && OwnersExist(users, log)
    }

    /**
     * Start-up over the database file as it stands (both tables empty on the
     * first start after the tables are created, the rows of earlier runs
     * after a restart) and the cookie the browser presents, which may name
     * anybody.
     */
    constructor (table: seq<Row>, predict: Input -> Option<real>,
                 hash: (string, string) -> string, check: (string, string) -> bool,
                 users: seq<User>, log: seq<Prediction>, session: Option<string>)
      requires HashSound(hash, check)
      requires UserIdsSequential(users) && UniqueEmails(users)
      requires PredictionIdsSequential(log) && OwnersExist(users, log)
      ensures Valid()
      ensures this.table == table && this.predict == predict
      ensures this.hash == hash && this.check == check
      ensures this.users == users && this.log == log && this.session == session
    {
      this.table := table;
      this.predict := predict;
      this.hash := hash;
      this.check := check;
      this.users := users;
      this.log := log;
      this.session := session;
    }

    /**
     * POST /register. A taken email sends the visitor back to the form and
     * stores nothing; otherwise one user is appended with the next id and the
     * salted hash of the password, and the visitor is sent to log in.
     */
    method Register(name: string, email: string, password: string, salt: string) returns (resp: Response)
      requires Valid()
      modifies this`users
      ensures Valid()
      ensures log == old(log) && session == old(session)
      ensures (exists i :: 0 <= i < |old(users)| && old(users)[i].email == email) ==>
        resp == RedirectToRegister && users == old(users)
      ensures (forall i :: 0 <= i < |old(users)| ==> old(users)[i].email != email) ==>
        resp == RedirectToLogin && users == old(users) + [User(|old(users)| + 1, name, email, hash(salt, password))]
      ensures resp == RedirectToLogin ==> Authenticate(users, check, email, password) == Some(name)
      ensures SessionNamesUser(old(users), session) ==> SessionNamesUser(users, session)
    {
      var hashed := hash(salt, password);
      if FirstBy(users, Email, email).Some? {
        return RedirectToRegister;
      }
      var u := User(|users| + 1, name, email, hashed);
      FreshEmailKeepsUnique(users, u);
      AppendUserKeepsOwners(users, u, log);
      AppendUserKeepsSession(users, u, session);
      RegisteredUserCanLogIn(users, hash, check, name, email, password, salt);
      users := users + [u];
      resp := RedirectToLogin;
    }

    /**
     * POST /login. The session is set to the user's name only when a user
     * with that email exists and the stored hash accepts the password;
     * otherwise the session is left as it was.
     */
    method Login(email: string, password: string) returns (resp: Response)
      requires Valid()
      modifies this`session
      ensures Valid()
      ensures users == old(users) && log == old(log)
      ensures var who := Authenticate(users, check, email, password);
        if who.Some? then session == who && resp == RedirectToForecast
        else session == old(session) && resp == RedirectToLogin
      ensures resp == RedirectToForecast ==> SessionNamesUser(users, session)
    {
      var who := Authenticate(users, check, email, password);
      if who.Some? {
        session := who;
        resp := RedirectToForecast;
      } else {
        resp := RedirectToLogin;
      }
    }

    /** GET /logout: the session ends whether or not there was one; the tables are untouched. */
    method Logout() returns (resp: Response)
      requires Valid()
      modifies this`session
      ensures Valid()
      ensures session == None && users == old(users) && log == old(log)
      ensures resp == RedirectToHome
    {
      session := None;
      resp := RedirectToHome;
    }

    /**
     * GET and POST /forecast. Without a session the visitor is sent to log
     * in. A POST estimates the cost of the profile and, unless the model
     * raised, appends exactly one prediction credited to the first user
     * bearing the session's name, with the submitted fields and the estimate;
     * when nobody bears that name the route fails and nothing is stored.
     */
    method Forecast(req: Request) returns (resp: Response)
      requires Valid()
      modifies this`log
      ensures Valid()
      ensures users == old(users) && session == old(session)
      ensures session.None? ==> resp == RedirectToLogin && log == old(log)
      ensures session.Some? && req.Get? ==> resp == ForecastForm && log == old(log)
      ensures session.Some? && req.Post? ==>
        match Estimate(table, req.profile, predict)
        case None => resp == ModelError && log == old(log)
        case Some(cost) =>
          match SessionUser(users, session.value)
          case None => resp == ServerError && log == old(log)
          case Some(owner) =>
            && resp == ForecastResult(cost)
            && log == old(log) + [Prediction(|old(log)| + 1, owner.id, req.profile, cost)]
      ensures SessionNamesUser(users, session) ==> resp != ServerError
    {
      if session.None? {
        return RedirectToLogin;
      }
      match req
      case Get =>
        resp := ForecastForm;
      case Post(profile) =>
        var cost := predict(ModelInput(table, profile));
        if cost.None? {
          return ModelError;
        }
        var owner := SessionUser(users, session.value);
        if owner.None? {
          return ServerError;
        }
        var q := Prediction(|log| + 1, owner.value.id, profile, cost.value);
        assert owner.value in users;
        log := log + [q];
        resp := ForecastResult(cost.value);
    }

    /**
     * GET /history: without a session, to login; otherwise the predictions
     * credited to the session's user, in log order, or a failure when nobody
     * bears the session's name.
     */
    method History() returns (resp: Response)
      requires Valid()
      ensures session.None? ==> resp == RedirectToLogin
      ensures session.Some? ==>
        match SessionUser(users, session.value)
        case None => resp == ServerError
        case Some(owner) => resp == HistoryPage(OwnedBy(log, owner.id))
      ensures SessionNamesUser(users, session) ==> resp != ServerError
    {
      if session.None? {
        return RedirectToLogin;
      }
      var owner := SessionUser(users, session.value);
      if owner.None? {
        return ServerError;
      }
      resp := HistoryPage(OwnedBy(log, owner.value.id));
    }
  }

  /**
   * A first visit: register, log in, submit one profile, open the history.
   * The history lists exactly the one prediction just made, owned by the new
   * account, or nothing when the model rejected the input.
   */
  method RegisterLoginForecastHistory(table: seq<Row>, predict: Input -> Option<real>,
                                      hash: (string, string) -> string, check: (string, string) -> bool,
                                      name: string, email: string, password: string, salt: string,
                                      profile: Profile)
    returns (shown: Response)
    requires HashSound(hash, check)
    ensures Estimate(table, profile, predict).Some? ==>
      shown == HistoryPage([Prediction(1, 1, profile, Estimate(table, profile, predict).value)])
    ensures Estimate(table, profile, predict).None? ==> shown == HistoryPage([])
  {
    var app := new CostApp(table, predict, hash, check, [], [], None);
    var registered := app.Register(name, email, password, salt);
    var loggedIn := app.Login(email, password);
    assert app.session == Some(name);
    var forecast := app.Forecast(Post(profile));
    shown := app.History();
    assert app.users[0].name == name;
    if Estimate(table, profile, predict).Some? {
      assert app.log == [Prediction(1, 1, profile, Estimate(table, profile, predict).value)];
      OwnedByAppend([], app.log[0], 1);
    }
  }

  /**
   * Two accounts that share a display name: the second one logs in and
   * submits a profile, and the prediction is credited to the first account,
   * because the routes find the session's user by name.
   */
  method SharedNameCreditsFirstAccount(table: seq<Row>, predict: Input -> Option<real>,
                                       hash: (string, string) -> string, check: (string, string) -> bool,
                                       name: string, email1: string, email2: string, password: string,
                                       salt: string, profile: Profile)
    returns (loggedIn: nat, credited: nat)
    requires HashSound(hash, check)
    requires email1 != email2
    requires Estimate(table, profile, predict).Some?
    ensures loggedIn == 2 && credited == 1
  {
    var app := new CostApp(table, predict, hash, check, [], [], None);
    var r1 := app.Register(name, email1, password, salt);
    var r2 := app.Register(name, email2, password, salt);
    var r3 := app.Login(email2, password);
    var r4 := app.Forecast(Post(profile));
    loggedIn := app.users[FirstBy(app.users, Email, email2).value].id;
    credited := app.log[0].userId;
  }

  /**
   * A restart over tables that hold nobody with the name in the browser's
   * cookie: the history route fails, and a submitted profile fails too
   * (after the model has run) without storing anything.
   */
  method StaleCookieFails(table: seq<Row>, predict: Input -> Option<real>,
                          hash: (string, string) -> string, check: (string, string) -> bool,
                          users: seq<User>, log: seq<Prediction>, name: string, profile: Profile)
    returns (forecast: Response, history: Response, stored: seq<Prediction>)
    requires HashSound(hash, check)
    requires UserIdsSequential(users) && UniqueEmails(users)
    requires PredictionIdsSequential(log) && OwnersExist(users, log)
    requires forall i :: 0 <= i < |users| ==> users[i].name != name
    ensures forecast == if Estimate(table, profile, predict).Some? then ServerError else ModelError
    ensures history == ServerError
    ensures stored == log
  {
    var app := new CostApp(table, predict, hash, check, users, log, Some(name));
    forecast := app.Forecast(Post(profile));
    history := app.History();
    stored := app.log;
  }
}
