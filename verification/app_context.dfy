/**
 * The global application state of the ride-booking app: its records, the
 * initial state, the reducer that every page feeds actions into, and the
 * store that holds the current state (the `useReducer` hook of the provider).
 */
module AppContext {

  import opened Options

  datatype Gender = Male | Female | Other

  /** A signed-in rider; `sosCode` is absent until the rider saves one. */
  datatype User = User(id: string, name: string, email: string, phone: string,
                       gender: Gender, sosCode: Option<string>)

  /** A driver of the static list; decimal distances and ratings are reals. */
  datatype Driver = Driver(id: string, name: string, rating: real, safetyScore: int,
                           vehicle: string, distance: real, price: int, eta: int,
                           gender: Gender, profileImage: string)

  datatype RideStatus = Booked | Ongoing | Completed

  datatype Ride = Ride(id: string, pickup: string, destination: string, driver: Driver,
                       status: RideStatus, otp: string)

  datatype Theme = Light | Dark

  datatype Location = Location(lat: real, lng: real)

  datatype AppState = AppState(user: Option<User>, currentRide: Option<Ride>, theme: Theme,
                               isAuthenticated: bool, sosActive: bool, location: Option<Location>)

  /**
   * The seven action kinds, plus `Unrecognised` for any other `type` string
   * that reaches the reducer at run time (its `default` branch).
   */
  datatype Action =
    | SetUser(user: User)
    | SetRide(ride: Ride)
    | ToggleTheme
    | ActivateSos
    | DeactivateSos
    | SetLocation(fix: Location)
    | Logout
    | Unrecognised(kind: string)

  const Initial: AppState := AppState(None, None, Light, false, false, None)

  function Flip(t: Theme): Theme {
    if t == Light then Dark else Light
  }

  /** The reducer: a new state for each action, built by record update. */
  function Reduce(s: AppState, a: Action): AppState {
    match a
    case SetUser(u) => s.(user := Some(u), isAuthenticated := true)
    case SetRide(r) => s.(currentRide := Some(r))
    case ToggleTheme => s.(theme := Flip(s.theme))
    case ActivateSos => s.(sosActive := true)
    case DeactivateSos => s.(sosActive := false)
    case SetLocation(loc) => s.(location := Some(loc))
    case Logout => Initial.(theme := s.theme)
    case Unrecognised(_) => s
  }

  /** The state after feeding `acts` to the reducer in order, starting from `s`. */
  function Run(s: AppState, acts: seq<Action>): AppState
    decreases |acts|
  {
    if acts == [] then s else Reduce(Run(s, acts[..|acts| - 1]), acts[|acts| - 1])
  }

  /** A rider is signed in exactly when a user record is present. */
  predicate Consistent(s: AppState) {
    s.isAuthenticated <==> s.user.Some?
  }

  lemma InitialIsConsistent()
    ensures Consistent(Initial)
    ensures Initial.user == None && Initial.currentRide == None && Initial.theme == Light
    ensures !Initial.isAuthenticated && !Initial.sosActive && Initial.location == None
  {
  }

  lemma SetUserStoresUser(s: AppState, u: User)
    ensures var r := Reduce(s, SetUser(u));
      && r.user == Some(u) && r.isAuthenticated
      && r.currentRide == s.currentRide && r.theme == s.theme
      && r.sosActive == s.sosActive && r.location == s.location
  {
  }

  lemma SetRideReplacesOnlyRide(s: AppState, ride: Ride)
    ensures var r := Reduce(s, SetRide(ride));
      && r.currentRide == Some(ride)
      && r.user == s.user && r.theme == s.theme && r.isAuthenticated == s.isAuthenticated
      && r.sosActive == s.sosActive && r.location == s.location
  {
  }

  lemma ToggleThemeIsInvolution(s: AppState)
    ensures Reduce(s, ToggleTheme).theme != s.theme
    ensures Reduce(s, ToggleTheme).(theme := s.theme) == s
    ensures Reduce(Reduce(s, ToggleTheme), ToggleTheme) == s
  {
  }

  lemma SosFlagsAreIdempotent(s: AppState)
    ensures Reduce(s, ActivateSos).sosActive && !Reduce(s, DeactivateSos).sosActive
    ensures Reduce(s, ActivateSos).(sosActive := s.sosActive) == s
    ensures Reduce(s, DeactivateSos).(sosActive := s.sosActive) == s
    ensures Reduce(Reduce(s, ActivateSos), ActivateSos) == Reduce(s, ActivateSos)
    ensures Reduce(Reduce(s, DeactivateSos), DeactivateSos) == Reduce(s, DeactivateSos)
  {
  }

  lemma SetLocationLastWriteWins(s: AppState, a: Location, b: Location)
    ensures Reduce(s, SetLocation(a)).location == Some(a)
    ensures Reduce(s, SetLocation(a)).(location := s.location) == s
    ensures Reduce(Reduce(s, SetLocation(a)), SetLocation(b)) == Reduce(s, SetLocation(b))
  {
  }

  lemma LogoutKeepsOnlyTheme(s: AppState)
    ensures var r := Reduce(s, Logout);
      && r.user == None && r.currentRide == None && !r.isAuthenticated
      && !r.sosActive && r.location == None && r.theme == s.theme
    ensures s.theme == Light ==> Reduce(s, Logout) == Initial
    ensures Reduce(Reduce(s, Logout), Logout) == Reduce(s, Logout)
  {
  }

  lemma UnrecognisedIsIdentity(s: AppState, kind: string)
    ensures Reduce(s, Unrecognised(kind)) == s
  {
  }

  lemma ReducePreservesConsistency(s: AppState, a: Action)
    requires Consistent(s)
    ensures Consistent(Reduce(s, a))
  {
  }

  lemma {:induction false} RunAppend(s: AppState, acts: seq<Action>, a: Action)
    ensures Run(s, acts + [a]) == Reduce(Run(s, acts), a)
  {
    assert (acts + [a])[..|acts + [a]| - 1] == acts;
  }

  /** Every action sequence fed to the reducer from a consistent state keeps it consistent. */
  lemma {:induction false} RunPreservesConsistency(s: AppState, acts: seq<Action>)
    requires Consistent(s)
    ensures Consistent(Run(s, acts))
  {
    if acts != [] {
      RunPreservesConsistency(s, acts[..|acts| - 1]);
      ReducePreservesConsistency(Run(s, acts[..|acts| - 1]), acts[|acts| - 1]);
    }
  }

  /**
   * The provider's store: the current state and, as ghost history, every
   * action dispatched so far. Pages hold a reference to one store.
   */
  class Store {
    var state: AppState
    ghost var log: seq<Action>

    ghost predicate Valid()
      reads this
    {
      state == Run(Initial, log) && Consistent(state)
    }

    constructor ()
      ensures Valid() && state == Initial && log == []
    {
      state := Initial;
      log := [];
    }

    method Dispatch(a: Action)
      requires Valid()
      modifies this
      ensures Valid()
      ensures log == old(log) + [a]
      ensures state == Reduce(old(state), a)
    {
      RunAppend(Initial, log, a);
      ReducePreservesConsistency(state, a);
      state := Reduce(state, a);
      log := log + [a];
    }
  }
}
