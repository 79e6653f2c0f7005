/**
 * The session held by the authentication context: the current user, the guest flag, the
 * loading flag, the last error and the profile-completeness flag, plus the `rememberUser` key of
 * local storage. Each operation is first given as a transition on a `SessionState` value; the
 * class `AuthProvider` below holds the same state in fields and is proved to follow those
 * transitions. Every call into the authentication service is an oracle argument that says how
 * that call ended.
 */
module AuthContext {
  import opened Common
  import opened JsNumbers
  import opened Types

  const RememberUserKey := "rememberUser"
  const LoginFailedMessage := "An unknown error occurred during login."
  const NoUserMessage := "No user to update"

  function Override<T>(patch: Option<T>, current: T): T
  {
    if patch.Some? then patch.value else current
  }

  function OverrideOptional<T>(patch: Option<T>, current: Option<T>): Option<T>
  {
    if patch.Some? then patch else current
  }

  /** `{ ...user, ...updates }`: every field the patch supplies replaces the user's. */
  function Merge(u: User, p: UserPatch): User
  {
    User(
      Override(p.id, u.id), Override(p.email, u.email),
      Override(p.firstName, u.firstName), Override(p.lastName, u.lastName),
      OverrideOptional(p.avatar, u.avatar), Override(p.level, u.level), Override(p.rank, u.rank),
      Override(p.totalPoints, u.totalPoints), Override(p.streak, u.streak),
      Override(p.hoursLearned, u.hoursLearned), Override(p.problemsSolved, u.problemsSolved),
      Override(p.createdAt, u.createdAt), Override(p.lastLoginAt, u.lastLoginAt),
      OverrideOptional(p.middleName, u.middleName),
      OverrideOptional(p.preferredUsername, u.preferredUsername),
      OverrideOptional(p.age, u.age), OverrideOptional(p.country, u.country),
      OverrideOptional(p.language, u.language), OverrideOptional(p.school, u.school),
      OverrideOptional(p.grade, u.grade), OverrideOptional(p.isProfileComplete, u.isProfileComplete))
  }

  /** `{ ...p, ...q }` on two patches. */
  function ThenPatch(p: UserPatch, q: UserPatch): UserPatch
  {
    UserPatch(
      OverrideOptional(q.id, p.id), OverrideOptional(q.email, p.email),
      OverrideOptional(q.firstName, p.firstName), OverrideOptional(q.lastName, p.lastName),
      OverrideOptional(q.avatar, p.avatar), OverrideOptional(q.level, p.level),
      OverrideOptional(q.rank, p.rank), OverrideOptional(q.totalPoints, p.totalPoints),
      OverrideOptional(q.streak, p.streak), OverrideOptional(q.hoursLearned, p.hoursLearned),
      OverrideOptional(q.problemsSolved, p.problemsSolved),
      OverrideOptional(q.createdAt, p.createdAt), OverrideOptional(q.lastLoginAt, p.lastLoginAt),
      OverrideOptional(q.middleName, p.middleName),
      OverrideOptional(q.preferredUsername, p.preferredUsername),
      OverrideOptional(q.age, p.age), OverrideOptional(q.country, p.country),
      OverrideOptional(q.language, p.language), OverrideOptional(q.school, p.school),
      OverrideOptional(q.grade, p.grade), OverrideOptional(q.isProfileComplete, p.isProfileComplete))
  }

  /** An empty patch changes nothing. */
  lemma MergeNoChanges(u: User)
    ensures Merge(u, NoChanges) == u
  {
  }

  /** Applying the same patch twice is applying it once. */
  lemma MergeIdempotent(u: User, p: UserPatch)
    ensures Merge(Merge(u, p), p) == Merge(u, p)
  {
  }

  /** Two successive updates amount to one update by the combined patch. */
  lemma MergeThen(u: User, p: UserPatch, q: UserPatch)
    ensures Merge(Merge(u, p), q) == Merge(u, ThenPatch(p, q))
  {
  }

  /** A patch leaves every field it does not supply as it was. */
  lemma MergeKeepsUnsupplied(u: User, p: UserPatch)
    ensures p.id.None? ==> Merge(u, p).id == u.id
    ensures p.email.None? ==> Merge(u, p).email == u.email
    ensures p.firstName.None? ==> Merge(u, p).firstName == u.firstName
    ensures p.lastName.None? ==> Merge(u, p).lastName == u.lastName
    ensures p.level.None? ==> Merge(u, p).level == u.level
    ensures p.rank.None? ==> Merge(u, p).rank == u.rank
    ensures p.totalPoints.None? ==> Merge(u, p).totalPoints == u.totalPoints
    ensures p.streak.None? ==> Merge(u, p).streak == u.streak
    ensures p.hoursLearned.None? ==> Merge(u, p).hoursLearned == u.hoursLearned
    ensures p.problemsSolved.None? ==> Merge(u, p).problemsSolved == u.problemsSolved
    ensures p.createdAt.None? ==> Merge(u, p).createdAt == u.createdAt
    ensures p.lastLoginAt.None? ==> Merge(u, p).lastLoginAt == u.lastLoginAt
    ensures p.avatar.None? ==> Merge(u, p).avatar == u.avatar
    ensures p.middleName.None? ==> Merge(u, p).middleName == u.middleName
    ensures p.preferredUsername.None? ==> Merge(u, p).preferredUsername == u.preferredUsername
    ensures p.age.None? ==> Merge(u, p).age == u.age
    ensures p.country.None? ==> Merge(u, p).country == u.country
    ensures p.language.None? ==> Merge(u, p).language == u.language
    ensures p.school.None? ==> Merge(u, p).school == u.school
    ensures p.grade.None? ==> Merge(u, p).grade == u.grade
    ensures p.isProfileComplete.None? ==> Merge(u, p).isProfileComplete == u.isProfileComplete
  {
  }

  /** Every field a patch supplies takes the patch's value. */
  lemma MergeTakesSupplied(u: User, p: UserPatch)
    ensures p.id.Some? ==> Merge(u, p).id == p.id.value
    ensures p.email.Some? ==> Merge(u, p).email == p.email.value
    ensures p.firstName.Some? ==> Merge(u, p).firstName == p.firstName.value
    ensures p.lastName.Some? ==> Merge(u, p).lastName == p.lastName.value
    ensures p.level.Some? ==> Merge(u, p).level == p.level.value
    ensures p.rank.Some? ==> Merge(u, p).rank == p.rank.value
    ensures p.totalPoints.Some? ==> Merge(u, p).totalPoints == p.totalPoints.value
    ensures p.streak.Some? ==> Merge(u, p).streak == p.streak.value
    ensures p.hoursLearned.Some? ==> Merge(u, p).hoursLearned == p.hoursLearned.value
    ensures p.problemsSolved.Some? ==> Merge(u, p).problemsSolved == p.problemsSolved.value
    ensures p.createdAt.Some? ==> Merge(u, p).createdAt == p.createdAt.value
    ensures p.lastLoginAt.Some? ==> Merge(u, p).lastLoginAt == p.lastLoginAt.value
    ensures p.avatar.Some? ==> Merge(u, p).avatar == p.avatar
    ensures p.middleName.Some? ==> Merge(u, p).middleName == p.middleName
    ensures p.preferredUsername.Some? ==> Merge(u, p).preferredUsername == p.preferredUsername
    ensures p.age.Some? ==> Merge(u, p).age == p.age
    ensures p.country.Some? ==> Merge(u, p).country == p.country
    ensures p.language.Some? ==> Merge(u, p).language == p.language
    ensures p.school.Some? ==> Merge(u, p).school == p.school
    ensures p.grade.Some? ==> Merge(u, p).grade == p.grade
    ensures p.isProfileComplete.Some? ==> Merge(u, p).isProfileComplete == p.isProfileComplete
  {
  }

  /** `checkProfileCompletion`: a user whose four mandatory fields are all truthy. */
  predicate CheckProfileCompletion(u: Option<User>)
  {
    && u.Some?
    && u.value.firstName != ""
    && u.value.lastName != ""
    && TruthyText(u.value.preferredUsername)
    && TruthyNum(u.value.age)
  }

  /**
   * The completeness rule spelled out: no user is incomplete, and a user is complete exactly
   * when first and last name are non-empty, the preferred username is present and non-empty,
   * and the age is present, not NaN and not 0.
   */
  lemma ProfileCompletionRule(u: Option<User>)
    ensures u.None? ==> !CheckProfileCompletion(u)
    ensures u.Some? ==>
      (CheckProfileCompletion(u) <==>
        u.value.firstName != "" && u.value.lastName != ""
        && u.value.preferredUsername.Some? && |u.value.preferredUsername.value| > 0
        && u.value.age.Some? && u.value.age.value != NaN && u.value.age.value != Int(0))
  {
  }

  datatype SessionState = SessionState(
    user: Option<User>,
    isGuest: bool,
    isLoading: bool,
    error: Option<string>,
    isProfileComplete: bool,
    storage: map<string, string>)

  /** `isAuthenticated = !!user && !isGuest` */
  predicate IsAuthenticated(s: SessionState)
  {
    s.user.Some? && !s.isGuest
  }

  /** The completeness flag agrees with the flag stored in the user record. */
  predicate Consistent(s: SessionState)
  {
    s.isProfileComplete == (s.user.Some? && s.user.value.isProfileComplete == Some(true))
  }

  /** The state on mounting: no user, not a guest, loading, no error. */
  function Initial(storage: map<string, string>): (s: SessionState)
    ensures Consistent(s) && !IsAuthenticated(s) && s.isLoading
  {
    SessionState(None, false, true, None, false, storage)
  }

  /** Stores `{ ...u, isProfileComplete }` with the completeness computed from `u`. */
  function WithUser(s: SessionState, u: User): SessionState
  {
    var complete := CheckProfileCompletion(Some(u));
    s.(user := Some(u.(isProfileComplete := Some(complete))), isProfileComplete := complete)
  }

  /**
   * `checkAuthState`: restores the user found by the lookup. A lookup that finds nobody and a
   * lookup that throws both leave no user; it never throws, and loading ends in every case.
   */
  function AfterCheckAuthState(s: SessionState, lookup: Result<Option<User>>): (r: SessionState)
    ensures !r.isLoading
    ensures r.isGuest == s.isGuest && r.error == s.error && r.storage == s.storage
    ensures lookup.Success? && lookup.value.Some? ==>
      var u := lookup.value.value;
      r.user == Some(u.(isProfileComplete := Some(CheckProfileCompletion(Some(u)))))
      && r.isProfileComplete == CheckProfileCompletion(Some(u))
    ensures !(lookup.Success? && lookup.value.Some?) ==> r.user.None? && !r.isProfileComplete
  {
    var t := if lookup.Success? && lookup.value.Some? then WithUser(s, lookup.value.value)
             else s.(user := None, isProfileComplete := false);
    t.(isLoading := false)
  }

  /** The state after an operation and how the operation's promise settles. */
  datatype Step = Step(state: SessionState, outcome: Outcome)

  /**
   * `login(email, password, rememberMe)`, where `signIn` is how `authService.signIn(email,
   * password)` ended. Success stores the user with its completeness, leaves guest mode and no
   * error, and writes the remember marker only when asked; failure records the message (or the
   * fixed default), keeps the identity and rethrows. Loading ends in both cases, and no key of
   * storage is ever removed.
   */
  function AfterLogin(s: SessionState, rememberMe: bool, signIn: Result<User>): (r: Step)
    ensures !r.state.isLoading
    ensures forall k :: k in s.storage ==> k in r.state.storage
    ensures forall k :: k in s.storage && k != RememberUserKey ==> r.state.storage[k] == s.storage[k]
    ensures r.state.storage.Keys == s.storage.Keys + (if signIn.Success? && rememberMe then {RememberUserKey} else {})
    ensures signIn.Success? && rememberMe ==> r.state.storage[RememberUserKey] == "true"
    ensures signIn.Success? ==>
      var u := signIn.value;
      && r.outcome == Done
      && r.state.user == Some(u.(isProfileComplete := Some(CheckProfileCompletion(Some(u)))))
      && r.state.isProfileComplete == CheckProfileCompletion(Some(u))
      && !r.state.isGuest && r.state.error.None? && IsAuthenticated(r.state)
    ensures signIn.Failure? ==>
      && r.outcome == Threw(signIn.thrown)
      && r.state.error == Some(MessageOr(signIn.thrown, LoginFailedMessage))
      && r.state.error.value != ""
      && r.state.user == s.user && r.state.isGuest == s.isGuest
      && r.state.isProfileComplete == s.isProfileComplete && r.state.storage == s.storage
  {
    var begun := s.(isLoading := true, error := None);
    match signIn
    case Success(u) =>
      var signedIn := WithUser(begun, u).(isGuest := false);
      var remembered := if rememberMe then signedIn.(storage := signedIn.storage[RememberUserKey := "true"])
                        else signedIn;
      Step(remembered.(isLoading := false), Done)
    case Failure(e) =>
      Step(begun.(error := Some(MessageOr(e, LoginFailedMessage)), isLoading := false), Threw(e))
  }

  /**
   * `register(...)`, where `signUp` is how `authService.signUp` ended: only the loading flag
   * changes (it ends false); nobody is signed in, and a failure propagates unrecorded.
   */
  function AfterRegister(s: SessionState, signUp: Outcome): (r: Step)
    ensures r.outcome == signUp
    ensures !r.state.isLoading && r.state.(isLoading := s.isLoading) == s
    ensures IsAuthenticated(r.state) == IsAuthenticated(s)
  {
    Step(s.(isLoading := false), signUp)
  }

  /**
   * `logout()`, where `signOut` is how `authService.signOut()` ended. After a successful sign-out
   * there is no user, no guest, no completeness and no remember marker; after a failed one only
   * the loading flag has changed, and the failure propagates.
   */
  function AfterLogout(s: SessionState, signOut: Outcome): (r: Step)
    ensures !r.state.isLoading && r.outcome == signOut && r.state.error == s.error
    ensures signOut.Done? ==>
      && r.state.user.None? && !r.state.isGuest && !r.state.isProfileComplete
      && !IsAuthenticated(r.state)
      && r.state.storage.Keys == s.storage.Keys - {RememberUserKey}
      && forall k :: k in r.state.storage ==> r.state.storage[k] == s.storage[k]
    ensures signOut.Threw? ==> r.state == s.(isLoading := false)
  {
    match signOut
    case Done =>
      Step(s.(user := None, isGuest := false, isProfileComplete := false,
              storage := s.storage - {RememberUserKey}, isLoading := false), Done)
    case Threw(_) =>
      Step(s.(isLoading := false), signOut)
  }

  /** A second successful logout leaves the state as the first one left it. */
  lemma LogoutIdempotent(s: SessionState)
    ensures var once := AfterLogout(s, Done).state;
            AfterLogout(once, Done) == Step(once, Done)
  {
  }

  /** The synthetic guest identity; `now` is the timestamp taken from the clock. */
  function GuestUser(now: string): User
  {
    User("guest", "", "Guest", "User", None, Int(1), "Beginner", Int(0), Int(0), Int(0), Int(0),
         now, now, None, None, None, None, None, None, None, Some(true))
  }

  /** `enterGuestMode()`: installs the guest identity, marked complete, with no service call. */
  function AfterEnterGuestMode(s: SessionState, now: string): (r: SessionState)
    ensures r.isGuest && r.isProfileComplete && !IsAuthenticated(r)
    ensures r.user.Some? && r.user.value.id == "guest" && r.user.value.email == ""
    ensures r.user.value.firstName == "Guest" && r.user.value.lastName == "User"
    ensures r.user.value.level == Int(1) && r.user.value.rank == "Beginner"
    ensures r.user.value.totalPoints == r.user.value.streak == r.user.value.hoursLearned
            == r.user.value.problemsSolved == Int(0)
    ensures r.isLoading == s.isLoading && r.error == s.error && r.storage == s.storage
    ensures Consistent(r)
  {
    s.(isGuest := true, isProfileComplete := true, user := Some(GuestUser(now)))
  }

  /**
   * The guest is marked complete by fiat: by the completeness rule the guest identity, which has
   * no preferred username and no age, would be incomplete.
   */
  lemma GuestCompleteByFiat(s: SessionState, now: string)
    ensures AfterEnterGuestMode(s, now).isProfileComplete
    ensures !CheckProfileCompletion(AfterEnterGuestMode(s, now).user)
  {
  }

  /** `exitGuestMode()`: clears guest mode, completeness and the user, with no service call. */
  function AfterExitGuestMode(s: SessionState): (r: SessionState)
    ensures r.user.None? && !r.isGuest && !r.isProfileComplete && !IsAuthenticated(r)
    ensures r.isLoading == s.isLoading && r.error == s.error && r.storage == s.storage
  {
    s.(isGuest := false, isProfileComplete := false, user := None)
  }

  /** Entering and then leaving guest mode returns an anonymous session to where it was. */
  lemma GuestRoundTrip(s: SessionState, now: string)
    requires s.user.None? && !s.isGuest && !s.isProfileComplete
    ensures AfterExitGuestMode(AfterEnterGuestMode(s, now)) == s
  {
  }

  /**
   * `updateProfile(updates)`: throws when there is no user; otherwise the user becomes the merged
   * record with its completeness recomputed from the merge; nothing else changes.
   */
  function AfterUpdateProfile(s: SessionState, updates: UserPatch): (r: Step)
    ensures s.user.None? ==> r == Step(s, Threw(ErrorObject(NoUserMessage)))
    ensures s.user.Some? ==>
      var merged := Merge(s.user.value, updates);
      && r.outcome == Done
      && r.state.user == Some(merged.(isProfileComplete := Some(CheckProfileCompletion(Some(merged)))))
      && r.state.isProfileComplete == CheckProfileCompletion(Some(merged))
      && r.state.isGuest == s.isGuest && r.state.isLoading == s.isLoading
      && r.state.error == s.error && r.state.storage == s.storage
  {
    match s.user
    case None => Step(s, Threw(ErrorObject(NoUserMessage)))
    case Some(u) => Step(WithUser(s, Merge(u, updates)), Done)
  }

  /** `clearError()` */
  function AfterClearError(s: SessionState): (r: SessionState)
    ensures r.error.None? && r.(error := s.error) == s
  {
    s.(error := None)
  }

  /** The operations a session goes through after mounting. */
  datatype AuthEvent =
    | LoginEvent(rememberMe: bool, signIn: Result<User>)
    | RegisterEvent(signUp: Outcome)
    | LogoutEvent(signOut: Outcome)
    | EnterGuestEvent(now: string)
    | ExitGuestEvent
    | UpdateProfileEvent(updates: UserPatch)
    | ClearErrorEvent

  function Apply(s: SessionState, e: AuthEvent): SessionState
  {
    match e
    case LoginEvent(rememberMe, signIn) => AfterLogin(s, rememberMe, signIn).state
    case RegisterEvent(signUp) => AfterRegister(s, signUp).state
    case LogoutEvent(signOut) => AfterLogout(s, signOut).state
    case EnterGuestEvent(now) => AfterEnterGuestMode(s, now)
    case ExitGuestEvent => AfterExitGuestMode(s)
    case UpdateProfileEvent(updates) => AfterUpdateProfile(s, updates).state
    case ClearErrorEvent => AfterClearError(s)
  }

  function Run(s: SessionState, events: seq<AuthEvent>): SessionState
  {
    if events == [] then s else Apply(Run(s, events[..|events| - 1]), events[|events| - 1])
  }

  /** A successful login. */
  predicate SignsIn(e: AuthEvent)
  {
    e.LoginEvent? && e.signIn.Success?
  }

  /** An event that leaves the user's presence and the guest flag as they were. */
  predicate KeepsIdentity(e: AuthEvent)
  {
    || (e.LoginEvent? && e.signIn.Failure?)
    || (e.LogoutEvent? && e.signOut.Threw?)
    || e.RegisterEvent? || e.UpdateProfileEvent? || e.ClearErrorEvent?
  }

  /** Every event after position `i` keeps the identity. */
  predicate QuietAfter(events: seq<AuthEvent>, i: int)
  {
    forall j :: 0 <= j < |events| && i < j ==> KeepsIdentity(events[j])
  }

  /** Some successful login has been followed only by events that keep the identity. */
  predicate SignInStands(events: seq<AuthEvent>)
  {
    exists i :: 0 <= i < |events| && SignsIn(events[i]) && QuietAfter(events, i)
  }

  lemma ApplyAuthenticated(s: SessionState, e: AuthEvent)
    ensures SignsIn(e) ==> IsAuthenticated(Apply(s, e))
    ensures KeepsIdentity(e) ==> IsAuthenticated(Apply(s, e)) == IsAuthenticated(s)
    ensures !SignsIn(e) && !KeepsIdentity(e) ==> !IsAuthenticated(Apply(s, e))
  {
  }

  /**
   * Over any sequence of operations, the session is authenticated exactly when some login
   * succeeded and everything after it kept the identity (failed logins and logouts, registration,
   * profile updates, clearing the error), or when it started authenticated and every operation
   * kept the identity. A guest session in particular is never authenticated.
   */
  lemma {:induction false} AuthenticatedIffSignInStands(s: SessionState, events: seq<AuthEvent>)
    ensures IsAuthenticated(Run(s, events)) <==>
              SignInStands(events) || (IsAuthenticated(s) && QuietAfter(events, -1))
  {
    if events != [] {
      var n := |events|;
      var before, e := events[..n - 1], events[n - 1];
      AuthenticatedIffSignInStands(s, before);
      ApplyAuthenticated(Run(s, before), e);
      assert forall j :: 0 <= j < n - 1 ==> events[j] == before[j];
      if SignsIn(e) {
        assert QuietAfter(events, n - 1);
      } else if KeepsIdentity(e) {
        if SignInStands(before) {
          var i :| 0 <= i < n - 1 && SignsIn(before[i]) && QuietAfter(before, i);
          assert SignsIn(events[i]) && QuietAfter(events, i);
        }
        if SignInStands(events) {
          var i :| 0 <= i < n && SignsIn(events[i]) && QuietAfter(events, i);
          assert SignsIn(before[i]) && QuietAfter(before, i);
        }
      } else {
        if SignInStands(events) {
          var i :| 0 <= i < n && SignsIn(events[i]) && QuietAfter(events, i);
          assert false;
        }
        assert !QuietAfter(events, -1);
      }
    }
  }

  /** Starting anonymous, a session is authenticated exactly when a sign-in still stands. */
  lemma AnonymousStart(storage: map<string, string>, events: seq<AuthEvent>)
    ensures IsAuthenticated(Run(Initial(storage), events)) <==> SignInStands(events)
  {
    AuthenticatedIffSignInStands(Initial(storage), events);
  }

  lemma ApplyConsistent(s: SessionState, e: AuthEvent)
    requires Consistent(s)
    ensures Consistent(Apply(s, e))
  {
  }

  lemma CheckAuthStateConsistent(s: SessionState, lookup: Result<Option<User>>)
    requires Consistent(s)
    ensures Consistent(AfterCheckAuthState(s, lookup))
  {
  }

  /** Every operation keeps the completeness flag equal to the one stored in the user record. */
  lemma {:induction false} RunConsistent(s: SessionState, events: seq<AuthEvent>)
    requires Consistent(s)
    ensures Consistent(Run(s, events))
  {
    if events != [] {
      RunConsistent(s, events[..|events| - 1]);
      ApplyConsistent(Run(s, events[..|events| - 1]), events[|events| - 1]);
    }
  }

  /** The authentication context as the component holds it: one field per piece of state. */
  class AuthProvider {
    var user: Option<User>
    var isGuest: bool
    var isLoading: bool
    var error: Option<string>
    var isProfileComplete: bool
    var storage: map<string, string>

    function State(): SessionState
      reads this
    {
      SessionState(user, isGuest, isLoading, error, isProfileComplete, storage)
    }

    ghost predicate Valid()
      reads this
    {
      Consistent(State())
    }

    constructor (storage: map<string, string>)
      ensures State() == Initial(storage) && Valid()
    {
      user := None;
      isLoading := true;
      isGuest := false;
      error := None;
      isProfileComplete := false;
      this.storage := storage;
    }

    method CheckAuthState(lookup: Result<Option<User>>)
      requires Valid()
      modifies this
      ensures State() == AfterCheckAuthState(old(State()), lookup) && Valid()
    {
      CheckAuthStateConsistent(State(), lookup);
      if lookup.Success? && lookup.value.Some? {
        var currentUser := lookup.value.value;
        var profileCompleted := CheckProfileCompletion(Some(currentUser));
        user := Some(currentUser.(isProfileComplete := Some(profileCompleted)));
        isProfileComplete := profileCompleted;
      } else {
        user := None;
        isProfileComplete := false;
      }
      isLoading := false;
    }

    /** `signIn` is how `authService.signIn(email, password)` ended. */
    method Login(rememberMe: bool, signIn: Result<User>) returns (outcome: Outcome)
      requires Valid()
      modifies this
      ensures Step(State(), outcome) == AfterLogin(old(State()), rememberMe, signIn) && Valid()
    {
      ApplyConsistent(State(), LoginEvent(rememberMe, signIn));
      isLoading := true;
      error := None;
      match signIn {
        case Success(u) =>
          var profileCompleted := CheckProfileCompletion(Some(u));
          user := Some(u.(isProfileComplete := Some(profileCompleted)));
          isProfileComplete := profileCompleted;
          isGuest := false;
          if rememberMe {
            storage := storage[RememberUserKey := "true"];
          }
          outcome := Done;
        case Failure(e) =>
          error := Some(MessageOr(e, LoginFailedMessage));
          outcome := Threw(e);
      }
      isLoading := false;
    }

    /** `signUp` is how `authService.signUp(firstName, lastName, email, password)` ended. */
    method Register(signUp: Outcome) returns (outcome: Outcome)
      requires Valid()
      modifies this
      ensures Step(State(), outcome) == AfterRegister(old(State()), signUp) && Valid()
    {
      isLoading := true;
      outcome := signUp;
      isLoading := false;
    }

    /** `signOut` is how `authService.signOut()` ended. */
    method Logout(signOut: Outcome) returns (outcome: Outcome)
      requires Valid()
      modifies this
      ensures Step(State(), outcome) == AfterLogout(old(State()), signOut) && Valid()
    {
      isLoading := true;
      if signOut.Done? {
        user := None;
        isGuest := false;
        isProfileComplete := false;
        storage := storage - {RememberUserKey};
      }
      outcome := signOut;
      isLoading := false;
    }

    /** `now` is the timestamp `new Date().toISOString()`. */
    method EnterGuestMode(now: string)
      requires Valid()
      modifies this
      ensures State() == AfterEnterGuestMode(old(State()), now) && Valid()
    {
      isGuest := true;
      isProfileComplete := true;
      user := Some(GuestUser(now));
    }

    method ExitGuestMode()
      requires Valid()
      modifies this
      ensures State() == AfterExitGuestMode(old(State())) && Valid()
    {
      isGuest := false;
      isProfileComplete := false;
      user := None;
    }

    method ClearError()
      requires Valid()
      modifies this
      ensures State() == AfterClearError(old(State())) && Valid()
    {
      error := None;
    }

    method UpdateProfile(updates: UserPatch) returns (outcome: Outcome)
      requires Valid()
      modifies this
      ensures Step(State(), outcome) == AfterUpdateProfile(old(State()), updates) && Valid()
    {
      ApplyConsistent(State(), UpdateProfileEvent(updates));
      if user.None? {
        return Threw(ErrorObject(NoUserMessage));
      }
      var updatedUser := Merge(user.value, updates);
      var profileCompleted := CheckProfileCompletion(Some(updatedUser));
      user := Some(updatedUser.(isProfileComplete := Some(profileCompleted)));
      isProfileComplete := profileCompleted;
      outcome := Done;
    }
  }
}
