/**
 * The auth store: a local sign-in state machine with four actions. There is
 * no server: every signed-in user is the one local user.
 */
module Auth {
  import opened Wrappers

  datatype UserProfile = UserProfile(
    id: string,
    email: string,
    name: string,
    university: Option<string>,
    major: Option<string>,
    grade: Option<string>)

  const LocalUserId: string := "local-user"
  const DefaultName: string := "학생"

  /** The user `login` signs in: the local user, named as given or by the default name. */
  function LoginUser(email: string, name: Option<string>): (u: UserProfile)
    ensures u.id == LocalUserId && u.email == email
    ensures u.name == if name.Some? then name.value else DefaultName
    ensures u.university.None? && u.major.None? && u.grade.None?
  {
    UserProfile(LocalUserId, email, if name.Some? then name.value else DefaultName, None, None, None)
  }

  /** The user `register` signs in. */
  function RegisteredUser(email: string, name: string, university: Option<string>): (u: UserProfile)
    ensures u.id == LocalUserId && u.email == email && u.name == name && u.university == university
    ensures u.major.None? && u.grade.None?
  {
    UserProfile(LocalUserId, email, name, university, None, None)
  }

  /** `{ ...user, major, grade, university }` */
  function Onboarded(u: UserProfile, major: string, grade: string, university: string): UserProfile {
    u.(major := Some(major), grade := Some(grade), university := Some(university))
  }

  /**
   * Onboarding keeps who the user is (id, email, name) and overwrites the
   * three study fields; onboarding again overwrites them again, so the last
   * answers win.
   */
  lemma OnboardingKeepsIdentity(u: UserProfile, major: string, grade: string, university: string)
    ensures var v := Onboarded(u, major, grade, university);
      v.id == u.id && v.email == u.email && v.name == u.name
      && v.major == Some(major) && v.grade == Some(grade) && v.university == Some(university)
  {
  }

  lemma OnboardingLastWins(u: UserProfile, m1: string, g1: string, u1: string, m2: string, g2: string, u2: string)
    ensures Onboarded(Onboarded(u, m1, g1, u1), m2, g2, u2) == Onboarded(u, m2, g2, u2)
  {
  }

  /** The auth store. */
  class AuthStore {
    var isAuthenticated: bool
    var hasOnboarded: bool
    var user: Option<UserProfile>

    /**
     * What every action keeps: the store is signed in exactly when it holds a
     * user, and that user is the local user.
     */
    predicate Valid()
      reads this
    {
      (isAuthenticated <==> user.Some?) && (user.Some? ==> user.value.id == LocalUserId)
    }

    /** The state the store starts in and `logout` returns to. */
    predicate IsInitial()
      reads this
    {
      !isAuthenticated && !hasOnboarded && user.None?
    }

    constructor()
      ensures IsInitial() && Valid()
    {
      isAuthenticated := false;
      hasOnboarded := false;
      user := None;
    }

    /** `login`: signs in, leaving the onboarding flag as it was. */
    method Login(email: string, name: Option<string>)
      modifies this
      ensures isAuthenticated && user == Some(LoginUser(email, name))
      ensures hasOnboarded == old(hasOnboarded)
      ensures Valid()
    {
      isAuthenticated := true;
      user := Some(LoginUser(email, name));
    }

    /** `register`: signs in a new user, who still has to be onboarded. */
    method Register(email: string, name: string, university: Option<string>)
      modifies this
      ensures isAuthenticated && !hasOnboarded && user == Some(RegisteredUser(email, name, university))
      ensures Valid()
    {
      isAuthenticated := true;
      hasOnboarded := false;
      user := Some(RegisteredUser(email, name, university));
    }

    /** `completeOnboarding`: always marks onboarding done; a missing user stays missing. */
    method CompleteOnboarding(major: string, grade: string, university: string)
      requires Valid()
      modifies this
      ensures hasOnboarded
      ensures isAuthenticated == old(isAuthenticated)
      ensures user == if old(user).Some? then Some(Onboarded(old(user).value, major, grade, university)) else None
      ensures Valid()
    {
      hasOnboarded := true;
      user := if user.Some? then Some(Onboarded(user.value, major, grade, university)) else None;
    }

    /** `logout`: back to the initial state, from any state. */
    method Logout()
      modifies this
      ensures IsInitial() && Valid()
    {
      isAuthenticated := false;
      hasOnboarded := false;
      user := None;
    }
  }
}
