/**
 * The authentication store (store/authStore.ts). Identity-provider and document-store
 * calls are inputs: the credential a sign-up or sign-in yields (or what it threw), the
 * outcome of a profile write, and what a profile read found. Each action returns
 * whether it re-throws.
 */
module AuthStore {
  import opened Wrappers

  /** The part of the identity provider's user the store reads. */
  datatype AuthUser = AuthUser(uid: string, email: Option<string>)

  datatype UserProfile = UserProfile(
    id: string,
    email: string,
    displayName: Option<string>,
    photoURL: Option<string>,
    createdAt: int,
    interests: Option<seq<string>>,
    learningGoals: Option<seq<string>>,
    lastActive: Option<int>)

  /** `Partial<UserProfile>`: a field is `Some` when the patch supplies it. */
  datatype ProfilePatch = ProfilePatch(
    id: Option<string>,
    email: Option<string>,
    displayName: Option<string>,
    photoURL: Option<string>,
    createdAt: Option<int>,
    interests: Option<seq<string>>,
    learningGoals: Option<seq<string>>,
    lastActive: Option<int>)

  const EmptyPatch: ProfilePatch := ProfilePatch(None, None, None, None, None, None, None, None)

  /** What reading the profile document gave. */
  datatype ProfileRead = Found(profile: UserProfile) | Missing | ReadFailed(thrown: Thrown)

  const NotAuthenticated: string := "Usuário não autenticado"

  /** JavaScript's `s || fallback` for a string that may be absent: absent and '' both fall back. */
  function OrElse(s: Option<string>, fallback: string): (r: string)
    ensures s.Some? && s.value != "" ==> r == s.value
    ensures s.None? || s.value == "" ==> r == fallback
  {
    if s.Some? && s.value != "" then s.value else fallback
  }

  /** The profile sign-up writes for a fresh account. */
  function NewProfile(user: AuthUser, email: string, displayName: Option<string>, now: int): UserProfile
  {
    UserProfile(user.uid, OrElse(user.email, email), Some(OrElse(displayName, "")), None, now, None, None, None)
  }

  /** `{ ...profile, ...data, lastActive: now }`. */
  function MergeProfile(p: UserProfile, d: ProfilePatch, now: int): UserProfile
  {
    UserProfile(
      if d.id.Some? then d.id.value else p.id,
      if d.email.Some? then d.email.value else p.email,
      if d.displayName.Some? then d.displayName else p.displayName,
      if d.photoURL.Some? then d.photoURL else p.photoURL,
      if d.createdAt.Some? then d.createdAt.value else p.createdAt,
      if d.interests.Some? then d.interests else p.interests,
      if d.learningGoals.Some? then d.learningGoals else p.learningGoals,
      Some(now))
  }

  /** Two patches applied one after the other, the later one winning field by field. */
  function ThenPatch(a: ProfilePatch, b: ProfilePatch): ProfilePatch
  {
    ProfilePatch(
      if b.id.Some? then b.id else a.id,
      if b.email.Some? then b.email else a.email,
      if b.displayName.Some? then b.displayName else a.displayName,
      if b.photoURL.Some? then b.photoURL else a.photoURL,
      if b.createdAt.Some? then b.createdAt else a.createdAt,
      if b.interests.Some? then b.interests else a.interests,
      if b.learningGoals.Some? then b.learningGoals else a.learningGoals,
      if b.lastActive.Some? then b.lastActive else a.lastActive)
  }

  /** The profile `refreshUserProfile` leaves, given the stored user and what the read found. */
  function RefreshedProfile(user: Option<AuthUser>, profile: Option<UserProfile>, read: ProfileRead)
    : Option<UserProfile>
  {
    if user.Some? && read.Found? then Some(read.profile) else profile
  }

  class AuthStore {
    var user: Option<AuthUser>
    var profile: Option<UserProfile>
    var isLoading: bool
    var error: Option<string>
    var isAuthenticated: bool

    /** The session invariant every action keeps: authenticated exactly when a user is stored. */
    ghost predicate Valid()
      reads this
    {
      isAuthenticated == user.Some? && (profile.Some? ==> user.Some?)
    }

    constructor ()
      ensures user.None? && profile.None? && !isLoading && error.None? && !isAuthenticated
      ensures Valid()
    {
      user, profile, isLoading, error, isAuthenticated := None, None, false, None, false;
    }

    /** `set({ isLoading: true, error: null })`, issued before an action calls out. */
    method BeginRequest()
      modifies this`isLoading, this`error
      ensures isLoading && error.None?
    {
      isLoading, error := true, None;
    }

    /** The shared catch block: stop loading, record the message, re-throw. */
    method Fail(t: Thrown, fallback: string) returns (outcome: Outcome)
      modifies this`isLoading, this`error
      ensures !isLoading && error == Some(CaughtMessage(t, fallback))
      ensures outcome == Threw(t)
    {
      isLoading, error := false, Some(CaughtMessage(t, fallback));
      outcome := Threw(t);
    }

    /** `signUp`: create the account, write its profile, then store both. */
    method SignUp(email: string, displayName: Option<string>, created: Result<AuthUser>,
                  saved: Outcome, now: int)
      returns (outcome: Outcome)
      modifies this
      ensures old(Valid()) ==> Valid()
      ensures created.Err? ==> outcome == Threw(created.thrown)
      ensures created.Ok? && saved.Threw? ==> outcome == Threw(saved.thrown)
      ensures outcome.Threw? ==>
                !isLoading && error == Some(CaughtMessage(outcome.thrown, "Erro no cadastro"))
                && user == old(user) && profile == old(profile) && isAuthenticated == old(isAuthenticated)
      ensures created.Ok? && saved.Done? ==>
                outcome == Done && user == Some(created.value)
                && profile == Some(NewProfile(created.value, email, displayName, now))
                && isAuthenticated && !isLoading && error.None?
    {
      BeginRequest();
      if created.Err? {
        outcome := Fail(created.thrown, "Erro no cadastro");
        return;
      }
      var u := created.value;
      var userProfile := NewProfile(u, email, displayName, now);
      if saved.Threw? {
        outcome := Fail(saved.thrown, "Erro no cadastro");
        return;
      }
      user, profile, isLoading, isAuthenticated := Some(u), Some(userProfile), false, true;
      outcome := Done;
    }

    /**
     * `signIn`. The profile refresh runs before the new user is stored, so it reads
     * the user that was stored before the call.
     */
    method SignIn(signedIn: Result<AuthUser>, read: ProfileRead) returns (outcome: Outcome)
      modifies this
      ensures old(Valid()) ==> Valid()
      ensures signedIn.Err? ==>
                outcome == Threw(signedIn.thrown) && !isLoading
                && error == Some(CaughtMessage(signedIn.thrown, "Erro no login"))
                && user == old(user) && profile == old(profile) && isAuthenticated == old(isAuthenticated)
      ensures signedIn.Ok? ==>
                outcome == Done && user == Some(signedIn.value)
                && profile == RefreshedProfile(old(user), old(profile), read)
                && isAuthenticated && !isLoading && error.None?
    {
      BeginRequest();
      if signedIn.Err? {
        outcome := Fail(signedIn.thrown, "Erro no login");
        return;
      }
      RefreshUserProfile(read);
      user, isLoading, isAuthenticated := Some(signedIn.value), false, true;
      outcome := Done;
    }

    /** `signOut`: on success the session is cleared; on failure it is kept. */
    method SignOut(result: Outcome) returns (outcome: Outcome)
      modifies this
      ensures old(Valid()) ==> Valid()
      ensures outcome == result
      ensures result.Threw? ==>
                !isLoading && error == Some(CaughtMessage(result.thrown, "Erro ao fazer logout"))
                && user == old(user) && profile == old(profile) && isAuthenticated == old(isAuthenticated)
      ensures result.Done? ==>
                user.None? && profile.None? && !isAuthenticated && !isLoading && error.None?
    {
      BeginRequest();
      if result.Threw? {
        outcome := Fail(result.thrown, "Erro ao fazer logout");
        return;
      }
      user, profile, isLoading, isAuthenticated := None, None, false, false;
      outcome := Done;
    }

    /**
     * `updateProfile`: needs a stored profile and user; merges `data` over the profile,
     * stamps `lastActive`, writes it, and installs it once the write succeeds.
     */
    method UpdateProfile(data: ProfilePatch, saved: Outcome, now: int) returns (outcome: Outcome)
      modifies this
      ensures old(Valid()) ==> Valid()
      ensures user == old(user) && isAuthenticated == old(isAuthenticated) && !isLoading
      ensures (old(profile).None? || old(user).None?) ==>
                outcome == Threw(ErrorObject(NotAuthenticated)) && error == Some(NotAuthenticated)
                && profile == old(profile)
      ensures old(profile).Some? && old(user).Some? && saved.Threw? ==>
                outcome == Threw(saved.thrown)
                && error == Some(CaughtMessage(saved.thrown, "Erro ao atualizar perfil"))
                && profile == old(profile)
      ensures old(profile).Some? && old(user).Some? && saved.Done? ==>
                outcome == Done && error.None?
                && profile == Some(MergeProfile(old(profile).value, data, now))
    {
      if profile.None? || user.None? {
        outcome := Fail(ErrorObject(NotAuthenticated), "Erro ao atualizar perfil");
        return;
      }
      BeginRequest();
      var updatedProfile := MergeProfile(profile.value, data, now);
      if saved.Threw? {
        outcome := Fail(saved.thrown, "Erro ao atualizar perfil");
        return;
      }
      profile, isLoading := Some(updatedProfile), false;
      outcome := Done;
    }

    /** `refreshUserProfile`: never throws and never touches `error`. */
    method RefreshUserProfile(read: ProfileRead)
      modifies this`profile
      ensures profile == RefreshedProfile(old(user), old(profile), read)
      ensures old(user).None? || !read.Found? ==> profile == old(profile)
    {
      if user.None? {
        return;
      }
      if read.Found? {
        profile := Some(read.profile);
      }
    }

    method ClearError()
      modifies this`error
      ensures error.None?
    {
      error := None;
    }
  }

  // ---- Properties of the profile record ----

  /** A fresh profile belongs to the new user, keeps an email and always has a display name. */
  lemma NewProfileShape(user: AuthUser, email: string, displayName: Option<string>, now: int)
    ensures var p := NewProfile(user, email, displayName, now);
            && p.id == user.uid
            && (user.email.Some? && user.email.value != "" ==> p.email == user.email.value)
            && (user.email.None? || user.email.value == "" ==> p.email == email)
            && p.displayName.Some?
            && (displayName.None? ==> p.displayName == Some(""))
            && (displayName.Some? ==> p.displayName == displayName)
            && p.createdAt == now && p.lastActive.None?
  {
  }

  /** Every field of a merged profile comes from the patch when supplied, else from the profile. */
  lemma MergeOverrides(p: UserProfile, d: ProfilePatch, now: int)
    ensures var m := MergeProfile(p, d, now);
            && m.id == (if d.id.Some? then d.id.value else p.id)
            && m.email == (if d.email.Some? then d.email.value else p.email)
            && (d.displayName.Some? ==> m.displayName == d.displayName)
            && (d.displayName.None? ==> m.displayName == p.displayName)
            && (d.photoURL.Some? ==> m.photoURL == d.photoURL)
            && (d.photoURL.None? ==> m.photoURL == p.photoURL)
            && m.createdAt == (if d.createdAt.Some? then d.createdAt.value else p.createdAt)
            && (d.interests.Some? ==> m.interests == d.interests)
            && (d.interests.None? ==> m.interests == p.interests)
            && (d.learningGoals.Some? ==> m.learningGoals == d.learningGoals)
            && (d.learningGoals.None? ==> m.learningGoals == p.learningGoals)
            && m.lastActive == Some(now)
  {
  }

  /** An empty patch changes nothing but the activity stamp. */
  lemma MergeEmptyPatch(p: UserProfile, now: int)
    ensures MergeProfile(p, EmptyPatch, now) == p.(lastActive := Some(now))
  {
  }

  /** Two successive updates are one update with the combined patch. */
  lemma MergeComposes(p: UserProfile, a: ProfilePatch, b: ProfilePatch, t1: int, t2: int)
    ensures MergeProfile(MergeProfile(p, a, t1), b, t2) == MergeProfile(p, ThenPatch(a, b), t2)
  {
  }

  /** Re-applying the same update changes nothing more. */
  lemma MergeIdempotent(p: UserProfile, d: ProfilePatch, now: int)
    ensures MergeProfile(MergeProfile(p, d, now), d, now) == MergeProfile(p, d, now)
  {
  }

  /** From a signed-out store, a sign-in leaves the profile as it was. */
  lemma SignInFromSignedOutKeepsProfile(profile: Option<UserProfile>, read: ProfileRead)
    ensures RefreshedProfile(None, profile, read) == profile
  {
  }
}
