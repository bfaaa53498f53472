/** `AuthSystem`: registration, sign-in, sign-out and profile updates over the `users` and
    `currentUser` keys. Every method is static, so the methods take the storage they work on. */
module Auth {
  import opened Base
  import opened Model
  import opened Storage

  datatype AuthError =
    | MissingFields
    | EmailTaken
    | InvalidEmail
    | ShortPassword
    | BadCredentials
    | NotLoggedIn
    | UnknownUser

  /** The message each thrown `Error` carries. */
  function Message(e: AuthError): string
  {
    match e
    case MissingFields => "All fields are required"
    case EmailTaken => "User already exists with this email"
    case InvalidEmail => "Please enter a valid email address"
    case ShortPassword => "Password must be at least 6 characters long"
    case BadCredentials => "Invalid email or password"
    case NotLoggedIn => "No user logged in"
    case UnknownUser => "User not found"
  }

  /** `/^[^\s@]+@[^\s@]+\.[^\s@]+$/`: no white space, exactly one `@` with something before it, and a
      `.` after the `@` with something on both sides of it. */
  predicate ValidEmail(s: string)
  {
    && NoSpace(s)
    && exists i, k | 0 < i < |s| && 0 <= k < |s| ::
         && i + 1 < k < |s| - 1
         && s[i] == '@' && s[k] == '.'
         && forall j :: 0 <= j < |s| && j != i ==> s[j] != '@'
  }

  /** Lower-casing keeps an address valid: it touches neither white space, `@` nor `.`. */
  lemma LowerKeepsValidEmail(s: string)
    requires ValidEmail(s)
    ensures ValidEmail(Lower(s))
    ensures NoSpace(Lower(s))
  {
    LowerKeepsSpaces(s);
    var i, k :| 0 < i < |s| && 0 <= k < |s| && i + 1 < k < |s| - 1 && s[i] == '@' && s[k] == '.'
                && forall j :: 0 <= j < |s| && j != i ==> s[j] != '@';
    var t := Lower(s);
    assert t[i] == '@' && t[k] == '.';
    assert forall j :: 0 <= j < |t| && j != i ==> t[j] != '@';
  }

  const AdminEmails: seq<string> := ["admin@ir7.com"]

  /** `['admin@ir7.com'].includes(email)`. */
  predicate IsAdminEmail(email: string)
  {
    email in AdminEmails
  }

  /** The list holds one address, so membership is equality with it. */
  lemma AdminEmailIsOne(email: string)
    ensures IsAdminEmail(email) <==> email == "admin@ir7.com"
  {
  }

  /** `users.find(user => user.email.toLowerCase() === email.toLowerCase())` finds someone. */
  predicate EmailInUse(users: seq<User>, email: string)
  {
    exists i | 0 <= i < |users| :: Lower(users[i].email) == Lower(email)
  }

  /** No two registered users share an address, ignoring case. */
  ghost predicate DistinctEmails(users: seq<User>)
  {
    forall i, j :: 0 <= i < j < |users| ==> Lower(users[i].email) != Lower(users[j].email)
  }

  // ---------------------------------------------------------------------------
  // Sign-up
  // ---------------------------------------------------------------------------

  /** The fields of the registration form. */
  datatype SignUpForm = SignUpForm(firstName: string, lastName: string, email: string, password: string, phone: string)

  predicate AllFieldsGiven(form: SignUpForm)
  {
    form.firstName != "" && form.lastName != "" && form.email != "" && form.password != "" && form.phone != ""
  }

  /** The outcome of `signUp(form)`, with `Date.now()` as `clock` and the ISO time as `createdAt`: the
      first failing check in the order the code makes them, or the new user record. */
  function SignUpResult(users: seq<User>, form: SignUpForm, clock: nat, createdAt: string): (r: Result<User, AuthError>)
    ensures !AllFieldsGiven(form) ==> r == Err(MissingFields)
    ensures AllFieldsGiven(form) && EmailInUse(users, form.email) ==> r == Err(EmailTaken)
    ensures r.Ok? <==> AllFieldsGiven(form) && !EmailInUse(users, form.email) && ValidEmail(form.email) && Utf16Length(form.password) >= 6
    ensures r.Ok? ==> r.value == NewUser(form, clock, createdAt)
    ensures r.Err? ==> r.error in {MissingFields, EmailTaken, InvalidEmail, ShortPassword}
  {
    if !AllFieldsGiven(form) then Err(MissingFields)
    else if EmailInUse(users, form.email) then Err(EmailTaken)
    else if !ValidEmail(form.email) then Err(InvalidEmail)
    else if Utf16Length(form.password) < 6 then Err(ShortPassword)
    else Ok(NewUser(form, clock, createdAt))
  }

  /** The record `signUp` stores: trimmed names and phone, the address lower-cased then trimmed, the
      password as typed, and `Date.now().toString()` as the id. */
  function NewUser(form: SignUpForm, clock: nat, createdAt: string): User
  {
    User(Decimal(clock), Trim(form.firstName), Trim(form.lastName), Trim(Lower(form.email)),
         form.password, Trim(form.phone), IsAdminEmail(Lower(form.email)), createdAt, None)
  }

  /** For a valid address, the stored one is just its lower-case form, still valid. */
  lemma NewUserNormalized(form: SignUpForm, clock: nat, createdAt: string)
    requires ValidEmail(form.email)
    ensures NewUser(form, clock, createdAt).email == Lower(form.email)
    ensures ValidEmail(Lower(form.email))
  {
    LowerKeepsValidEmail(form.email);
    TrimNoSpace(Lower(form.email));
  }

  /** A new user is the record `NewUser` builds, stored with the lower-cased address, which is still
      valid, with the password as typed, the clock's digits as id, and no login time. */
  lemma SignUpStoresNormalized(users: seq<User>, form: SignUpForm, clock: nat, createdAt: string)
    requires SignUpResult(users, form, clock, createdAt).Ok?
    ensures var u := SignUpResult(users, form, clock, createdAt).value;
            && u == NewUser(form, clock, createdAt)
            && u.email == Lower(form.email)
            && ValidEmail(u.email)
            && u.password == form.password
            && u.id == Decimal(clock) && u.createdAt == createdAt && u.lastLogin == None
  {
    var u := SignUpResult(users, form, clock, createdAt).value;
    assert u == NewUser(form, clock, createdAt);
    NewUserNormalized(form, clock, createdAt);
  }

  /** A new user is an administrator exactly when the lower-cased address typed is `admin@ir7.com`. */
  lemma SignUpAdminFlag(users: seq<User>, form: SignUpForm, clock: nat, createdAt: string)
    requires SignUpResult(users, form, clock, createdAt).Ok?
    ensures SignUpResult(users, form, clock, createdAt).value.isAdmin <==> Lower(form.email) == "admin@ir7.com"
  {
    var u := SignUpResult(users, form, clock, createdAt).value;
    assert u == NewUser(form, clock, createdAt);
    assert u.isAdmin == IsAdminEmail(Lower(form.email));
    AdminEmailIsOne(Lower(form.email));
  }

  /** Case-insensitive lookup cannot tell two addresses with the same lower-case form apart. */
  lemma EmailInUseIgnoresCase(users: seq<User>, a: string, b: string)
    requires Lower(a) == Lower(b)
    ensures EmailInUse(users, a) == EmailInUse(users, b)
  {
  }

  /** Appending a user whose address is not yet in use, ignoring case, keeps the addresses distinct. */
  lemma AppendFreshKeepsDistinct(users: seq<User>, u: User)
    requires DistinctEmails(users)
    requires !EmailInUse(users, u.email)
    ensures DistinctEmails(users + [u])
  {
    var all := users + [u];
    forall i, j | 0 <= i < j < |all| ensures Lower(all[i].email) != Lower(all[j].email) {
      assert all[i] == users[i];
      if j == |users| {
        assert Lower(users[i].email) != Lower(u.email);
      } else {
        assert all[j] == users[j];
      }
    }
  }

  /** After appending a user, that user's address is in use. */
  lemma AppendedInUse(users: seq<User>, u: User, email: string)
    requires Lower(u.email) == Lower(email)
    ensures EmailInUse(users + [u], email)
  {
    assert (users + [u])[|users|] == u;
  }

  /** The address a new user is stored under has the same lower-case form as the one typed. */
  lemma StoredEmailSameCase(users: seq<User>, form: SignUpForm, clock: nat, createdAt: string)
    requires SignUpResult(users, form, clock, createdAt).Ok?
    ensures Lower(SignUpResult(users, form, clock, createdAt).value.email) == Lower(form.email)
    ensures !EmailInUse(users, form.email)
  {
    var u := SignUpResult(users, form, clock, createdAt).value;
    assert u == NewUser(form, clock, createdAt);
    NewUserNormalized(form, clock, createdAt);
    LowerIdempotent(form.email);
  }

  /** Registration never admits a second account for an address, ignoring case. */
  lemma SignUpKeepsEmailsDistinct(users: seq<User>, form: SignUpForm, clock: nat, createdAt: string)
    requires DistinctEmails(users)
    requires SignUpResult(users, form, clock, createdAt).Ok?
    ensures DistinctEmails(users + [SignUpResult(users, form, clock, createdAt).value])
  {
    var u := SignUpResult(users, form, clock, createdAt).value;
    StoredEmailSameCase(users, form, clock, createdAt);
    EmailInUseIgnoresCase(users, u.email, form.email);
    AppendFreshKeepsDistinct(users, u);
  }

  /** Registering the same address again, in any letter case, is refused as taken. */
  lemma SignUpTwiceRefused(users: seq<User>, form: SignUpForm, again: SignUpForm, clock: nat, clock': nat, createdAt: string, createdAt': string)
    requires SignUpResult(users, form, clock, createdAt).Ok?
    requires AllFieldsGiven(again) && Lower(again.email) == Lower(form.email)
    ensures SignUpResult(users + [SignUpResult(users, form, clock, createdAt).value], again, clock', createdAt') == Err(EmailTaken)
  {
    var u := SignUpResult(users, form, clock, createdAt).value;
    StoredEmailSameCase(users, form, clock, createdAt);
    AppendedInUse(users, u, again.email);
  }

  /** `AuthSystem.signUp`: on success the user is appended to `users` and becomes the session. */
  method SignUp(store: LocalStorage, form: SignUpForm, clock: nat, createdAt: string) returns (result: Result<User, AuthError>)
    modifies store`users, store`currentUser
    ensures result == SignUpResult(old(store.users), form, clock, createdAt)
    ensures result.Ok? ==> store.users == old(store.users) + [result.value] && store.currentUser == Some(result.value)
    ensures result.Err? ==> store.users == old(store.users) && store.currentUser == old(store.currentUser)
  {
    result := SignUpResult(store.users, form, clock, createdAt);
    if result.Ok? {
      store.users := store.users + [result.value];
      store.currentUser := Some(result.value);
    }
  }

  // ---------------------------------------------------------------------------
  // Sign-in
  // ---------------------------------------------------------------------------

  predicate Matches(u: User, email: string, password: string)
  {
    Lower(u.email) == Lower(email) && u.password == password
  }

  /** The first user whose address matches ignoring case and whose password matches exactly. */
  function FindUser(users: seq<User>, email: string, password: string): (r: Option<nat>)
    ensures r.Some? ==> r.value < |users| && Matches(users[r.value], email, password)
    ensures r.Some? ==> forall j :: 0 <= j < r.value ==> !Matches(users[j], email, password)
    ensures r.None? <==> forall j :: 0 <= j < |users| ==> !Matches(users[j], email, password)
  {
    if users == [] then None
    else if Matches(users[0], email, password) then Some(0)
    else match FindUser(users[1..], email, password)
      case Some(i) => Some(i + 1)
      case None => None
  }

  /** The session record `signIn` produces for a stored user: the stored fields, `isAdmin` recomputed
      from the address, and the login time. */
  function SessionOf(u: User, now: string): User
  {
    u.(isAdmin := IsAdminEmail(Lower(u.email)), lastLogin := Some(now))
  }

  /** The outcome of `signIn(email, password)` at time `now`. */
  function SignInResult(users: seq<User>, email: string, password: string, now: string): (r: Result<User, AuthError>)
    ensures r.Ok? <==> exists i :: 0 <= i < |users| && Matches(users[i], email, password)
    ensures r.Ok? ==> exists i :: 0 <= i < |users| && Matches(users[i], email, password) && r.value == SessionOf(users[i], now)
    ensures r.Ok? ==> FindUser(users, email, password).Some?
                      && r.value == SessionOf(users[FindUser(users, email, password).value], now)
    ensures r.Err? ==> r.error == BadCredentials
  {
    match FindUser(users, email, password)
    case Some(i) => Ok(SessionOf(users[i], now))
    case None => Err(BadCredentials)
  }

  /** When no earlier user has the address, a user appended with matching credentials is the one
      signed in. */
  lemma SignInAppended(users: seq<User>, u: User, email: string, password: string, now: string)
    requires !EmailInUse(users, email)
    requires Matches(u, email, password)
    ensures SignInResult(users + [u], email, password, now) == Ok(SessionOf(u, now))
  {
    var all := users + [u];
    assert all[|users|] == u;
    forall j | 0 <= j < |users| ensures !Matches(all[j], email, password) {
      assert all[j] == users[j];
    }
    assert FindUser(all, email, password) == Some(|users|);
  }

  /** Whoever has just registered can sign in with the address and password they gave, and gets their
      own record back with the login time. */
  lemma SignUpThenSignIn(users: seq<User>, form: SignUpForm, clock: nat, createdAt: string, now: string)
    requires SignUpResult(users, form, clock, createdAt).Ok?
    ensures var u := SignUpResult(users, form, clock, createdAt).value;
            SignInResult(users + [u], form.email, form.password, now) == Ok(u.(lastLogin := Some(now)))
  {
    var u := SignUpResult(users, form, clock, createdAt).value;
    StoredEmailSameCase(users, form, clock, createdAt);
    assert u == NewUser(form, clock, createdAt);
    SessionOfNewUser(form, clock, createdAt, now);
    SignInAppended(users, u, form.email, form.password, now);
  }

  /** A new user's flag already agrees with its address, so the session made from it differs only in
      its login time. */
  lemma SessionOfNewUser(form: SignUpForm, clock: nat, createdAt: string, now: string)
    requires NoSpace(form.email)
    ensures SessionOf(NewUser(form, clock, createdAt), now) == NewUser(form, clock, createdAt).(lastLogin := Some(now))
  {
    LowerKeepsSpaces(form.email);
    var e := Lower(form.email);
    assert NoSpace(e);
    TrimNoSpace(e);
    LowerIdempotent(form.email);
    assert Lower(NewUser(form, clock, createdAt).email) == e;
  }

  /** `AuthSystem.signIn`: only the session is written; `users` is left as it was. */
  method SignIn(store: LocalStorage, email: string, password: string, now: string) returns (result: Result<User, AuthError>)
    modifies store`currentUser
    ensures result == SignInResult(store.users, email, password, now)
    ensures result.Ok? ==> store.currentUser == Some(result.value)
    ensures result.Err? ==> store.currentUser == old(store.currentUser)
  {
    result := SignInResult(store.users, email, password, now);
    if result.Ok? {
      store.currentUser := Some(result.value);
    }
  }

  // ---------------------------------------------------------------------------
  // Session
  // ---------------------------------------------------------------------------

  /** `AuthSystem.isAuthenticated`. */
  predicate IsAuthenticated(store: LocalStorage)
    reads store
  {
    store.currentUser.Some?
  }

  /** `AuthSystem.isAdmin`: the session's own flag, false without a session. */
  predicate IsAdmin(store: LocalStorage)
    reads store
  {
    store.currentUser.Some? && store.currentUser.value.isAdmin
  }

  /** `AuthSystem.signOut`. */
  method SignOut(store: LocalStorage)
    modifies store`currentUser
    ensures store.currentUser == None
    ensures !IsAuthenticated(store) && !IsAdmin(store)
  {
    store.currentUser := None;
  }

  // ---------------------------------------------------------------------------
  // Profile update
  // ---------------------------------------------------------------------------

  /** The keys a profile update may carry; an absent key keeps the stored value. */
  datatype ProfilePatch = ProfilePatch(
    firstName: Option<string>,
    lastName: Option<string>,
    email: Option<string>,
    password: Option<string>,
    phone: Option<string>)

  function Pick(patched: Option<string>, stored: string): string
  {
    if patched.Some? then patched.value else stored
  }

  /** `{...u, ...patch}`. */
  function Merge(u: User, patch: ProfilePatch): (r: User)
    ensures r.id == u.id && r.isAdmin == u.isAdmin && r.createdAt == u.createdAt && r.lastLogin == u.lastLogin
  {
    u.(firstName := Pick(patch.firstName, u.firstName),
       lastName := Pick(patch.lastName, u.lastName),
       email := Pick(patch.email, u.email),
       password := Pick(patch.password, u.password),
       phone := Pick(patch.phone, u.phone))
  }

  /** An empty patch changes nothing, and applying a patch twice is applying it once. */
  lemma MergeLaws(u: User, patch: ProfilePatch)
    ensures Merge(u, ProfilePatch(None, None, None, None, None)) == u
    ensures Merge(Merge(u, patch), patch) == Merge(u, patch)
  {
  }

  /** `users.findIndex(u => u.id === id)`. */
  function UserIndex(users: seq<User>, id: string): (r: Option<nat>)
    ensures r.Some? ==> r.value < |users| && users[r.value].id == id
    ensures r.Some? ==> forall j :: 0 <= j < r.value ==> users[j].id != id
    ensures r.None? <==> forall j :: 0 <= j < |users| ==> users[j].id != id
  {
    if users == [] then None
    else if users[0].id == id then Some(0)
    else match UserIndex(users[1..], id)
      case Some(i) => Some(i + 1)
      case None => None
  }

  /** `AuthSystem.updateProfile(patch)`: the stored record of the session's user is merged with the
      patch and becomes the session; nothing is written when no one is signed in or the id is unknown. */
  method UpdateProfile(store: LocalStorage, patch: ProfilePatch) returns (result: Result<User, AuthError>)
    modifies store`users, store`currentUser
    ensures old(store.currentUser).None? ==> result == Err(NotLoggedIn)
    ensures old(store.currentUser).Some? && UserIndex(old(store.users), old(store.currentUser).value.id).None?
            ==> result == Err(UnknownUser)
    ensures old(store.currentUser).Some? && UserIndex(old(store.users), old(store.currentUser).value.id).Some?
            ==> result.Ok?
    ensures result.Err? ==> store.users == old(store.users) && store.currentUser == old(store.currentUser)
    ensures result.Ok? ==>
              && old(store.currentUser).Some?
              && var i := UserIndex(old(store.users), old(store.currentUser).value.id);
                 && i.Some?
                 && result.value == Merge(old(store.users)[i.value], patch)
                 && store.users == old(store.users)[i.value := result.value]
                 && store.currentUser == Some(result.value)
  {
    if store.currentUser.None? {
      return Err(NotLoggedIn);
    }
    var i := UserIndex(store.users, store.currentUser.value.id);
    if i.None? {
      return Err(UnknownUser);
    }
    var updated := Merge(store.users[i.value], patch);
    store.users := store.users[i.value := updated];
    store.currentUser := Some(updated);
    result := Ok(updated);
  }
}
