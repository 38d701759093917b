/** The mock authentication context: an `AuthProvider` holding the signed-in
    user, a loading flag and the copy of the user kept in browser storage
    under the key `family_app_user`, with the transitions that restore,
    log in, sign up and log out, and the `useAuth` accessor. */
module Auth {
  import opened Js

  /** The signed-in user; `familyId` and `avatar` are optional fields. */
  datatype User = User(
    id: string,
    name: string,
    email: string,
    familyId: Option<string>,
    avatar: Option<string>)

  const LoginUserId: string := "1"
  const DefaultName: string := "Family Member"
  const MockFamilyId: string := "family_123"
  const AvatarSeedUrl: string := "https://api.dicebear.com/7.x/avataaars/svg?seed="
  const MissingProviderMessage: string := "useAuth must be used within an AuthProvider"

  /** The avatar URL both login and signup give a user: the seed URL with the
      email appended as it is (the template literal does not escape it). */
  function AvatarFor(email: string): (r: string)
    ensures |r| == |AvatarSeedUrl| + |email|
    ensures r[..|AvatarSeedUrl|] == "https://api.dicebear.com/7.x/avataaars/svg?seed="
    ensures r[|AvatarSeedUrl|..] == email
  {
    AvatarSeedUrl + email
  }

  /** The display name login derives from an email: the text before the first
      `@`, or `Family Member` when that text is empty. */
  function LoginName(email: string): (r: string)
    ensures r != []
    ensures email == [] || email[0] == '@' ==> r == DefaultName
    ensures email != [] && email[0] != '@' ==>
              '@' !in r && |r| <= |email| && r == email[..|r|] && (|r| == |email| || email[|r|] == '@')
  {
    var prefix := SplitHead(email, '@');
    if prefix == [] then DefaultName else prefix
  }

  /** The user record login builds. */
  function LoginUser(email: string): (u: User)
    ensures u.id == "1" && u.email == email
    ensures u.name == LoginName(email)
    ensures u.name != [] && '@' !in u.name
    ensures u.familyId == Some("family_123") && u.avatar == Some(AvatarFor(email))
  {
    LoginNameHasNoAt(email);
    User(LoginUserId, LoginName(email), email, Some(MockFamilyId), Some(AvatarFor(email)))
  }

  /** The user record signup builds; `id` stands for the random
      base-36 string the source draws. */
  function SignupUser(id: string, name: string, email: string): (u: User)
    ensures u.id == id && u.name == name && u.email == email
    ensures u.familyId == Some("family_123") && u.avatar == Some(AvatarFor(email))
  {
    User(id, name, email, Some(MockFamilyId), Some(AvatarFor(email)))
  }

  /** The name login derives never contains `@`. */
  lemma LoginNameHasNoAt(email: string)
    ensures '@' !in LoginName(email)
  {
    assert '@' !in DefaultName;
  }

  /** The login name of an address with a non-empty local part is that local
      part, whatever follows the first `@`. */
  lemma {:induction false} LoginNameOfAddress(local: string, domain: string)
    requires local != [] && '@' !in local
    ensures LoginName(local + "@" + domain) == local
  {
    var email := local + "@" + domain;
    assert email[..|local|] == local;
    assert email[|local|] == '@';
    SplitHeadUnique(email, '@', local);
  }

  class AuthProvider {
    /** `user` state slot; `None` is `null`. */
    var user: Option<User>
    /** `isLoading` state slot. */
    var isLoading: bool
    /** The `family_app_user` entry of browser storage. */
    var stored: Option<User>

    /** Whenever someone is signed in, the stored copy is that same user. */
    ghost predicate Valid()
      reads this
    {
      user.Some? ==> stored == user
    }

    /** First render: nobody signed in and loading; storage is whatever the
        browser already holds. */
    constructor (storage: Option<User>)
      ensures Valid()
      ensures user == None && isLoading && stored == storage
    {
      user := None;
      isLoading := true;
      stored := storage;
    }

    /** The mount effect: a stored user becomes the current user, and loading
        ends either way. */
    method Restore()
      requires Valid()
      modifies this
      ensures Valid()
      ensures user == (if old(stored).Some? then old(stored) else old(user))
      ensures !isLoading && stored == old(stored)
    {
      if stored.Some? {
        user := stored;
      }
      isLoading := false;
    }

    /** What `login` and `signup` do before their await: set loading. */
    method BeginRequest()
      requires Valid()
      modifies this
      ensures Valid()
      ensures isLoading && user == old(user) && stored == old(stored)
    {
      isLoading := true;
    }

    /** Publishing a new user: set `user`, write storage, end loading. */
    method Publish(u: User)
      modifies this
      ensures Valid()
      ensures user == Some(u) && stored == Some(u) && !isLoading
    {
      user := Some(u);
      stored := Some(u);
      isLoading := false;
    }

    /** `login`'s continuation after the simulated delay. */
    method CompleteLogin(email: string)
      modifies this
      ensures Valid()
      ensures user == Some(LoginUser(email)) && stored == user && !isLoading
    {
      Publish(LoginUser(email));
    }

    /** `signup`'s continuation after the simulated delay. */
    method CompleteSignup(id: string, name: string, email: string)
      modifies this
      ensures Valid()
      ensures user == Some(SignupUser(id, name, email)) && stored == user && !isLoading
    {
      Publish(SignupUser(id, name, email));
    }

    /** `login(email)` with nothing happening during its delay. */
    method Login(email: string)
      requires Valid()
      modifies this
      ensures Valid()
      ensures user == Some(LoginUser(email)) && stored == user && !isLoading
    {
      BeginRequest();
      CompleteLogin(email);
    }

    /** `signup(name, email)` with nothing happening during its delay. */
    method Signup(id: string, name: string, email: string)
      requires Valid()
      modifies this
      ensures Valid()
      ensures user == Some(SignupUser(id, name, email)) && stored == user && !isLoading
    {
      BeginRequest();
      CompleteSignup(id, name, email);
    }

    /** `logout`: nobody signed in and storage cleared; the loading flag is
        left as it was. */
    method Logout()
      modifies this
      ensures Valid()
      ensures user == None && stored == None && isLoading == old(isLoading)
    {
      user := None;
      stored := None;
    }
  }

  /** A logout that lands between `login`'s start and its completion does not
      stop the pending login: the user ends up signed in. */
  method LogoutDuringLogin(p: AuthProvider, email: string)
    requires p.Valid()
    modifies p
    ensures p.Valid()
    ensures p.user == Some(LoginUser(email)) && p.stored == p.user && !p.isLoading
  {
    p.BeginRequest();
    p.Logout();
    assert p.user == None && p.isLoading;
    p.CompleteLogin(email);
  }

  /** `useAuth`: the context when a provider encloses the caller, otherwise
      an error with a fixed message. */
  function UseAuth(context: Option<AuthProvider>): (r: Result<AuthProvider>)
    ensures r.Throw? <==> context.None?
    ensures r.Throw? ==> r.message == "useAuth must be used within an AuthProvider"
    ensures context.Some? ==> r == Ok(context.value)
  {
    match context
    case None => Throw(MissingProviderMessage)
    case Some(p) => Ok(p)
  }
}
