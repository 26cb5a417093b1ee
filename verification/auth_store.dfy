/** The authentication store: the signed-in user, if any, and the flags the
    interface reads. Each action is one atomic step; the simulated latency and
    the persistence of `user` and `isAuthenticated` are not modelled. */
module AuthStore {
  import opened Wrappers

  datatype Role = Customer | Admin

  /** A user record. `phone` and `dateOfBirth` are not declared by the store
      but arrive through `updateProfile`'s spread, which keeps any key. */
  datatype User = User(
    id: string,
    email: string,
    name: string,
    avatar: Option<string>,
    role: Role,
    phone: Option<string>,
    dateOfBirth: Option<string>)

  /** A `Partial<User>`: every key may be missing. */
  datatype UserPatch = UserPatch(
    id: Option<string>,
    email: Option<string>,
    name: Option<string>,
    avatar: Option<string>,
    role: Option<Role>,
    phone: Option<string>,
    dateOfBirth: Option<string>)

  const EmptyPatch := UserPatch(None, None, None, None, None, None, None)

  /** `email.split('@')[0]`: everything before the first `@`, or the whole
      string when there is none. */
  function BeforeAt(email: string): (r: string)
    ensures |r| <= |email| && r == email[..|r|]
    ensures '@' !in r
    ensures |r| < |email| ==> email[|r|] == '@'
  {
    if email == [] || email[0] == '@' then []
    else [email[0]] + BeforeAt(email[1..])
  }

  /** The mock account `signIn` produces: id `'1'`, the email as given, the
      local part as name, the ordinary role. */
  function SignedInUser(email: string): (u: User)
    ensures u.id == "1" && u.email == email && u.role == Customer
    ensures u.name == BeforeAt(email)
  {
    User("1", email, BeforeAt(email), None, Customer, None, None)
  }

  /** `{ ...user, ...data }`: the keys present in the patch win. */
  function Patched(u: User, data: UserPatch): (r: User)
    ensures data.id.Some? ==> r.id == data.id.value
    ensures data.id.None? ==> r.id == u.id
    ensures data.email.Some? ==> r.email == data.email.value
    ensures data.email.None? ==> r.email == u.email
    ensures data.name.Some? ==> r.name == data.name.value
    ensures data.name.None? ==> r.name == u.name
    ensures r.avatar == if data.avatar.Some? then data.avatar else u.avatar
    ensures data.role.Some? ==> r.role == data.role.value
    ensures data.role.None? ==> r.role == u.role
    ensures r.phone == if data.phone.Some? then data.phone else u.phone
    ensures r.dateOfBirth == if data.dateOfBirth.Some? then data.dateOfBirth else u.dateOfBirth
  {
    User(
      data.id.GetOr(u.id),
      data.email.GetOr(u.email),
      data.name.GetOr(u.name),
      if data.avatar.Some? then data.avatar else u.avatar,
      data.role.GetOr(u.role),
      if data.phone.Some? then data.phone else u.phone,
      if data.dateOfBirth.Some? then data.dateOfBirth else u.dateOfBirth)
  }

  /** Applying the same patch twice is applying it once. */
  lemma PatchIdempotent(u: User, data: UserPatch)
    ensures Patched(Patched(u, data), data) == Patched(u, data)
  {
  }

  /** The empty patch changes nothing. */
  lemma EmptyPatchKeepsUser(u: User)
    ensures Patched(u, EmptyPatch) == u
  {
  }

  class Auth {
    var user: Option<User>
    var isAuthenticated: bool
    var isLoading: bool

    /** Authenticated exactly when a user is stored; no action is in flight
        between steps. */
    predicate Valid()
      reads this
    {
      (isAuthenticated <==> user.Some?) && !isLoading
    }

    constructor ()
      ensures Valid()
      ensures user == None && !isAuthenticated && !isLoading
    {
      user := None;
      isAuthenticated := false;
      isLoading := false;
    }

    /** `signIn`: the password plays no part. */
    method SignIn(email: string, password: string)
      modifies this
      ensures Valid()
      ensures user == Some(SignedInUser(email)) && isAuthenticated && !isLoading
    {
      user := Some(SignedInUser(email));
      isAuthenticated := true;
      isLoading := false;
    }

    /** `signUp`: the id comes from the clock, here a parameter; the password
        plays no part. */
    method SignUp(email: string, password: string, name: string, freshId: string)
      modifies this
      ensures Valid()
      ensures user == Some(User(freshId, email, name, None, Customer, None, None))
      ensures isAuthenticated && !isLoading
    {
      user := Some(User(freshId, email, name, None, Customer, None, None));
      isAuthenticated := true;
      isLoading := false;
    }

    /** `signOut`; `isLoading` is left as it was. */
    method SignOut()
      modifies this
      ensures user == None && !isAuthenticated && isLoading == old(isLoading)
      ensures old(Valid()) ==> Valid()
    {
      user := None;
      isAuthenticated := false;
    }

    /** `updateProfile`: nothing happens without a user; otherwise the patch is
        spread over the stored user and `isAuthenticated` is untouched. */
    method UpdateProfile(data: UserPatch)
      modifies this
      ensures old(user).None? ==> user == old(user) && isLoading == old(isLoading)
      ensures old(user).Some? ==> user == Some(Patched(old(user).value, data)) && !isLoading
      ensures isAuthenticated == old(isAuthenticated)
      ensures old(Valid()) ==> Valid()
    {
      if user.Some? {
        user := Some(Patched(user.value, data));
        isLoading := false;
      }
    }
  }
}
