/** The current-user store (entities/user/model/store.ts): who is signed in,
    and the fallback that creates a missing profile row on load. The auth
    call, the profile query and the insert are parameters. */
module UserStore {
  import opened Common
  import opened Types

  /** The authenticated account: its id, its e-mail and the full name in its
      metadata. */
  datatype AuthUser = AuthUser(id: string, email: Option<string>, metadataFullName: Option<string>)

  /** The `profiles` row the fallback inserts. */
  datatype NewProfile = NewProfile(id: string, username: string, fullName: string)

  /** `email?.split('@')[0] || 'user'`. */
  function FallbackUsername(email: Option<string>): (r: string)
    ensures r != "" && '@' !in r
    ensures email.Some? && email.value != [] && email.value[0] != '@' ==> StartsWith(email.value, r)
    ensures email.None? ==> r == "user"
  {
    if email.Some? && FirstSegment(email.value, '@') != "" then FirstSegment(email.value, '@') else "user"
  }

  /** The username taken from an address is its local part. */
  lemma FallbackUsernameIsLocalPart(local: string, domain: string)
    requires '@' !in local && local != ""
    ensures FallbackUsername(Some(local + "@" + domain)) == local
  {
    FirstSegmentBefore(local, '@', domain);
  }

  /** An address with nothing before the '@' gets the name "user". */
  lemma EmptyLocalPartIsUser(domain: string)
    ensures FallbackUsername(Some("@" + domain)) == "user"
  {
    assert FirstSegment("@" + domain, '@') == [];
  }

  /** The row inserted for an account that has no profile yet. */
  function FallbackProfile(user: AuthUser): (r: NewProfile)
    ensures r.id == user.id
    ensures r.username == FallbackUsername(user.email)
    ensures Truthy(user.metadataFullName) ==> r.fullName == user.metadataFullName.value
    ensures !Truthy(user.metadataFullName) ==> r.fullName == ""
  {
    NewProfile(user.id, FallbackUsername(user.email), OrElse(user.metadataFullName, ""))
  }

  /** What `loadCurrentUser` ends with: the current user, and the row it
      asks to insert, if any. `auth` is what `getUser` returns or throws,
      `profile` the `maybeSingle` profile query's reply (an error there is
      only logged, and leaves the profile null) and `created` what the insert
      returns. */
  function LoadOutcome(auth: Result<Option<AuthUser>>, profile: Reply<Profile>, created: Option<Profile>)
    : (r: (Option<Profile>, Option<NewProfile>))
    ensures !(auth.Ok? && auth.value.Some?) ==> r == (None, None)
    ensures auth.Ok? && auth.value.Some? && profile.Data? ==> r == (Some(profile.value), None)
    ensures auth.Ok? && auth.value.Some? && !profile.Data? ==> r == (created, Some(FallbackProfile(auth.value.value)))
  {
    match auth
    case Err(_) => (None, None)
    case Ok(None) => (None, None)
    case Ok(Some(user)) =>
      match profile
      case Data(p) => (Some(p), None)
      case _ => (created, Some(FallbackProfile(user)))
  }

  /** Only a signed-in account without a profile row leads to an insert, and
      that row always belongs to the account. */
  lemma InsertOnlyForMissingProfile(auth: Result<Option<AuthUser>>, profile: Reply<Profile>, created: Option<Profile>)
    ensures var insert := LoadOutcome(auth, profile, created).1;
      insert.Some? <==> auth.Ok? && auth.value.Some? && !profile.Data?
    ensures var insert := LoadOutcome(auth, profile, created).1;
      insert.Some? ==> insert.value.id == auth.value.value.id
  {
  }

  class Store {
    var currentUser: Option<Profile>
    var loading: bool

    constructor ()
      ensures currentUser.None? && loading
    {
      currentUser := None;
      loading := true;
    }

    /** `setCurrentUser`. */
    method SetCurrentUser(user: Option<Profile>)
      modifies this`currentUser
      ensures currentUser == user
    {
      currentUser := user;
    }

    /** `loadCurrentUser`. Returns the row it asks to insert, if any. */
    method LoadCurrentUser(auth: Result<Option<AuthUser>>, profile: Reply<Profile>, created: Option<Profile>)
      returns (insert: Option<NewProfile>)
      modifies this
      ensures (currentUser, insert) == LoadOutcome(auth, profile, created)
      ensures !loading
    {
      loading := true;
      insert := None;
      if auth.Err? {
        currentUser, loading := None, false;
        return;
      }
      var user := auth.value;
      if user.Some? {
        if profile.Data? {
          currentUser := Some(profile.value);
        } else {
          insert := Some(FallbackProfile(user.value));
          currentUser := created;
        }
      } else {
        currentUser := None;
      }
      loading := false;
    }
  }
}
