/**
 * The custom user model of the account app and its manager: the required-field checks and
 * defaults of `create_user`, the flags `create_superuser` adds, the full-name rendering, and
 * the permission predicates, which all come down to `is_admin`.
 *
 * Password hashing is symbolic: a stored password is `Hashed(p)` for the plain text `p` it
 * was set from, and `CheckPassword` accepts exactly that `p`, which is the contract Django's
 * hasher keeps; salts and the hash itself are not modelled. The user table is a map from the
 * stored email (a unique column) to the user row.
 */
module AccountModels {
  import opened Wrappers
  import opened Text

  /** A stored password: set from a plain text, or unusable (what `set_password(None)` stores). */
  datatype Password = Hashed(plain: string) | Unusable

  /** `check_password(plain, stored)`. */
  predicate CheckPassword(plain: string, stored: Password) {
    stored.Hashed? && stored.plain == plain
  }

  /** `set_password(raw)`: a `None` password makes the account's password unusable. */
  function MakePassword(raw: Option<string>): (p: Password)
    ensures raw.None? ==> forall q :: !CheckPassword(q, p)
    ensures raw.Some? ==> forall q :: CheckPassword(q, p) <==> q == raw.value
  {
    match raw
    case None => Unusable
    case Some(s) => Hashed(s)
  }

  datatype User = User(
    email: string,
    firstName: string,
    lastName: string,
    companyName: Option<string>,
    receiveMarketing: bool,
    isActive: bool,
    isAdmin: bool,
    password: Password)

  /** `User.has_perm`: every permission, on every object, is granted to admins only. */
  function HasPerm(u: User, perm: string, obj: Option<string>): (r: bool)
    ensures r <==> u.isAdmin
  {
    u.isAdmin
  }

  /** `User.has_module_perms`: every app is visible to admins only. */
  function HasModulePerms(u: User, appLabel: string): (r: bool)
    ensures r <==> u.isAdmin
  {
    u.isAdmin
  }

  /** `User.is_staff`. */
  function IsStaff(u: User): (r: bool)
    ensures r <==> u.isAdmin
  {
    u.isAdmin
  }

  /** None of the three predicates depends on what is asked. */
  lemma PermissionsAgree(u: User, p1: string, o1: Option<string>, p2: string, o2: Option<string>, a1: string, a2: string)
    ensures HasPerm(u, p1, o1) == HasPerm(u, p2, o2) == HasModulePerms(u, a1) == HasModulePerms(u, a2) == IsStaff(u)
  {
  }

  /** `User.get_full_name`: the first and the last name, separated by a space, then stripped. */
  function FullName(u: User): (r: string)
    ensures Trimmed(r)
    ensures |r| <= |u.firstName| + 1 + |u.lastName|
    ensures StrippedFrom(r, u.firstName + " " + u.lastName)
  {
    StripCutsWhitespace(u.firstName + " " + u.lastName);
    Strip(u.firstName + " " + u.lastName)
  }

  /** For names that are non-empty and have no outer whitespace, the full name is `"first last"`. */
  lemma FullNameOfCleanNames(u: User)
    requires u.firstName != "" && u.lastName != ""
    requires Trimmed(u.firstName) && Trimmed(u.lastName)
    ensures FullName(u) == u.firstName + " " + u.lastName
  {
    var s := u.firstName + " " + u.lastName;
    assert s[0] == u.firstName[0] && s[|s| - 1] == u.lastName[|u.lastName| - 1];
    StripTrimmed(s);
  }

  /** The `ValueError`s `create_user` raises, and the database's refusal of a second row for one email. */
  datatype CreateError = MissingEmail | MissingName | DuplicateEmail

  /** The text of the two `ValueError`s; the database's own message is not modelled. */
  function ValueErrorMessage(e: CreateError): string
    requires !e.DuplicateEmail?
  {
    match e
    case MissingEmail => "Users must have an email address"
    case MissingName => "First name and last name are required"
  }

  /**
   * The record `create_user` builds, before it is saved: the email is checked first, then
   * both names; the email goes through `normalize`, the names are kept as given, and a new
   * user is active, not an admin, with the given password set.
   */
  function NewUser(
    normalize: string -> string, email: Option<string>, firstName: Option<string>, lastName: Option<string>,
    companyName: Option<string>, receiveMarketing: bool, password: Option<string>)
    : (r: Result<User, CreateError>)
    ensures !Truthy(email) <==> r == Failure(MissingEmail)
    ensures Truthy(email) && (!Truthy(firstName) || !Truthy(lastName)) <==> r == Failure(MissingName)
    ensures r.Success? <==> Truthy(email) && Truthy(firstName) && Truthy(lastName)
    ensures r.Success? ==>
              && r.value.email == normalize(email.value)
              && r.value.firstName == firstName.value && r.value.lastName == lastName.value
              && r.value.companyName == companyName && r.value.receiveMarketing == receiveMarketing
              && r.value.isActive && !r.value.isAdmin
              && r.value.password == MakePassword(password)
  {
    if !Truthy(email) then Failure(MissingEmail)
    else if !Truthy(firstName) || !Truthy(lastName) then Failure(MissingName)
    else Success(User(normalize(email.value), firstName.value, lastName.value, companyName, receiveMarketing,
                      true, false, MakePassword(password)))
  }

  /** The email check comes first: without an email the names are never looked at. */
  lemma MissingEmailDecidesFirst(
    normalize: string -> string, firstName: Option<string>, lastName: Option<string>,
    companyName: Option<string>, receiveMarketing: bool, password: Option<string>)
    ensures NewUser(normalize, None, firstName, lastName, companyName, receiveMarketing, password) == Failure(MissingEmail)
    ensures NewUser(normalize, Some(""), firstName, lastName, companyName, receiveMarketing, password) == Failure(MissingEmail)
  {
  }

  /** The user table: the stored row of each email, and the manager's email normaliser. */
  class UserManager {
    var users: map<string, User>
    const normalize: string -> string

    /** Every row is stored under its own email. */
    ghost predicate Valid()
      reads this
    {
      forall e :: e in users ==> users[e].email == e
    }

    constructor (normalize: string -> string)
      ensures Valid() && users == map[] && this.normalize == normalize
    {
      users := map[];
      this.normalize := normalize;
    }

    /**
     * `create_user`: the record of `NewUser`, saved; saving fails when the normalised email
     * is taken. On any failure the table is unchanged.
     */
    method CreateUser(
      email: Option<string>, firstName: Option<string>, lastName: Option<string>,
      companyName: Option<string> := None, receiveMarketing: bool := false, password: Option<string> := None)
      returns (r: Result<User, CreateError>)
      requires Valid()
      modifies this
      ensures Valid()
      ensures var n := NewUser(normalize, email, firstName, lastName, companyName, receiveMarketing, password);
              r == if n.Success? && n.value.email in old(users) then Failure(DuplicateEmail) else n
      ensures r.Success? ==> users == old(users)[r.value.email := r.value]
      ensures r.Failure? ==> users == old(users)
    {
      var n := NewUser(normalize, email, firstName, lastName, companyName, receiveMarketing, password);
      if n.Failure? {
        return n;
      }
      var user := n.value;
      if user.email in users {
        return Failure(DuplicateEmail);
      }
      users := users[user.email := user];
      r := Success(user);
    }

    /**
     * `create_superuser`: `create_user`, then `is_admin` and `is_active` set and the row
     * saved again. A failure of `create_user` is passed on and changes nothing.
     */
    method CreateSuperuser(
      email: Option<string>, firstName: Option<string>, lastName: Option<string>,
      password: Option<string> := None, companyName: Option<string> := None, receiveMarketing: bool := false)
      returns (r: Result<User, CreateError>)
      requires Valid()
      modifies this
      ensures Valid()
      ensures var n := NewUser(normalize, email, firstName, lastName, companyName, receiveMarketing, password);
              r == if n.Failure? then n
                   else if n.value.email in old(users) then Failure(DuplicateEmail)
                   else Success(n.value.(isAdmin := true, isActive := true))
      ensures r.Success? ==> users == old(users)[r.value.email := r.value]
      ensures r.Failure? ==> users == old(users)
    {
      var c := CreateUser(email, firstName, lastName, companyName, receiveMarketing, password);
      if c.Failure? {
        return c;
      }
      var user := c.value.(isAdmin := true, isActive := true);
      users := users[user.email := user];
      r := Success(user);
    }
  }

  /** A client of the manager: the keyword defaults give a plain, active, non-admin user with no company. */
  method CreateUserDefaults(normalize: string -> string, email: string, first: string, last: string)
    returns (u: Result<User, CreateError>)
    requires email != "" && first != "" && last != ""
    ensures u.Success?
    ensures u.value.companyName == None && !u.value.receiveMarketing
    ensures u.value.isActive && !u.value.isAdmin && u.value.password == Unusable
    ensures u.value.email == normalize(email)
  {
    var m := new UserManager(normalize);
    u := m.CreateUser(Some(email), Some(first), Some(last));
  }
}
