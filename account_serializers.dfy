/**
 * The account serializers' own rules: e-mail lower-casing, the 8 to 20 character password
 * fields, the checks (and the one password update) of password reset and password change,
 * the existence check of e-mail authentication, and the field subset a profile PATCH sees.
 */
module AccountSerializers {
  import opened Wrappers
  import opened Text
  import opened AccountModels

  // ---- validate_email ------------------------------------------------------

  /**
   * `validate_email` of the registration, login and reset serializers (all three are the same):
   * the lower-cased address, which lower-casing again leaves as it is.
   */
  function ValidateEmail(value: string): (r: string)
    ensures |r| == |value| && IsLowerCase(r)
    ensures forall i :: 0 <= i < |value| ==> r[i] == LowerChar(value[i])
    ensures forall i :: 0 <= i < |value| && 'A' <= value[i] <= 'Z' ==> r[i] == (value[i] as int + 32) as char
    ensures forall i :: 0 <= i < |value| && !('A' <= value[i] <= 'Z') ==> r[i] == value[i]
  {
    LowerIsLowerCase(value);
    Lower(value)
  }

  lemma ValidateEmailIdempotent(value: string)
    ensures ValidateEmail(ValidateEmail(value)) == ValidateEmail(value)
  {
    LowerIdempotent(value);
  }

  // ---- password fields -----------------------------------------------------

  const MinPasswordLength := 8
  const MaxPasswordLength := 20

  /** The error texts a password field declares for a missing and for a blank value. */
  datatype FieldMessages = FieldMessages(required: string, blank: string)

  /** The messages the registration serializer's password field has (the framework's own). */
  const RegistrationPassword := FieldMessages("This field is required.", "This field may not be blank.")
  const NewPassword := FieldMessages("New password is required.", "New password cannot be blank.")
  const ConfirmPassword := FieldMessages("Confirm password is required.", "Confirm password cannot be blank.")

  /**
   * A `CharField(min_length=8, max_length=20)` password: a missing value or one that is blank
   * once stripped is refused with the field's own message; the stripped value (the field
   * trims whitespace by default) must then have 8 to 20 characters.
   */
  function PasswordField(raw: Option<string>, msgs: FieldMessages): (r: Result<string, string>)
    ensures r.Success? <==> raw.Some? && MinPasswordLength <= |Strip(raw.value)| <= MaxPasswordLength
    ensures r.Success? ==> r.value == Strip(raw.value) && Trimmed(r.value)
    ensures raw.None? ==> r == Failure(msgs.required)
    ensures raw.Some? && Strip(raw.value) == "" ==> r == Failure(msgs.blank)
  {
    match raw
    case None => Failure(msgs.required)
    case Some(s) =>
      var v := Strip(s);
      if v == "" then Failure(msgs.blank)
      else if |v| < MinPasswordLength then Failure("Ensure this field has at least 8 characters.")
      else if |v| > MaxPasswordLength then Failure("Ensure this field has no more than 20 characters.")
      else Success(v)
  }

  // ---- UserResetPasswordSerializer.validate --------------------------------

  datatype ResetAttrs = ResetAttrs(email: string, newPassword: string, confirmNewPassword: string)

  const PasswordsDiffer := "New password and confirm password do not match."
  const NoAccount := "No account found with this email address."

  /**
   * The user table after a reset, or the refusal: mismatched passwords are refused before
   * the table is consulted, an unknown email is refused next, and on success only that
   * user's password changes, to the new one.
   */
  function Reset(users: map<string, User>, attrs: ResetAttrs): (r: Result<map<string, User>, string>)
    ensures attrs.newPassword != attrs.confirmNewPassword ==> r == Failure(PasswordsDiffer)
    ensures attrs.newPassword == attrs.confirmNewPassword && attrs.email !in users ==> r == Failure(NoAccount)
    ensures r.Success? <==> attrs.newPassword == attrs.confirmNewPassword && attrs.email in users
    ensures r.Success? ==>
              && r.value.Keys == users.Keys
              && r.value[attrs.email] == users[attrs.email].(password := Hashed(attrs.newPassword))
              && (forall e :: e in users && e != attrs.email ==> r.value[e] == users[e])
  {
    if attrs.newPassword != attrs.confirmNewPassword then Failure(PasswordsDiffer)
    else if attrs.email !in users then Failure(NoAccount)
    else Success(users[attrs.email := users[attrs.email].(password := Hashed(attrs.newPassword))])
  }

  /** After a successful reset the new password, and only it, opens the account. */
  lemma ResetOpensWithNewPassword(users: map<string, User>, attrs: ResetAttrs, p: string)
    requires Reset(users, attrs).Success?
    ensures CheckPassword(p, Reset(users, attrs).value[attrs.email].password) <==> p == attrs.newPassword
  {
  }

  /**
   * `UserResetPasswordSerializer.validate`: applies `Reset` to the table and returns the
   * attributes unchanged; a refusal leaves the table as it was.
   */
  method ResetPassword(m: UserManager, attrs: ResetAttrs) returns (r: Result<ResetAttrs, string>)
    requires m.Valid()
    modifies m
    ensures m.Valid()
    ensures var t := Reset(old(m.users), attrs);
            && (t.Success? ==> r == Success(attrs) && m.users == t.value)
            && (t.Failure? ==> r == Failure(t.error) && m.users == old(m.users))
  {
    if attrs.newPassword != attrs.confirmNewPassword {
      return Failure(PasswordsDiffer);
    }
    if attrs.email !in m.users {
      return Failure(NoAccount);
    }
    var user := m.users[attrs.email];
    user := user.(password := Hashed(attrs.newPassword));
    m.users := m.users[attrs.email := user];
    r := Success(attrs);
  }

  // ---- UserChangedPasswordSerializer.validate ------------------------------

  datatype ChangeAttrs = ChangeAttrs(currentPassword: string, newPassword: string, confirmNewPassword: string)

  const WrongCurrent := "Current password is incorrect."
  const SameAsCurrent := "New password cannot be the same as the current password."

  /**
   * The first check that fails, in the order the serializer makes them: the current password
   * must match the stored one, the two new ones must agree, and the new one must not match
   * the stored one. `None` when all three pass.
   */
  function ChangeRefusal(stored: Password, attrs: ChangeAttrs): (r: Option<string>)
    ensures !CheckPassword(attrs.currentPassword, stored) ==> r == Some(WrongCurrent)
    ensures CheckPassword(attrs.currentPassword, stored) && attrs.newPassword != attrs.confirmNewPassword
            ==> r == Some(PasswordsDiffer)
    ensures (&& CheckPassword(attrs.currentPassword, stored)
             && attrs.newPassword == attrs.confirmNewPassword
             && CheckPassword(attrs.newPassword, stored)) ==> r == Some(SameAsCurrent)
    ensures r.None? <==>
              && CheckPassword(attrs.currentPassword, stored)
              && attrs.newPassword == attrs.confirmNewPassword
              && !CheckPassword(attrs.newPassword, stored)
  {
    if !CheckPassword(attrs.currentPassword, stored) then Some(WrongCurrent)
    else if attrs.newPassword != attrs.confirmNewPassword then Some(PasswordsDiffer)
    else if CheckPassword(attrs.newPassword, stored) then Some(SameAsCurrent)
    else None
  }

  /**
   * Once the current password is right, the third check refuses exactly a new password equal
   * to the current one: a change goes through iff the current password is right and the new
   * one is confirmed and different.
   */
  lemma ChangeAcceptedIff(stored: Password, attrs: ChangeAttrs)
    ensures ChangeRefusal(stored, attrs).None? <==>
              && CheckPassword(attrs.currentPassword, stored)
              && attrs.newPassword == attrs.confirmNewPassword
              && attrs.newPassword != attrs.currentPassword
  {
  }

  /**
   * `UserChangedPasswordSerializer.validate` for the logged-in user (stored under `email`):
   * any refusal leaves the stored password untouched; success sets it to the new password
   * and changes nothing else.
   */
  method ChangePassword(m: UserManager, email: string, attrs: ChangeAttrs) returns (r: Result<ChangeAttrs, string>)
    requires m.Valid() && email in m.users
    modifies m
    ensures m.Valid()
    ensures var refusal := ChangeRefusal(old(m.users)[email].password, attrs);
            && (refusal.Some? ==> r == Failure(refusal.value) && m.users == old(m.users))
            && (refusal.None? ==>
                  && r == Success(attrs)
                  && m.users == old(m.users)[email := old(m.users)[email].(password := Hashed(attrs.newPassword))])
  {
    var user := m.users[email];
    if !CheckPassword(attrs.currentPassword, user.password) {
      return Failure(WrongCurrent);
    }
    if attrs.newPassword != attrs.confirmNewPassword {
      return Failure(PasswordsDiffer);
    }
    if CheckPassword(attrs.newPassword, user.password) {
      return Failure(SameAsCurrent);
    }
    user := user.(password := Hashed(attrs.newPassword));
    m.users := m.users[email := user];
    r := Success(attrs);
  }

  // ---- EmailAuthenticationSerializer.validate ------------------------------

  datatype EmailAttrs = EmailAttrs(email: string)

  /**
   * Refuses when no user is stored under the lower-cased email; otherwise returns the
   * attributes as given, so the email keeps its original case.
   */
  function AuthenticateEmail(users: map<string, User>, attrs: EmailAttrs): (r: Result<EmailAttrs, string>)
    ensures r.Failure? <==> Lower(attrs.email) !in users
    ensures r.Failure? ==> r.error == NoAccount
    ensures r.Success? ==> r.value == attrs
  {
    if Lower(attrs.email) !in users then Failure(NoAccount) else Success(attrs)
  }

  /** An address with capitals is accepted for its lower-cased account and comes back with its capitals. */
  lemma AuthenticateKeepsCase(u: User)
    requires u.email == "a@b.c"
    ensures AuthenticateEmail(map["a@b.c" := u], EmailAttrs("A@b.c")) == Success(EmailAttrs("A@b.c"))
  {
    assert Lower("A@b.c") == "a@b.c";
  }

  // ---- UserProfileSerializer.get_fields ------------------------------------

  /** The profile serializer's declared fields, in order. */
  const ProfileFields: seq<string> := ["id", "email", "first_name", "last_name", "company_name"]

  /** The fields a PATCH may touch. */
  const UpdatableFields: seq<string> := ["first_name", "last_name", "company_name"]

  /** The dict comprehension: the given fields that are updatable, in their order. */
  function KeepUpdatable(fields: seq<string>): (r: seq<string>)
    ensures |r| <= |fields|
    ensures forall k :: k in r <==> k in fields && k in UpdatableFields
    ensures (forall i :: 0 <= i < |fields| ==> fields[i] in UpdatableFields) ==> r == fields
    ensures |fields| == 1 ==> r == if fields[0] in UpdatableFields then fields else []
  {
    if fields == [] then []
    else if fields[0] in UpdatableFields then [fields[0]] + KeepUpdatable(fields[1..])
    else KeepUpdatable(fields[1..])
  }

  /**
   * The comprehension keeps the order of the fields: filtering two runs of fields one after
   * the other gives the two filtered runs one after the other.
   */
  lemma {:induction false} KeepUpdatableKeepsOrder(a: seq<string>, b: seq<string>)
    ensures KeepUpdatable(a + b) == KeepUpdatable(a) + KeepUpdatable(b)
  {
    if a != [] {
      assert (a + b)[1..] == a[1..] + b;
      KeepUpdatableKeepsOrder(a[1..], b);
    } else {
      assert a + b == b;
    }
  }

  /**
   * `get_fields`: under a PATCH request (`httpMethod` is the request's HTTP method, `None`
   * without a request) only the updatable fields remain; otherwise all of them.
   */
  function GetFields(fields: seq<string>, httpMethod: Option<string>): (r: seq<string>)
    ensures forall k :: k in r ==> k in fields
    ensures httpMethod == Some("PATCH") ==> forall k :: k in r <==> k in fields && k in UpdatableFields
    ensures httpMethod != Some("PATCH") ==> r == fields
  {
    if httpMethod == Some("PATCH") then KeepUpdatable(fields) else fields
  }

  /** On the profile serializer a PATCH sees the names and the company, and never `id` or `email`. */
  lemma ProfilePatchFields()
    ensures GetFields(ProfileFields, Some("PATCH")) == UpdatableFields
    ensures GetFields(ProfileFields, Some("PUT")) == ProfileFields
  {
  }
}
