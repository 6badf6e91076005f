/**
 * The account serializers (backend/apps/users/serializers.py): the
 * five-key shipping address a profile shows and stores, the profile update,
 * the login check and the signup that uses the email as the username.
 *
 * Django REST framework cleans a `CharField` before a serializer sees it: the
 * value is stripped of surrounding white space (`trim_whitespace`), a blank
 * result is refused unless the field allows blanks, and `min_length` and
 * `max_length` are counted on the stripped value. `CleanChar` stands for that.
 */
module UserSerializers {
  import opened Wrappers
  import opened Text

  /** The keys of `shippingAddress`, in the order the serializer writes them. */
  const AddressKeys: set<string> := {"street", "city", "state", "zipCode", "country"}

  const DefaultCountry: string := "India"

  /** `d.get(key, default)`. */
  function Get(d: map<string, string>, key: string, default: string): (r: string)
    ensures key in d ==> r == d[key]
    ensures key !in d ==> r == default
  {
    if key in d then d[key] else default
  }

  /** The default a missing address key gets. */
  function KeyDefault(key: string): string {
    if key == "country" then DefaultCountry else ""
  }

  /**
   * The five-key address built from a submitted or stored one: each key keeps
   * its value when present, otherwise `''`, or `'India'` for the country.
   */
  function NormaliseAddress(address: map<string, string>): (r: map<string, string>)
    ensures r.Keys == AddressKeys
    ensures forall k :: k in AddressKeys && k in address ==> r[k] == address[k]
    ensures forall k :: k in AddressKeys && k !in address ==> r[k] == KeyDefault(k)
  {
    map["street" := Get(address, "street", ""),
        "city" := Get(address, "city", ""),
        "state" := Get(address, "state", ""),
        "zipCode" := Get(address, "zipCode", ""),
        "country" := Get(address, "country", DefaultCountry)]
  }

  /** The address with no key given: four blanks and the default country. */
  const EmptyAddress: map<string, string> :=
    map["street" := "", "city" := "", "state" := "", "zipCode" := "", "country" := DefaultCountry]

  /** `get_shippingAddress`: a stored `None` reads as an empty address. */
  function GetShippingAddress(stored: Option<map<string, string>>): (r: map<string, string>)
    ensures r.Keys == AddressKeys
    ensures stored.None? ==> r == EmptyAddress
    ensures stored.Some? ==> r == NormaliseAddress(stored.value)
  {
    var address := if stored.Some? then stored.value else map[];
    NormaliseAddress(address)
  }

  /** A stored `None` and a stored `{}` show the same address. */
  lemma {:induction false} NullAddressIsEmpty()
    ensures GetShippingAddress(None) == GetShippingAddress(Some(map[])) == EmptyAddress
  {
    var r := NormaliseAddress(map[]);
    assert r.Keys == EmptyAddress.Keys;
    assert forall k :: k in r ==> r[k] == EmptyAddress[k];
  }

  /** Normalising an address already in the five-key form changes nothing. */
  lemma {:induction false} NormaliseAddressIdempotent(address: map<string, string>)
    ensures NormaliseAddress(NormaliseAddress(address)) == NormaliseAddress(address)
  {
    var r := NormaliseAddress(address);
    var rr := NormaliseAddress(r);
    assert rr.Keys == r.Keys;
    assert forall k :: k in rr ==> rr[k] == r[k];
  }

  /** What `update` stores is what `get_shippingAddress` shows afterwards. */
  lemma {:induction false} StoredAddressReadsBack(submitted: map<string, string>)
    ensures GetShippingAddress(Some(NormaliseAddress(submitted))) == NormaliseAddress(submitted)
  {
    NormaliseAddressIdempotent(submitted);
  }

  /** The field cleaning of a `CharField` with `trim_whitespace` on. */
  function CleanChar(raw: string): (r: string)
    ensures |r| <= |raw|
    ensures PyStrip(r) == r
  {
    StripIdempotent(raw, IsPySpace);
    PyStrip(raw)
  }

  /** Python truthiness of an optional string. */
  predicate Truthy(s: Option<string>) {
    s.Some? && s.value != ""
  }

  /** The part of a `Profile` row the serializer reads and writes. */
  class Profile {
    var phone: Option<string>
    var shippingAddress: Option<map<string, string>>

    /** A new profile: no phone and the JSON field's default `{}`. */
    constructor ()
      ensures phone == None && shippingAddress == Some(map[])
    {
      phone := None;
      shippingAddress := Some(map[]);
    }

    /**
     * `ProfileSerializer.update`. `validatedPhone` is `None` when `phone` is
     * not among the validated data, else its cleaned value (which may be a
     * JSON `null`); `submittedAddress` is `initial_data.get('shippingAddress')`,
     * `None` when absent or `null`.
     */
    method Update(validatedPhone: Option<Option<string>>, submittedAddress: Option<map<string, string>>)
      modifies this
      ensures validatedPhone.Some? ==> phone == validatedPhone.value
      ensures validatedPhone.None? ==> phone == old(phone)
      ensures submittedAddress.Some? && submittedAddress.value != map[] ==>
        shippingAddress == Some(NormaliseAddress(submittedAddress.value))
      ensures submittedAddress.None? || submittedAddress.value == map[] ==> shippingAddress == old(shippingAddress)
    {
      if validatedPhone.Some? {
        phone := validatedPhone.value;
      }
      if submittedAddress.Some? && submittedAddress.value != map[] {
        var data := submittedAddress.value;
        shippingAddress := Some(NormaliseAddress(data));
      }
    }
  }

  /** The field value DRF validates for a submitted `phone` (`allow_null`, `allow_blank`). */
  function ValidatedPhone(submitted: Option<Option<string>>): (r: Option<Option<string>>)
    ensures r.None? <==> submitted.None?
    ensures submitted.Some? && submitted.value.None? ==> r == Some(None)
    ensures submitted.Some? && submitted.value.Some? ==> r == Some(Some(CleanChar(submitted.value.value)))
  {
    match submitted
    case None => None
    case Some(None) => Some(None)
    case Some(Some(s)) => Some(Some(CleanChar(s)))
  }

  /** An account as `authenticate` returns it. */
  datatype User = User(email: string, username: string, name: string, isActive: bool)

  datatype LoginError = MissingCredentials | InvalidCredentials | AccountDisabled

  function LoginErrorText(e: LoginError): string {
    match e
    case MissingCredentials => "Must include \"email\" and \"password\"."
    case InvalidCredentials => "Invalid email or password."
    case AccountDisabled => "User account is disabled."
  }

  /**
   * `LoginSerializer.validate`. The credential check is the parameter
   * `authenticate`, which gives the account for an email and password or
   * `None`. On success the account is what `attrs['user']` receives.
   */
  function LoginValidate(email: Option<string>, password: Option<string>,
                         authenticate: (string, string) -> Option<User>): (r: Result<User, LoginError>)
    ensures r == Err(MissingCredentials) <==> !Truthy(email) || !Truthy(password)
    ensures r == Err(InvalidCredentials) <==>
      Truthy(email) && Truthy(password) && authenticate(email.value, password.value).None?
    ensures r == Err(AccountDisabled) <==>
      Truthy(email) && Truthy(password) && authenticate(email.value, password.value).Some?
      && !authenticate(email.value, password.value).value.isActive
    ensures r.Ok? ==>
      Truthy(email) && Truthy(password) && authenticate(email.value, password.value) == Some(r.value) && r.value.isActive
  {
    if Truthy(email) && Truthy(password) then
      var user := authenticate(email.value, password.value);
      if user.None? then Err(InvalidCredentials)
      else if !user.value.isActive then Err(AccountDisabled)
      else Ok(user.value)
    else Err(MissingCredentials)
  }

  /** Only an active account that `authenticate` accepts gets through. */
  lemma {:induction false} LoginSucceedsExactly(email: string, password: string,
                                                authenticate: (string, string) -> Option<User>)
    requires email != "" && password != ""
    ensures LoginValidate(Some(email), Some(password), authenticate).Ok? <==>
      authenticate(email, password).Some? && authenticate(email, password).value.isActive
  {
    var r := LoginValidate(Some(email), Some(password), authenticate);
    if !r.Ok? {
      assert r.Err?;
      assert r.error == InvalidCredentials || r.error == AccountDisabled;
    }
  }

  const MinPasswordLength: nat := 8
  const MaxNameLength: nat := 150

  datatype SignupError = PasswordBlank | PasswordTooShort | NameBlank | NameTooLong | EmailTaken

  /**
   * The field errors DRF collects for a signup: the password and name are
   * cleaned first, then the blank check, then `min_length`/`max_length`; the
   * email must not belong to an account already (`existingEmails`).
   */
  function SignupErrors(email: string, password: string, name: string, existingEmails: set<string>): (r: set<SignupError>)
    ensures PasswordBlank in r <==> CleanChar(password) == ""
    ensures PasswordTooShort in r <==> CleanChar(password) != "" && |CleanChar(password)| < MinPasswordLength
    ensures NameBlank in r <==> CleanChar(name) == ""
    ensures NameTooLong in r <==> |CleanChar(name)| > MaxNameLength
    ensures EmailTaken in r <==> CleanChar(email) in existingEmails
  {
    CleanedErrors(CleanChar(email), CleanChar(password), CleanChar(name), existingEmails)
  }

  /** The errors of already cleaned values. */
  function CleanedErrors(email: string, password: string, name: string, existingEmails: set<string>): (r: set<SignupError>)
    ensures PasswordBlank in r <==> password == ""
    ensures PasswordTooShort in r <==> password != "" && |password| < MinPasswordLength
    ensures NameBlank in r <==> name == ""
    ensures NameTooLong in r <==> |name| > MaxNameLength
    ensures EmailTaken in r <==> email in existingEmails
  {
    var passwordErrors := PasswordErrors(password);
    var nameErrors := NameErrors(name);
    var emailErrors: set<SignupError> := if email in existingEmails then {EmailTaken} else {};
    passwordErrors + nameErrors + emailErrors
  }

  function PasswordErrors(p: string): (r: set<SignupError>)
    ensures r <= {PasswordBlank, PasswordTooShort}
    ensures PasswordBlank in r <==> p == ""
    ensures PasswordTooShort in r <==> p != "" && |p| < MinPasswordLength
  {
    if p == "" then {PasswordBlank} else if |p| < MinPasswordLength then {PasswordTooShort} else {}
  }

  function NameErrors(n: string): (r: set<SignupError>)
    ensures r <= {NameBlank, NameTooLong}
    ensures NameBlank in r <==> n == ""
    ensures NameTooLong in r <==> |n| > MaxNameLength
  {
    if n == "" then {NameBlank} else if |n| > MaxNameLength then {NameTooLong} else {}
  }

  /** The index of the last `@` of `s`, if it has one. */
  function LastAt(s: string): (r: Option<nat>)
    ensures r.Some? ==> r.value < |s| && s[r.value] == '@'
    ensures r.Some? ==> forall j :: r.value < j < |s| ==> s[j] != '@'
    ensures r.None? ==> forall j :: 0 <= j < |s| ==> s[j] != '@'
  {
    if |s| == 0 then None
    else if s[|s| - 1] == '@' then Some(|s| - 1)
    else LastAt(s[..|s| - 1])
  }

  /**
   * `BaseUserManager.normalize_email`: the stripped address with the part
   * after its last `@` lowercased. An address with no `@` is returned as given.
   */
  function NormaliseEmail(email: string): (r: string)
    ensures LastAt(PyStrip(email)).None? ==> r == email
    ensures LastAt(PyStrip(email)).Some? ==>
      var s := PyStrip(email);
      var k := LastAt(s).value;
      && |r| == |s| && r[..k + 1] == s[..k + 1]
      && forall j :: k < j < |s| ==> r[j] == LowerChar(s[j])
  {
    var s := PyStrip(email);
    match LastAt(s)
    case None => email
    case Some(k) => s[..k + 1] + ToLower(s[k + 1..])
  }

  /** The last `@` is the one at `k` when no `@` follows it. */
  lemma LastAtIs(s: string, k: nat)
    requires k < |s| && s[k] == '@' && forall j :: k < j < |s| ==> s[j] != '@'
    ensures LastAt(s) == Some(k)
  {
  }

  /** A created account: `create_user` receives the cleaned values and `hash` stands for the password hasher. */
  datatype CreatedUser = CreatedUser(user: User, passwordHash: string)

  /**
   * Why a signup fails: the serializer's field errors (400), or the unique
   * `email` or `username` column refusing the row `create_user` saves (an
   * `IntegrityError`, 500).
   */
  datatype SignupFailure = Invalid(errors: set<SignupError>) | IntegrityError

  /**
   * `is_valid` followed by `SignupSerializer.create`, which calls the default
   * `UserManager.create_user`: the email is stored normalised and the
   * username is the cleaned email. `existingEmails` and `existingUsernames`
   * are the values already in those columns.
   */
  function Signup(email: string, password: string, name: string, existingEmails: set<string>,
                  existingUsernames: set<string>, hash: string -> string): (r: Result<CreatedUser, SignupFailure>)
    ensures r.Err? && r.error.Invalid? <==> SignupErrors(email, password, name, existingEmails) != {}
    ensures r.Err? && r.error.Invalid? ==> r.error.errors == SignupErrors(email, password, name, existingEmails)
    ensures r == Err(IntegrityError) <==>
      SignupErrors(email, password, name, existingEmails) == {}
      && (NormaliseEmail(CleanChar(email)) in existingEmails || CleanChar(email) in existingUsernames)
    ensures r.Ok? ==> r.value.user.username == CleanChar(email)
    ensures r.Ok? ==> r.value.user.email == NormaliseEmail(CleanChar(email))
    ensures r.Ok? ==> r.value.user.email !in existingEmails && r.value.user.username !in existingUsernames
    ensures r.Ok? ==> |CleanChar(password)| >= MinPasswordLength && r.value.passwordHash == hash(CleanChar(password))
    ensures r.Ok? ==> r.value.user.name == CleanChar(name) && r.value.user.isActive
  {
    var errors := SignupErrors(email, password, name, existingEmails);
    if errors != {} then Err(Invalid(errors))
    else
      var validated := CleanChar(email);
      var stored := NormaliseEmail(validated);
      if stored in existingEmails || validated in existingUsernames then Err(IntegrityError)
      else Ok(CreatedUser(User(stored, validated, CleanChar(name), true), hash(CleanChar(password))))
  }

  /**
   * The uniqueness check compares the email as sent, the column holds it
   * normalised: a second signup that differs only in the case of the domain
   * passes validation and is refused by the database.
   */
  lemma CaseVariantSignupConflicts(hash: string -> string)
    ensures SignupErrors("Ann@EX.in", "password", "Ann", {"Ann@ex.in"}) == {}
    ensures Signup("Ann@EX.in", "password", "Ann", {"Ann@ex.in"}, {"Ann@ex.in"}, hash)
            == Err(IntegrityError)
  {
    var e, p, n := "Ann@EX.in", "password", "Ann";
    StripUnpadded(e, IsPySpace);
    StripUnpadded(p, IsPySpace);
    StripUnpadded(n, IsPySpace);
    assert CleanChar(e) == e && CleanChar(p) == p && CleanChar(n) == n;
    assert e != "Ann@ex.in" by {
      assert e[4] != "Ann@ex.in"[4];
    }
    assert PasswordErrors(p) == {} && NameErrors(n) == {};
    assert CleanedErrors(e, p, n, {"Ann@ex.in"}) == {};
    NormaliseFoldsDomain();
  }

  /** The local part keeps its case; only the domain is folded. */
  lemma NormaliseFoldsDomain()
    ensures NormaliseEmail("Ann@EX.in") == "Ann@ex.in"
  {
    var e := "Ann@EX.in";
    StripUnpadded(e, IsPySpace);
    LastAtIs(e, 3);
    assert ToLower(e[4..]) == "ex.in";
  }


  /** Eight characters of which one is not white space is still too short: the length is counted after stripping. */
  lemma PaddedPasswordTooShort()
    ensures PasswordTooShort in SignupErrors("a@b.in", "       a", "Asha", {})
  {
    var p := "       a";
    assert LeadingCount(p[7..], IsPySpace) == 0;
    assert LeadingCount(p[5..], IsPySpace) == 2;
    assert LeadingCount(p[3..], IsPySpace) == 4;
    assert LeadingCount(p[1..], IsPySpace) == 6;
    assert LeadingCount(p, IsPySpace) == 7;
    assert TrailingStart(p, IsPySpace) == 8;
    assert CleanChar(p) == "a";
  }
}
