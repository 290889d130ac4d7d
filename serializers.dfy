/** `UserSerializer`, the registration serializer: the phone-number field's
    validators, the password confirmation check, what `create` stores and
    what the serialized output shows. */
module Serializers {
  import opened Wrappers
  import opened Text
  import opened Json
  import opened Models

  // ---------------------------------------------------------------------
  // phone_number field
  // ---------------------------------------------------------------------

  /** Why a registration phone number is refused. */
  datatype PhoneError =
    | Required      // the field is missing from the request
    | Blank         // empty, or whitespace only
    | TooShort      // MinLengthValidator(10)
    | TooLong       // MaxLengthValidator(10), and again the field's max_length=10
    | NotTenDigits  // the `^\d{10}$` RegexValidator

  /** The declared `phone_number` field of the registration serializer. The
      field is required and may not be blank; its value is trimmed of
      surrounding whitespace, then every validator runs and all their errors
      are reported: the three declared ones, then the one the field adds
      for `max_length`. A phone number passes exactly when its trimmed value
      is ten digits, and the trimmed value is what is kept. */
  function RegistrationPhone(raw: Option<string>): (r: Result<string, seq<PhoneError>>)
    ensures r.Ok? <==> raw.Some? && |Strip(raw.value)| == 10 && AllDigits(Strip(raw.value))
    ensures r.Ok? ==> r.value == Strip(raw.value)
    ensures raw.None? ==> r == Err([Required])
    ensures r.Err? ==> r.error != []
  {
    match raw
    case None => Err([Required])
    case Some(s) =>
      var v := Strip(s);
      if v == "" then Err([Blank])
      else
        var errors := (if |v| < 10 then [TooShort] else [])
                    + (if |v| > 10 then [TooLong] else [])
                    + (if !PhoneRegexMatches(v) then [NotTenDigits] else [])
                    + (if |v| > 10 then [TooLong] else []);
        if errors == [] then Ok(v) else Err(errors)
  }

  /** For a value without surrounding whitespace, registration and the
      model column agree on which non-empty phone numbers are acceptable. */
  lemma RegistrationMatchesModelPhone(s: string)
    requires s != "" && Trimmed(s)
    ensures RegistrationPhone(Some(s)).Ok? <==> ModelPhoneValid(Some(s))
  {
    StripKeepsTrimmed(s);
  }

  /** Whitespace around ten digits is trimmed before the validators run,
      so the padded value is accepted and stored without the padding. */
  lemma RegistrationPhoneTrims(pre: string, digits: string, post: string)
    requires forall i :: 0 <= i < |pre| ==> IsSpace(pre[i])
    requires forall i :: 0 <= i < |post| ==> IsSpace(post[i])
    requires |digits| == 10 && AllDigits(digits)
    ensures RegistrationPhone(Some(pre + digits + post)) == Ok(digits)
  {
    StripPadded(pre, digits, post);
  }

  // ---------------------------------------------------------------------
  // validate
  // ---------------------------------------------------------------------

  /** The attributes of a registration after field validation. */
  datatype Registration = Registration(
    username: string,
    password: string,
    password2: string,
    firstName: Option<string>,
    lastName: Option<string>,
    email: Option<string>,
    phoneNumber: string,
    address: Option<string>)

  /** An error keyed by field name. */
  datatype FieldError = FieldError(field: string, message: string)

  /** `UserSerializer.validate`: the two passwords must match; then the
      attributes are passed on unchanged. */
  function Validate(attrs: Registration): (r: Result<Registration, FieldError>)
    ensures r.Err? <==> attrs.password != attrs.password2
    ensures r.Err? ==> r.error.field == "password"
    ensures r.Ok? ==> r.value == attrs
  {
    if attrs.password != attrs.password2 then
      Err(FieldError("password", "password field does'nt match "))
    else
      Ok(attrs)
  }

  // ---------------------------------------------------------------------
  // create
  // ---------------------------------------------------------------------

  /** The row `create` leaves behind for validated attributes: built from
      the username alone, with the password replaced by its hash. */
  function CreatedRecord(id: nat, attrs: Registration, hash: string -> string): (r: UserRecord)
  {
    DefaultRecord(id, attrs.username).(password := hash(attrs.password))
  }

  /** `create` stores nothing of the registration but the username and the
      hashed password: names, email, phone number and address are dropped,
      and the raw password is never written. */
  lemma CreateKeepsOnlyCredentials(id: nat, attrs: Registration, hash: string -> string)
    ensures var r := CreatedRecord(id, attrs, hash);
            && r.id == id && r.username == attrs.username
            && r.password == hash(attrs.password)
            && r.firstName == "" && r.lastName == "" && r.email == ""
            && r.phoneNumber == None && r.address == ""
            && !r.isStaff && !r.isSuperuser
  {
  }

  /** Two registrations with the same username and password create the same
      row, whatever else they carry. */
  lemma CreateIgnoresProfileFields(id: nat, a: Registration, b: Registration, hash: string -> string)
    requires a.username == b.username && a.password == b.password
    ensures CreatedRecord(id, a, hash) == CreatedRecord(id, b, hash)
  {
  }

  /** `UserSerializer.create`: drops `password2`, creates the user from the
      username, sets the hashed password and saves the user. A username
      the table already holds makes the insert raise `IntegrityError`,
      and the table is left as it was. */
  method Create(users: UserTable, validated: Registration, hash: string -> string)
    returns (r: Result<User, Exception>)
    requires users.Valid()
    modifies users
    ensures users.Valid()
    ensures old(users.HasUsername(validated.username)) ==>
              r == Err(IntegrityError("username")) && users.rows == old(users.rows)
    ensures !old(users.HasUsername(validated.username)) ==>
              && r.Ok? && fresh(r.value)
              && r.value.Record() == CreatedRecord(|old(users.rows)|, validated, hash)
              && users.rows == old(users.rows) + [r.value.Record()]
  {
    r := users.Create(validated.username);
    if r.Err? {
      return;
    }
    var user := r.value;
    user.SetPassword(validated.password, hash);
    var raised := users.Save(user);
  }

  // ---------------------------------------------------------------------
  // Serialized output
  // ---------------------------------------------------------------------

  /** The fields the serializer declares, in order. */
  const DeclaredFields: seq<string> :=
    ["id", "username", "password", "password2", "first_name", "last_name",
     "email", "phone_number", "address"]

  /** The write-only fields: accepted on input, never output. */
  const WriteOnlyFields: set<string> := {"password", "password2"}

  /** The fields `serializer.data` shows. */
  const OutputFields: set<string> :=
    {"id", "username", "first_name", "last_name", "email", "phone_number", "address"}

  /** The fields shown are exactly the declared ones that are not
      write-only. */
  lemma OutputFieldsAreReadable()
    ensures OutputFields == set f | f in DeclaredFields && f !in WriteOnlyFields
  {
  }

  /** The value `serializer.data` shows for an output field. */
  function FieldValue(user: UserRecord, field: string): Value {
    match field
    case "id" => Num(user.id)
    case "username" => Str(user.username)
    case "first_name" => Str(user.firstName)
    case "last_name" => Str(user.lastName)
    case "email" => Str(user.email)
    case "phone_number" =>
      (match user.phoneNumber
       case None => Null
       case Some(p) => Str(p))
    case _ => Str(user.address)
  }

  /** `serializer.data` for a saved user: every declared field except the
      write-only ones, each holding the user's column. */
  function Represent(user: UserRecord): (out: map<string, Value>)
    ensures out.Keys == OutputFields
    ensures "password" !in out && "password2" !in out
    ensures out["id"] == Num(user.id)
    ensures out["username"] == Str(user.username)
    ensures out["first_name"] == Str(user.firstName)
    ensures out["last_name"] == Str(user.lastName)
    ensures out["email"] == Str(user.email)
    ensures out["phone_number"] ==
              if user.phoneNumber.None? then Null else Str(user.phoneNumber.value)
    ensures out["address"] == Str(user.address)
  {
    map f | f in OutputFields :: FieldValue(user, f)
  }

  /** The output does not depend on the stored password at all. */
  lemma RepresentHidesPassword(user: UserRecord, other: string)
    ensures Represent(user.(password := other)) == Represent(user)
  {
  }
}
