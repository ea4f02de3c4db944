// The registration route: the body schema with its password rule, the company-name
// check, the duplicate check against the stored users, and the user document.
module RegisterRoute {
  import opened Text
  import opened Outcomes
  import opened Records

  /** The special characters of the password rule's last lookahead. */
  const Specials := "!@#$%^&*()_+-=[]{};':\"\\|,.<>/?"

  predicate IsLower(c: char) { 'a' <= c <= 'z' }
  predicate IsUpper(c: char) { 'A' <= c <= 'Z' }
  predicate IsSpecial(c: char) { c in Specials }

  predicate HasLower(p: string) { exists i :: 0 <= i < |p| && IsLower(p[i]) }
  predicate HasUpper(p: string) { exists i :: 0 <= i < |p| && IsUpper(p[i]) }
  predicate HasDigit(p: string) { exists i :: 0 <= i < |p| && IsDigit(p[i]) }
  predicate HasSpecial(p: string) { exists i :: 0 <= i < |p| && IsSpecial(p[i]) }

  /** No character a regex `.` refuses. */
  predicate SingleLine(p: string) {
    forall i :: 0 <= i < |p| ==> !IsLineTerminator(p[i])
  }

  /**
   * The password pattern: anchored `.{8,30}` with one lookahead each for a lower-case
   * letter, an upper-case letter, a digit and a special character. Without the `m`
   * flag the anchors are the ends of the string, and a `.` matches no line terminator.
   */
  predicate PasswordOk(p: string) {
    8 <= |p| <= 30 && SingleLine(p) && HasLower(p) && HasUpper(p) && HasDigit(p) && HasSpecial(p)
  }

  /** The roles `z.enum` admits. */
  predicate IsRole(r: string) {
    r == "individual" || r == "company" || r == "coach"
  }

  /** A request body; a field the client left out is `None`. */
  datatype RegisterBody = RegisterBody(
    username: Option<string>,
    email: Option<string>,
    phoneNumber: Option<string>,
    password: Option<string>,
    role: Option<string>,
    companyName: Option<string>,
    companySize: Option<string>,
    industry: Option<string>,
    website: Option<string>)

  /** The parsed body, with the role defaulted. */
  datatype Registration = Registration(
    username: string,
    email: string,
    phoneNumber: string,
    password: string,
    role: string,
    companyName: Option<string>,
    companySize: Option<string>,
    industry: Option<string>,
    website: Option<string>)

  /** A required string field with a minimum length. */
  predicate ShortOrMissing(v: Option<string>, min: nat) {
    v.None? || |v.value| < min
  }

  /** The schema's failing fields, in declaration order. */
  function Issues(b: RegisterBody, isEmail: string -> bool): (r: seq<string>)
    ensures r == [] <==> !ShortOrMissing(b.username, 3) && b.email.Some? && isEmail(b.email.value)
                         && !ShortOrMissing(b.phoneNumber, 10) && b.password.Some? && PasswordOk(b.password.value)
                         && (b.role.None? || IsRole(b.role.value))
    ensures |r| <= 5
    ensures "password" in r <==> b.password.None? || !PasswordOk(b.password.value)
  {
    (if ShortOrMissing(b.username, 3) then ["username"] else [])
    + (if b.email.None? || !isEmail(b.email.value) then ["email"] else [])
    + (if ShortOrMissing(b.phoneNumber, 10) then ["phoneNumber"] else [])
    + (if b.password.None? || !PasswordOk(b.password.value) then ["password"] else [])
    + (if b.role.Some? && !IsRole(b.role.value) then ["role"] else [])
  }

  /** `registerSchema.safeParse`: the parsed registration, or the failing fields. */
  function Validate(b: RegisterBody, isEmail: string -> bool): (r: Outcome<Registration>)
    ensures r.Success? <==> Issues(b, isEmail) == []
    ensures r.Success? ==> |r.value.username| >= 3 && |r.value.phoneNumber| >= 10 && PasswordOk(r.value.password)
                           && isEmail(r.value.email) && IsRole(r.value.role)
    ensures r.Success? ==> r.value.role == b.role.GetOr("individual") && r.value.companyName == b.companyName
    ensures r.Success? ==> b.username == Some(r.value.username) && b.email == Some(r.value.email)
                           && b.phoneNumber == Some(r.value.phoneNumber) && b.password == Some(r.value.password)
  {
    if Issues(b, isEmail) != [] then Failure("Invalid input")
    else Success(Registration(b.username.value, b.email.value, b.phoneNumber.value, b.password.value,
                              b.role.GetOr("individual"), b.companyName, b.companySize, b.industry, b.website))
  }

  /** `role === 'company' && (!companyName || companyName.trim().length === 0)`. */
  predicate CompanyNameMissing(reg: Registration) {
    reg.role == "company" && (reg.companyName.None? || Trim(reg.companyName.value) == "")
  }

  /** `value || undefined`. */
  function OrUndefined(v: Option<string>): (r: Option<string>)
    ensures r.Some? <==> v.Some? && v.value != ""
    ensures r.Some? ==> r == v
  {
    if v.Some? && v.value != "" then v else None
  }

  /** The stored user `users.findOne({ $or: [{ email }, { phoneNumber }] })` would find. */
  predicate Taken(users: seq<UserDoc>, email: string, phone: string) {
    exists i :: 0 <= i < |users| && (users[i].email == email || users[i].phoneNumber == phone)
  }

  /** The user document: the hash as password, and the company sub-document for a named company account. */
  function NewUser(reg: Registration, hashed: string, now: int, id: ObjectId): (u: UserDoc)
    ensures u.id == id && u.username == reg.username && u.email == reg.email && u.phoneNumber == reg.phoneNumber
    ensures u.password == hashed && u.role == reg.role && u.createdAt == now
    ensures u.companyInfo.Some? <==> reg.role == "company" && reg.companyName.Some? && reg.companyName.value != ""
    ensures u.companyInfo.Some? ==>
              u.companyInfo.value == CompanyInfo(reg.companyName.value, OrUndefined(reg.companySize),
                                                OrUndefined(reg.industry), OrUndefined(reg.website))
  {
    var info :=
      if reg.role == "company" && reg.companyName.Some? && reg.companyName.value != "" then
        Some(CompanyInfo(reg.companyName.value, OrUndefined(reg.companySize), OrUndefined(reg.industry), OrUndefined(reg.website)))
      else None;
    UserDoc(id, reg.username, reg.email, reg.phoneNumber, hashed, reg.role, info, now)
  }

  datatype Response =
    | InvalidInput(fields: seq<string>)
    | CompanyNameRequired
    | AlreadyExists
    | Registered(userId: ObjectId)
  {
    function Status(): int {
      match this
      case InvalidInput(_) => 400
      case CompanyNameRequired => 400
      case AlreadyExists => 409
      case Registered(_) => 201
    }
  }

  /** The route on the stored users: its response and the users afterwards. */
  function Register(users: seq<UserDoc>, b: RegisterBody, isEmail: string -> bool, hash: string -> string, now: int, id: ObjectId)
    : (r: (Response, seq<UserDoc>))
  {
    match Validate(b, isEmail)
    case Failure(_) => (InvalidInput(Issues(b, isEmail)), users)
    case Success(reg) =>
      if CompanyNameMissing(reg) then (CompanyNameRequired, users)
      else if Taken(users, reg.email, reg.phoneNumber) then (AlreadyExists, users)
      else (Registered(id), users + [NewUser(reg, hash(reg.password), now, id)])
  }

  /** No two stored users share an email or a phone number. */
  predicate Unique(users: seq<UserDoc>) {
    forall i, j :: 0 <= i < j < |users| ==> users[i].email != users[j].email && users[i].phoneNumber != users[j].phoneNumber
  }

  /**
   * Every response but 201 leaves the users as they were; a 201 appends exactly one
   * user, built from the validated body with the hash of its password, under the new id.
   */
  lemma RegisterOutcome(users: seq<UserDoc>, b: RegisterBody, isEmail: string -> bool, hash: string -> string, now: int, id: ObjectId)
    ensures var (resp, after) := Register(users, b, isEmail, hash, now, id);
            (resp.Registered? <==> Validate(b, isEmail).Success? && !CompanyNameMissing(Validate(b, isEmail).value)
                                   && !Taken(users, b.email.value, b.phoneNumber.value))
            && (!resp.Registered? ==> after == users)
            && (resp.Registered? ==> resp.userId == id && after == users + [NewUser(Validate(b, isEmail).value, hash(b.password.value), now, id)])
  {
  }

  /** A 201 lands a user whose email and phone number no earlier user has, with a hashed password and a valid role. */
  lemma RegisteredUser(users: seq<UserDoc>, b: RegisterBody, isEmail: string -> bool, hash: string -> string, now: int, id: ObjectId)
    requires Register(users, b, isEmail, hash, now, id).0.Registered?
    ensures var after := Register(users, b, isEmail, hash, now, id).1;
            var u := after[|users|];
            |after| == |users| + 1 && after[..|users|] == users
            && u.password == hash(b.password.value) && IsRole(u.role) && Some(u.email) == b.email
            && (u.companyInfo.Some? <==> u.role == "company")
            && forall i :: 0 <= i < |users| ==> users[i].email != u.email && users[i].phoneNumber != u.phoneNumber
  {
    var reg := Validate(b, isEmail).value;
    if reg.role == "company" {
      assert reg.companyName.Some? && Trim(reg.companyName.value) != "";
    }
  }

  /** The duplicate check keeps the stored users free of shared emails and phone numbers. */
  lemma RegisterKeepsUnique(users: seq<UserDoc>, b: RegisterBody, isEmail: string -> bool, hash: string -> string, now: int, id: ObjectId)
    requires Unique(users)
    ensures Unique(Register(users, b, isEmail, hash, now, id).1)
  {
    var (resp, after) := Register(users, b, isEmail, hash, now, id);
    if resp.Registered? {
      RegisteredUser(users, b, isEmail, hash, now, id);
      forall i, j | 0 <= i < j < |after|
        ensures after[i].email != after[j].email && after[i].phoneNumber != after[j].phoneNumber
      {
        if j < |users| {
          assert after[i] == users[i] && after[j] == users[j];
        } else {
          assert after[i] == users[i];
        }
      }
    }
  }

  /** The company-name check sees through whitespace: a blank name is refused although the schema accepts it. */
  lemma BlankCompanyNameRefused(users: seq<UserDoc>, b: RegisterBody, isEmail: string -> bool, hash: string -> string, now: int, id: ObjectId)
    requires Issues(b, isEmail) == [] && b.role == Some("company")
    requires b.companyName.Some? && AllWhitespace(b.companyName.value)
    ensures Register(users, b, isEmail, hash, now, id).0 == CompanyNameRequired
  {
  }

  /** The users collection: the one piece of state the route changes. */
  class UserStore {
    var users: seq<UserDoc>

    ghost predicate Valid()
      reads this
    {
      Unique(users)
    }

    constructor (initial: seq<UserDoc>)
      requires Unique(initial)
      ensures Valid() && users == initial
    {
      users := initial;
    }

    /** `POST`: answers as `Register` does and stores the user it builds. */
    method Post(b: RegisterBody, isEmail: string -> bool, hash: string -> string, now: int, id: ObjectId) returns (resp: Response)
      requires Valid()
      modifies this
      ensures Valid()
      ensures (resp, users) == Register(old(users), b, isEmail, hash, now, id)
    {
      var v := Validate(b, isEmail);
      if v.Failure? {
        return InvalidInput(Issues(b, isEmail));
      }
      var reg := v.value;
      if CompanyNameMissing(reg) {
        return CompanyNameRequired;
      }
      if Taken(users, reg.email, reg.phoneNumber) {
        return AlreadyExists;
      }
      var doc := NewUser(reg, hash(reg.password), now, id);
      RegisterKeepsUnique(users, b, isEmail, hash, now, id);
      users := users + [doc];
      resp := Registered(id);
    }
  }
}
