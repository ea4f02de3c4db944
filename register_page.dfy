// The registration form's client-side schema: per-field checks, then the two
// object refinements (matching passwords; a company name for company accounts),
// and the body the form posts to the registration route.
module RegisterPage {
  import opened Text
  import opened Outcomes
  import opened RegisterRoute

  /** The form values; every input holds a string, empty by default. */
  datatype RegisterForm = RegisterForm(
    username: string,
    email: string,
    phoneNumber: string,
    password: string,
    retypePassword: string,
    role: string,
    companyName: string,
    companySize: string,
    industry: string,
    website: string)

  /** The issues the schema can report. */
  datatype Problem =
    | UsernameShort
    | EmailInvalid
    | PhoneShort
    | PasswordShort
    | PasswordLong
    | PasswordWeak
    | RoleInvalid
    | WebsiteInvalid
    | PasswordsDiffer
    | CompanyNameMissing

  /** The form field an issue is shown under. */
  function Path(p: Problem): string {
    match p
    case UsernameShort => "username"
    case EmailInvalid => "email"
    case PhoneShort => "phoneNumber"
    case PasswordShort => "password"
    case PasswordLong => "password"
    case PasswordWeak => "password"
    case RoleInvalid => "role"
    case WebsiteInvalid => "website"
    case PasswordsDiffer => "retypePassword"
    case CompanyNameMissing => "companyName"
  }

  /** The checks on the password field: length bounds and the pattern, each reported on its own. */
  function PasswordProblems(p: string): (r: seq<Problem>)
    ensures r == [] <==> PasswordOk(p)
    ensures PasswordShort in r <==> |p| < 8
    ensures PasswordLong in r <==> |p| > 30
    ensures PasswordsDiffer !in r && CompanyNameMissing !in r
  {
    (if |p| < 8 then [PasswordShort] else [])
    + (if |p| > 30 then [PasswordLong] else [])
    + (if !PasswordOk(p) then [PasswordWeak] else [])
  }

  /** `z.string().url().optional().or(z.literal(''))`. */
  predicate WebsiteOk(w: string, isUrl: string -> bool) {
    w == "" || isUrl(w)
  }

  /** The field-level issues, in field order. */
  function FieldProblems(f: RegisterForm, isEmail: string -> bool, isUrl: string -> bool): (r: seq<Problem>)
    ensures PasswordsDiffer !in r && CompanyNameMissing !in r
    ensures r == [] <==> |f.username| >= 3 && isEmail(f.email) && |f.phoneNumber| >= 10 && PasswordOk(f.password)
                         && IsRole(f.role) && WebsiteOk(f.website, isUrl)
  {
    var user := if |f.username| < 3 then [UsernameShort] else [];
    var email := if !isEmail(f.email) then [EmailInvalid] else [];
    var phone := if |f.phoneNumber| < 10 then [PhoneShort] else [];
    var password := PasswordProblems(f.password);
    var role := if !IsRole(f.role) then [RoleInvalid] else [];
    var website := if !WebsiteOk(f.website, isUrl) then [WebsiteInvalid] else [];
    var r := user + email + phone + password + role + website;
    assert |r| == |user| + |email| + |phone| + |password| + |role| + |website|;
    forall p | p in r ensures p != PasswordsDiffer && p != CompanyNameMissing {
      assert p in user || p in email || p in phone || p in password || p in role || p in website;
    }
    r
  }

  /** The refinements over the whole form; they run only when no field check aborted parsing. */
  function Refinements(f: RegisterForm): (r: seq<Problem>)
    ensures PasswordsDiffer in r <==> f.password != f.retypePassword
    ensures CompanyNameMissing in r <==> f.role == "company" && f.companyName == ""
    ensures r == [] <==> f.password == f.retypePassword && (f.role == "company" ==> f.companyName != "")
  {
    (if f.password != f.retypePassword then [PasswordsDiffer] else [])
    + (if f.role == "company" && f.companyName == "" then [CompanyNameMissing] else [])
  }

  /**
   * A value outside the role enum aborts the object, so the refinements are skipped; the
   * other field checks only mark it invalid, and the refinements still run.
   */
  function Problems(f: RegisterForm, isEmail: string -> bool, isUrl: string -> bool): (r: seq<Problem>)
    ensures PasswordsDiffer in r <==> IsRole(f.role) && f.password != f.retypePassword
    ensures CompanyNameMissing in r <==> f.role == "company" && f.companyName == ""
    ensures r == [] <==> |f.username| >= 3 && isEmail(f.email) && |f.phoneNumber| >= 10 && PasswordOk(f.password)
                         && f.password == f.retypePassword && IsRole(f.role) && WebsiteOk(f.website, isUrl)
                         && (f.role == "company" ==> f.companyName != "")
  {
    FieldProblems(f, isEmail, isUrl) + (if IsRole(f.role) then Refinements(f) else [])
  }

  /** `JSON.stringify(values)` as the route reads it: every field present, `retypePassword` dropped. */
  function ToBody(f: RegisterForm): (b: RegisterBody)
    ensures b.password == Some(f.password) && b.role == Some(f.role) && b.companyName == Some(f.companyName)
  {
    RegisterBody(Some(f.username), Some(f.email), Some(f.phoneNumber), Some(f.password), Some(f.role),
                 Some(f.companyName), Some(f.companySize), Some(f.industry), Some(f.website))
  }

  /** The body posted on submit, or `None` while the form shows issues. */
  function Submit(f: RegisterForm, isEmail: string -> bool, isUrl: string -> bool): (r: Option<RegisterBody>)
    ensures r.Some? <==> Problems(f, isEmail, isUrl) == []
    ensures r.Some? ==> r.value == ToBody(f)
  {
    if Problems(f, isEmail, isUrl) == [] then Some(ToBody(f)) else None
  }

  /** The mismatch is reported under `retypePassword`, never under `password`. */
  lemma MismatchUnderRetype(f: RegisterForm, isEmail: string -> bool, isUrl: string -> bool)
    requires IsRole(f.role) && f.password != f.retypePassword
    ensures exists i :: 0 <= i < |Problems(f, isEmail, isUrl)| && Problems(f, isEmail, isUrl)[i] == PasswordsDiffer
    ensures Path(PasswordsDiffer) == "retypePassword"
  {
    var r := Problems(f, isEmail, isUrl);
    assert PasswordsDiffer in r;
  }

  /** A form the client accepts passes the route's schema, with the chosen role. */
  lemma AcceptedFormValidates(f: RegisterForm, isEmail: string -> bool, isUrl: string -> bool)
    requires Submit(f, isEmail, isUrl).Some?
    ensures Issues(ToBody(f), isEmail) == []
    ensures Validate(ToBody(f), isEmail).Success? && Validate(ToBody(f), isEmail).value.role == f.role
  {
  }

  /**
   * The client checks the company name without trimming: a blank name passes the
   * form and is refused by the route.
   */
  lemma BlankCompanyNameSlipsThrough(f: RegisterForm, isEmail: string -> bool, isUrl: string -> bool,
                                     users: seq<Records.UserDoc>, hash: string -> string, now: int, id: Records.ObjectId)
    requires Submit(f, isEmail, isUrl).Some?
    requires f.role == "company" && AllWhitespace(f.companyName)
    ensures f.companyName != ""
    ensures Register(users, ToBody(f), isEmail, hash, now, id).0 == CompanyNameRequired
  {
  }

  /** A company account with a real name, new email and new phone is stored with its company details. */
  lemma CompanyAccountStored(f: RegisterForm, isEmail: string -> bool, isUrl: string -> bool,
                             users: seq<Records.UserDoc>, hash: string -> string, now: int, id: Records.ObjectId)
    requires Submit(f, isEmail, isUrl).Some?
    requires f.role == "company" && !AllWhitespace(f.companyName)
    requires !Taken(users, f.email, f.phoneNumber)
    ensures var (resp, after) := Register(users, ToBody(f), isEmail, hash, now, id);
            resp == Registered(id) && after[|users|].companyInfo.Some?
            && after[|users|].companyInfo.value.companyName == f.companyName
            && (after[|users|].companyInfo.value.website.Some? <==> f.website != "")
  {
    RegisterOutcome(users, ToBody(f), isEmail, hash, now, id);
  }
}
