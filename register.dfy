/**
 * The registration page for donors and blood banks: a form held as a map from
 * field names to the text typed in, two ordered checks on submit (the password
 * must equal its confirmation, then a donor's age must lie in [18, 65]), and,
 * after a simulated network delay, the user record handed to `register`.
 */
module Register {
  import opened Wrappers
  import opened Text
  import opened Auth
  import ProtectedRoute

  /** `formData`: input name to the text typed in. */
  type FormData = map<string, string>

  /** The inputs the page renders for each kind of account. */
  function FieldNames(t: UserType): set<string> {
    {"name", "email", "password", "confirmPassword"}
    + (if t == Donor then {"age", "bloodGroup", "mobileNumber"}
       else {"address", "contactNumber", "licenseNumber"})
  }

  /** The form the page starts with: every field of that kind of account, empty. */
  function InitialForm(t: UserType): (form: FormData)
    ensures form.Keys == FieldNames(t)
    ensures forall k :: k in form ==> form[k] == ""
  {
    map k | k in FieldNames(t) :: ""
  }

  const PasswordMismatch: string := "Passwords do not match"
  const AgeOutOfRange: string := "Age must be between 18 and 65 to register as a donor"

  /**
   * `parseInt(age) < 18 || parseInt(age) > 65`. Both comparisons are false for
   * NaN, so an age that does not parse is not rejected.
   */
  predicate AgeRejected(age: string): (rejected: bool)
    ensures !rejected <==> ParseInt(age).None? || 18 <= ParseInt(age).value <= 65
  {
    match ParseInt(age)
    case None => false
    case Some(n) => n < 18 || n > 65
  }

  /** For a typed numeral the age check is exactly "outside [18, 65]". */
  lemma AgeRejectedNumeral(n: nat)
    ensures AgeRejected(DecimalString(n)) <==> n < 18 || n > 65
  {
    ParseIntDecimal(n, "");
    assert DecimalString(n) + "" == DecimalString(n);
  }

  /** Also for a numeral with a fraction or a unit after it: "17.9" is 17 and rejected, "65.5" is 65 and accepted. */
  lemma AgeRejectedReadsLeadingNumeral(n: nat, rest: string)
    requires rest == [] || (!IsDigitOf(rest[0], 10) && rest[0] != 'x' && rest[0] != 'X')
    ensures AgeRejected(DecimalString(n) + rest) <==> n < 18 || n > 65
  {
    ParseIntDecimal(n, rest);
  }

  /** The submit checks in order: the passwords first, then (for donors only) the age. */
  function ValidationError(t: UserType, form: FormData): (err: Option<string>)
    requires FieldNames(t) <= form.Keys
    ensures form["password"] != form["confirmPassword"] ==> err == Some(PasswordMismatch)
    ensures err == Some(AgeOutOfRange)
            <==> form["password"] == form["confirmPassword"] && t == Donor && AgeRejected(form["age"])
    ensures err == None
            <==> form["password"] == form["confirmPassword"] && !(t == Donor && AgeRejected(form["age"]))
  {
    if form["password"] != form["confirmPassword"] then Some(PasswordMismatch)
    else if t == Donor && AgeRejected(form["age"]) then Some(AgeOutOfRange)
    else None
  }

  /** A donor form with matching passwords and the numeral of an age in [18, 65] passes both checks. */
  lemma DonorFormAccepted(form: FormData, age: nat)
    requires FieldNames(Donor) <= form.Keys && 18 <= age <= 65
    requires form["password"] == form["confirmPassword"] && form["age"] == DecimalString(age)
    ensures ValidationError(Donor, form) == None
  {
    AgeRejectedNumeral(age);
  }

  /** A blood bank is never refused for its age, whatever the form holds. */
  lemma BanksSkipAgeCheck(form: FormData)
    requires FieldNames(BloodBank) <= form.Keys
    ensures ValidationError(BloodBank, form) != Some(AgeOutOfRange)
  {
  }

  /** A donor age that does not parse (NaN) gets through the age check. */
  lemma UnparsableAgePasses(form: FormData)
    requires FieldNames(Donor) <= form.Keys
    requires form["password"] == form["confirmPassword"] && ParseInt(form["age"]).None?
    ensures ValidationError(Donor, form) == None
  {
  }

  /** The user record handed to `register`: id, name, email and exactly the fields of that kind of account. */
  function BuildUser(t: UserType, form: FormData, id: string): (u: User)
    requires FieldNames(t) <= form.Keys
    ensures u.id == id && u.name == form["name"] && u.email == form["email"]
    ensures u.profile.DonorProfile? <==> t == Donor
    ensures u.profile.BankProfile? <==> t == BloodBank
    ensures t == Donor ==> u.profile == DonorProfile(form["age"], form["bloodGroup"], form["mobileNumber"])
    ensures t == BloodBank
            ==> u.profile == BankProfile(form["address"], form["contactNumber"], form["licenseNumber"])
  {
    User(id, form["name"], form["email"],
         if t == Donor then DonorProfile(form["age"], form["bloodGroup"], form["mobileNumber"])
         else BankProfile(form["address"], form["contactNumber"], form["licenseNumber"]))
  }

  /** Where a successful registration goes: the profile page of that kind of account, a route guarded for that role. */
  function ProfilePath(t: UserType): (path: string)
    ensures path in ProtectedRoute.DeclaredRoutes
    ensures path == "/" + t.Name() + "/profile"
    ensures t == Donor ==> path == "/donor/profile"
    ensures t == BloodBank ==> path == "/bloodbank/profile"
  {
    if t == Donor then ProtectedRoute.DeclaredRoutes[4] else ProtectedRoute.DeclaredRoutes[8]
  }

  class RegisterForm {
    const userType: UserType
    var formData: FormData
    var error: string
    var isLoading: bool
    /** The form captured by the registration the delay timer will run, if one is scheduled. */
    var pending: Option<FormData>

    /** Every field of this kind of account is in the form (and in a captured one). */
    ghost predicate Valid()
      reads this
    {
      FieldNames(userType) <= formData.Keys
      && (pending.Some? ==> FieldNames(userType) <= pending.value.Keys)
    }

    constructor (t: UserType)
      ensures Valid()
      ensures userType == t && formData == InitialForm(t) && error == "" && !isLoading && pending == None
    {
      userType := t;
      formData := InitialForm(t);
      error := "";
      isLoading := false;
      pending := None;
    }

    /** `handleChange`: the named field takes the typed value; every other field is kept. */
    method HandleChange(name: string, value: string)
      requires Valid()
      modifies this
      ensures Valid()
      ensures formData == old(formData)[name := value]
      ensures name in formData && formData[name] == value
      ensures forall k :: k in old(formData) && k != name ==> k in formData && formData[k] == old(formData)[k]
      ensures error == old(error) && isLoading == old(isLoading) && pending == old(pending)
    {
      formData := formData[name := value];
    }

    /**
     * `handleSubmit`: the error is cleared, then the checks run in order; the
     * first that fails sets its message and stops. When both pass, loading
     * starts and the registration is scheduled with the form as it is now.
     */
    method HandleSubmit()
      requires Valid()
      modifies this
      ensures Valid()
      ensures formData == old(formData)
      ensures match ValidationError(userType, old(formData))
        case Some(message) => error == message && isLoading == old(isLoading) && pending == old(pending)
        case None => error == "" && isLoading && pending == Some(old(formData))
    {
      error := "";
      if formData["password"] != formData["confirmPassword"] {
        error := PasswordMismatch;
        return;
      }
      if userType == Donor && AgeRejected(formData["age"]) {
        error := AgeOutOfRange;
        return;
      }
      isLoading := true;
      pending := Some(formData);
    }

    /**
     * The delayed part of the submit: build the user from the captured form,
     * register it (which always succeeds), go to the profile page and stop loading.
     */
    method CompleteRegistration(auth: AuthProvider, id: string) returns (navigateTo: string)
      requires Valid() && pending.Some?
      modifies this, auth, auth.storage
      ensures Valid()
      ensures auth.currentUser == Some(BuildUser(userType, old(pending.value), id))
      ensures auth.userType == Some(userType) && auth.loading == old(auth.loading)
      ensures auth.storage.item == Some(SessionRecord(BuildUser(userType, old(pending.value), id), userType))
      ensures navigateTo == ProfilePath(userType)
      ensures !isLoading && error == old(error) && formData == old(formData) && pending == None
    {
      var user := BuildUser(userType, pending.value, id);
      var success := auth.Register(user, userType);
      // `register` always reports success, so the page's failure message is never set here.
      navigateTo := ProfilePath(userType);
      isLoading := false;
      pending := None;
    }
  }

  /**
   * On a fresh page load with nothing stored, a donor fills in matching
   * passwords and an age in [18, 65], submits, and the delayed registration
   * runs: the donor lands on a profile page that the route gate renders.
   */
  method RegisterDonorThenOpenProfile(password: string, age: nat, id: string)
    returns (navigateTo: string, gate: ProtectedRoute.Outcome)
    requires 18 <= age <= 65
    ensures navigateTo == "/donor/profile" && gate == ProtectedRoute.RenderChildren
  {
    var storage := new BrowserStorage(None);
    var auth := new AuthProvider(storage);
    var completed := auth.Restore();
    var page := new RegisterForm(Donor);
    page.HandleChange("password", password);
    page.HandleChange("confirmPassword", password);
    page.HandleChange("age", DecimalString(age));
    DonorFormAccepted(page.formData, age);
    page.HandleSubmit();
    navigateTo := page.CompleteRegistration(auth, id);
    gate := ProtectedRoute.Gate(auth, Donor);
  }

  /** With mismatched passwords the password error is reported, never the age error, and nothing is scheduled. */
  method SubmitMismatchedPasswords(t: UserType, password: string, confirmation: string, age: string)
    returns (error: string, scheduled: bool)
    requires password != confirmation
    ensures error == PasswordMismatch && !scheduled
  {
    var page := new RegisterForm(t);
    page.HandleChange("password", password);
    page.HandleChange("confirmPassword", confirmation);
    page.HandleChange("age", age);
    page.HandleSubmit();
    error, scheduled := page.error, page.pending.Some?;
  }
}
