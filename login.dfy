/** The login page: student login by e-mail and password, registration of
    a new account, and the admin login. */
module Login {
  import opened Optional
  import opened Text
  import opened Records
  import opened App
  import Lists

  const AdminPassword: string := "admin123"

  /** `students.find(s => s.email === email && s.password === password)`. */
  function FindByCredentials(students: seq<Account>, email: string, password: string): (r: Option<Account>)
    ensures r.Some? ==> r.value in students && r.value.email == email && r.value.password == password
    ensures r.None? <==> forall i :: 0 <= i < |students| ==> !(students[i].email == email && students[i].password == password)
    ensures r.Some? ==> exists k :: (0 <= k < |students| && students[k] == r.value
                                    && forall j :: 0 <= j < k ==> !(students[j].email == email && students[j].password == password))
  {
    match Lists.FirstIndex(students, (a: Account) => a.email == email && a.password == password)
    case Some(k) => Some(students[k])
    case None => None
  }

  /** The account `handleStudentLogin` logs in: none when either field is
      blank, else the first account matching both exactly (untrimmed). */
  function LoginResult(students: seq<Account>, email: string, password: string): (r: Option<Account>)
    ensures r.Some? ==> r.value in students && r.value.email == email && r.value.password == password
    ensures r.None? <==>
      (IsBlank(email) || IsBlank(password)
       || forall i :: 0 <= i < |students| ==> !(students[i].email == email && students[i].password == password))
    ensures r.Some? ==> exists k :: (0 <= k < |students| && students[k] == r.value
                                    && forall j :: 0 <= j < k ==> !(students[j].email == email && students[j].password == password))
  {
    if IsBlank(email) || IsBlank(password) then None
    else FindByCredentials(students, email, password)
  }

  /** `students.some(s => s.email === email)`. */
  predicate EmailRegistered(students: seq<Account>, email: string) {
    exists i :: 0 <= i < |students| && students[i].email == email
  }

  datatype RegisterError = MissingField | PasswordMismatch | EmailTaken

  /** The checks of `handleRegister`, in their order (every field
      non-blank, then the confirmation equal to the password, then the
      e-mail not yet registered); `None` when all pass. */
  function RegisterCheck(students: seq<Account>, name: string, email: string, password: string, confirm: string)
    : (e: Option<RegisterError>)
    ensures e == Some(MissingField) <==> IsBlank(name) || IsBlank(email) || IsBlank(password) || IsBlank(confirm)
    ensures e == Some(PasswordMismatch) <==>
      !IsBlank(name) && !IsBlank(email) && !IsBlank(password) && !IsBlank(confirm) && password != confirm
    ensures e == Some(EmailTaken) <==>
      !IsBlank(name) && !IsBlank(email) && !IsBlank(password) && !IsBlank(confirm) && password == confirm
      && EmailRegistered(students, email)
    ensures e.None? ==> !EmailRegistered(students, email) && password == confirm && !IsBlank(email)
  {
    if IsBlank(name) || IsBlank(email) || IsBlank(password) || IsBlank(confirm) then Some(MissingField)
    else if password != confirm then Some(PasswordMismatch)
    else if EmailRegistered(students, email) then Some(EmailTaken)
    else None
  }

  /** The account registration creates for a roster of `students`, with the
      room drawn as the indices `b`, `f`, `r`. The id is derived from the
      roster length, as written (`RosterStudentId`). */
  function Registered(students: seq<Account>, name: string, email: string, password: string,
                      b: nat, f: nat, r: nat): Account
    requires b < 3 && f < 3 && r < 20
  {
    NewAccount(RosterStudentId(students), name, email, password, RoomName(b, f, r))
  }

  /** The new account has the id `STU` + pad3(length + 1), a room of the
      block-floor-number form, and starts with no tokens, no spend, no meal
      and no history. */
  lemma RegisteredAccount(students: seq<Account>, name: string, email: string, password: string,
                          b: nat, f: nat, r: nat)
    requires b < 3 && f < 3 && r < 20
    ensures var a := Registered(students, name, email, password, b, f, r);
      && a.id == StudentId(|students| + 1) && IsNumberedId(a.id) && IdNumber(a.id) == |students| + 1
      && ParseRoom(a.room) == Some((b, f, r))
      && a.tokens == 0 && a.totalSpent == 0 && !a.breakfast && !a.lunch && !a.dinner
      && a.complaints == [] && a.payments == []
      && LedgerOk([a])
  {
    StudentIdNumber(|students| + 1);
    RoomNameRoundTrip(b, f, r);
  }

  /** Registering after a deletion can repeat an id: with `STU001` deleted
      from the seed accounts, the new account gets `STU002`, which the
      remaining account already holds. */
  lemma RegisterAfterDeleteRepeatsId(name: string, email: string, password: string, b: nat, f: nat, r: nat)
    requires b < 3 && f < 3 && r < 20
    ensures var left := RemoveById(SeedStudents, "STU001");
      var a := Registered(left, name, email, password, b, f, r);
      left == [SeedStudents[1]] && a.id == left[0].id && a.id == "STU002"
  {
    SeedLedgerOk();
    RosterIdCollides(SeedStudents);
  }

  /** No two accounts share an e-mail address. */
  predicate EmailsUnique(students: seq<Account>) {
    forall i, j :: 0 <= i < j < |students| ==> students[i].email != students[j].email
  }

  /** Registration never adds an account whose e-mail is already present,
      so it keeps the addresses unique. */
  lemma RegisterKeepsEmailsUnique(students: seq<Account>, name: string, email: string, password: string,
                                  confirm: string, b: nat, f: nat, r: nat)
    requires b < 3 && f < 3 && r < 20
    requires RegisterCheck(students, name, email, password, confirm).None?
    ensures !EmailRegistered(students, email)
    ensures EmailsUnique(students) ==> EmailsUnique(students + [Registered(students, name, email, password, b, f, r)])
  {
    var s' := students + [Registered(students, name, email, password, b, f, r)];
    if EmailsUnique(students) {
      forall i, j | 0 <= i < j < |s'| ensures s'[i].email != s'[j].email {
        if j == |students| {
          assert s'[i] == students[i];
        } else {
          assert s'[i] == students[i] && s'[j] == students[j];
        }
      }
    }
  }

  /** A registration that passes its checks can log in at once with the
      same e-mail and password, and finds the new account. */
  lemma RegisterThenLogin(students: seq<Account>, name: string, email: string, password: string,
                          confirm: string, b: nat, f: nat, r: nat)
    requires b < 3 && f < 3 && r < 20
    requires RegisterCheck(students, name, email, password, confirm).None?
    ensures var a := Registered(students, name, email, password, b, f, r);
      LoginResult(students + [a], email, password) == Some(a)
  {
    var a := Registered(students, name, email, password, b, f, r);
    var s' := students + [a];
    var p := (x: Account) => x.email == email && x.password == password;
    forall j | 0 <= j < |students| ensures !p(s'[j]) {
      assert s'[j] == students[j];
    }
    Lists.FirstIndexAt(s', p, |students|);
  }

  /** The seed accounts log in with their own credentials, and a wrong
      password is refused. */
  lemma SeedLogin()
    ensures LoginResult(SeedStudents, "priya@college.com", "1234") == Some(SeedStudents[1])
    ensures LoginResult(SeedStudents, "priya@college.com", "12345").None?
  {
    var p := (x: Account) => x.email == "priya@college.com" && x.password == "1234";
    assert !p(SeedStudents[0]) by { assert SeedStudents[0].email[0] != 'p'; }
    Lists.FirstIndexAt(SeedStudents, p, 1);
    assert !IsBlank("priya@college.com") by { assert !IsWhitespace("priya@college.com"[0]); }
    assert !IsBlank("1234") by { assert !IsWhitespace("1234"[0]); }
    SeedWrongPassword();
  }

  lemma SeedWrongPassword()
    ensures FindByCredentials(SeedStudents, "priya@college.com", "12345").None?
  {
    forall i | 0 <= i < |SeedStudents|
      ensures !(SeedStudents[i].email == "priya@college.com" && SeedStudents[i].password == "12345")
    {
      assert |SeedStudents[i].password| == 4;
    }
  }

  /** The form state of the login page, over the store it logs into. */
  class LoginForm {
    const store: Store
    var isLoginMode: bool
    var loginId: string
    var loginPassword: string
    var adminPassword: string
    var regName: string
    var regEmail: string
    var regPassword: string
    var regConfirmPassword: string

    constructor (store: Store)
      ensures this.store == store && isLoginMode
      ensures loginId == "" && loginPassword == "" && adminPassword == ""
      ensures regName == "" && regEmail == "" && regPassword == "" && regConfirmPassword == ""
    {
      this.store := store;
      isLoginMode := true;
      loginId, loginPassword, adminPassword := "", "", "";
      regName, regEmail, regPassword, regConfirmPassword := "", "", "", "";
    }

    /** `handleStudentLogin`: on success the account found becomes the
        session and the two fields are cleared; otherwise nothing changes. */
    method HandleStudentLogin()
      modifies this, store
      ensures var found := LoginResult(old(store.students), old(loginId), old(loginPassword));
        && store.currentUser == (if found.Some? then found else old(store.currentUser))
        && (found.Some? ==> loginId == "" && loginPassword == "" && store.SessionSynced())
        && (found.None? ==> loginId == old(loginId) && loginPassword == old(loginPassword))
      ensures isLoginMode == old(isLoginMode) && adminPassword == old(adminPassword)
      ensures regName == old(regName) && regEmail == old(regEmail)
      ensures regPassword == old(regPassword) && regConfirmPassword == old(regConfirmPassword)
      ensures store.students == old(store.students) && store.transactions == old(store.transactions)
      ensures store.mealLocked == old(store.mealLocked) && store.isAdminLoggedIn == old(store.isAdminLoggedIn)
      ensures old(store.Valid()) ==> store.Valid()
    {
      var user := Authenticate();
      if user.Some? {
        store.SetCurrentUser(user.value);
        loginId := "";
        loginPassword := "";
      }
    }

    /** The guard and the search of `handleStudentLogin`: nothing for a
        blank field, else the first account with both credentials. */
    method Authenticate() returns (user: Option<Account>)
      ensures user == LoginResult(store.students, loginId, loginPassword)
    {
      TrimEmptyIffBlank(loginId);
      TrimEmptyIffBlank(loginPassword);
      if Trim(loginId) == [] || Trim(loginPassword) == [] {
        return None;
      }
      user := FindByCredentials(store.students, loginId, loginPassword);
    }

    /** `handleRegister` with the room drawn as `b`, `f`, `r`: when the
        checks pass, exactly the new account is appended, the form is
        cleared and switches to login; otherwise nothing changes. */
    method HandleRegister(b: nat, f: nat, r: nat)
      requires b < 3 && f < 3 && r < 20
      modifies this, store
      ensures var e := RegisterCheck(old(store.students), old(regName), old(regEmail), old(regPassword), old(regConfirmPassword));
        && (e.None? ==>
              store.students == old(store.students) + [Registered(old(store.students), old(regName), old(regEmail), old(regPassword), b, f, r)]
              && regName == "" && regEmail == "" && regPassword == "" && regConfirmPassword == "" && isLoginMode)
        && (e.Some? ==>
              store.students == old(store.students)
              && regName == old(regName) && regEmail == old(regEmail)
              && regPassword == old(regPassword) && regConfirmPassword == old(regConfirmPassword)
              && isLoginMode == old(isLoginMode))
      ensures loginId == old(loginId) && loginPassword == old(loginPassword) && adminPassword == old(adminPassword)
      ensures store.transactions == old(store.transactions) && store.currentUser == old(store.currentUser)
      ensures store.mealLocked == old(store.mealLocked) && store.isAdminLoggedIn == old(store.isAdminLoggedIn)
      ensures old(store.Valid()) ==> store.Valid()
      ensures old(store.SessionSynced()) ==> store.SessionSynced()
    {
      var e := ValidateRegistration();
      if e.Some? {
        return;
      }
      var newStudent := Registered(store.students, regName, regEmail, regPassword, b, f, r);
      store.AddStudent(newStudent);
      regName, regEmail, regPassword, regConfirmPassword := "", "", "", "";
      isLoginMode := true;
    }

    /** The guard chain of `handleRegister`, returning at the first failure. */
    method ValidateRegistration() returns (e: Option<RegisterError>)
      ensures e == RegisterCheck(store.students, regName, regEmail, regPassword, regConfirmPassword)
    {
      TrimEmptyIffBlank(regName);
      TrimEmptyIffBlank(regEmail);
      TrimEmptyIffBlank(regPassword);
      TrimEmptyIffBlank(regConfirmPassword);
      if Trim(regName) == [] || Trim(regEmail) == [] || Trim(regPassword) == [] || Trim(regConfirmPassword) == [] {
        return Some(MissingField);
      }
      if regPassword != regConfirmPassword {
        return Some(PasswordMismatch);
      }
      if EmailRegistered(store.students, regEmail) {
        return Some(EmailTaken);
      }
      return None;
    }

    /** `handleAdminLogin`: the admin session opens exactly when the typed
        password is the fixed one, and the field is then cleared. */
    method HandleAdminLogin()
      modifies this, store
      ensures store.isAdminLoggedIn == (old(adminPassword) == AdminPassword || old(store.isAdminLoggedIn))
      ensures adminPassword == if old(adminPassword) == AdminPassword then "" else old(adminPassword)
      ensures isLoginMode == old(isLoginMode) && loginId == old(loginId) && loginPassword == old(loginPassword)
      ensures regName == old(regName) && regEmail == old(regEmail)
      ensures regPassword == old(regPassword) && regConfirmPassword == old(regConfirmPassword)
      ensures store.students == old(store.students) && store.currentUser == old(store.currentUser)
      ensures store.transactions == old(store.transactions) && store.mealLocked == old(store.mealLocked)
      ensures old(store.Valid()) ==> store.Valid()
    {
      if adminPassword == AdminPassword {
        store.SetAdminLoggedIn(true);
        adminPassword := "";
      }
    }
  }
}
