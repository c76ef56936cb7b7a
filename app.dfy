/** The application root: the state it holds (the account list, the
    redemption log, the meal lock and the two sessions), the handlers it
    passes down to the components, and the choice of screen. */
module App {
  import opened Optional
  import opened Records
  import Lists

  datatype Screen = LoginScreen | StudentScreen | AdminScreen

  /** The screen rendered for a session state: the student dashboard while a
      student is logged in, else the admin dashboard while the admin flag is
      set, else the login page. */
  function ScreenFor(currentUser: Option<Account>, isAdminLoggedIn: bool): (s: Screen)
    ensures s == StudentScreen <==> currentUser.Some?
    ensures s == AdminScreen <==> currentUser.None? && isAdminLoggedIn
    ensures s == LoginScreen <==> currentUser.None? && !isAdminLoggedIn
  {
    if currentUser.None? && !isAdminLoggedIn then LoginScreen
    else if currentUser.Some? then StudentScreen
    else AdminScreen
  }

  /** The fields a caller of `addTransaction` supplies. */
  datatype TransactionData = TransactionData(
    studentId: string, studentName: string, mealType: Meal, tokensUsed: int, remainingTokens: int)

  /** The two readings of the clock `addTransaction` takes: the first gives
      `date`, the second `timestamp`. Across midnight UTC they fall on
      different days. */
  datatype Clock = Clock(dated: Instant, stamped: Instant)

  /** `{ ...transaction, id, date, timestamp }`: `date` is the calendar day
      of the first reading, `timestamp` the second reading. */
  function Stamp(d: TransactionData, id: real, now: Clock): Transaction {
    Transaction(id, d.studentId, d.studentName, d.mealType, d.tokensUsed, d.remainingTokens,
                Some(now.dated.day), Some(now.stamped))
  }

  /** The caller-supplied part of a log entry. */
  function Fields(t: Transaction): TransactionData {
    TransactionData(t.studentId, t.studentName, t.mealType, t.tokensUsed, t.remainingTokens)
  }

  /** Stamping keeps every caller field; the id comes from the argument, the
      day from the first clock reading and the time from the second. */
  lemma StampKeepsFields(d: TransactionData, id: real, now: Clock)
    ensures Fields(Stamp(d, id, now)) == d
    ensures Stamp(d, id, now).id == id && Stamp(d, id, now).date == Some(now.dated.day)
    ensures Stamp(d, id, now).timestamp == Some(now.stamped)
  {
  }

  /** No stored balance or spend total is negative, nor the session copy's. */
  ghost predicate StateOk(students: seq<Account>, currentUser: Option<Account>) {
    LedgerOk(students) && (currentUser.Some? ==> LedgerOk([currentUser.value]))
  }

  /** The logged-in student's copy is one of the stored accounts. */
  ghost predicate Synced(students: seq<Account>, currentUser: Option<Account>) {
    currentUser.Some? ==> currentUser.value in students
  }

  /** The session copy after `updateStudent(id, p)`. */
  function SessionAfter(currentUser: Option<Account>, id: string, p: AccountPatch): Option<Account> {
    if currentUser.Some? && currentUser.value.id == id then Some(Apply(currentUser.value, p)) else currentUser
  }

  /** An update that writes no negative value keeps the ledger invariant,
      and the session copy stays one of the stored accounts. */
  lemma UpdateKeepsState(students: seq<Account>, currentUser: Option<Account>, id: string, p: AccountPatch)
    ensures StateOk(students, currentUser) && PatchOk(p) ==>
      StateOk(UpdateById(students, id, p), SessionAfter(currentUser, id, p))
    ensures Synced(students, currentUser) ==> Synced(UpdateById(students, id, p), SessionAfter(currentUser, id, p))
  {
    if Synced(students, currentUser) && currentUser.Some? {
      UpdateKeepsMember(students, currentUser.value, id, p);
    }
    if StateOk(students, currentUser) && PatchOk(p) {
      UpdateKeepsLedgerOk(students, id, p);
      if currentUser.Some? {
        UpdateKeepsLedgerOk([currentUser.value], id, p);
        assert UpdateById([currentUser.value], id, p) == [SessionAfter(currentUser, id, p).value];
      }
    }
  }

  /** The two accounts the application starts with. */
  const SeedStudents: seq<Account> := [
    Account("STU001", "Rajesh Kumar", "1234", "rajesh@college.com", "A-101",
            true, true, false, 45, 5400, [], []),
    Account("STU002", "Priya Singh", "1234", "priya@college.com", "B-205",
            true, true, true, 72, 8640, [], [])
  ]

  lemma SeedLedgerOk()
    ensures LedgerOk(SeedStudents) && |SeedStudents| == 2
    ensures SeedStudents[0].id == "STU001" && SeedStudents[1].id == "STU002"
  {
  }

  /** The state held by the application root. */
  class Store {
    var students: seq<Account>
    var transactions: seq<Transaction>
    var mealLocked: bool
    var currentUser: Option<Account>
    var isAdminLoggedIn: bool

    ghost predicate Valid()
      reads this
    {
      StateOk(students, currentUser)
    }

    ghost predicate SessionSynced()
      reads this
    {
      Synced(students, currentUser)
    }

    /** The initial state: the two seed accounts, an empty log, the meals
        unlocked and nobody logged in. */
    constructor ()
      ensures Valid() && SessionSynced()
      ensures students == SeedStudents && transactions == [] && !mealLocked
      ensures currentUser == None && !isAdminLoggedIn
    {
      students := SeedStudents;
      transactions := [];
      mealLocked := false;
      currentUser := None;
      isAdminLoggedIn := false;
    }

    function View(): Screen
      reads this
    {
      ScreenFor(currentUser, isAdminLoggedIn)
    }

    /** `handleLogout`: both sessions end; nothing stored changes. */
    method HandleLogout()
      modifies this
      ensures currentUser == None && !isAdminLoggedIn && View() == LoginScreen
      ensures students == old(students) && transactions == old(transactions) && mealLocked == old(mealLocked)
      ensures old(Valid()) ==> Valid()
    {
      currentUser := None;
      isAdminLoggedIn := false;
    }

    /** `onStudentLogin`. */
    method SetCurrentUser(user: Account)
      modifies this
      ensures currentUser == Some(user) && View() == StudentScreen
      ensures students == old(students) && transactions == old(transactions)
      ensures mealLocked == old(mealLocked) && isAdminLoggedIn == old(isAdminLoggedIn)
      ensures user in students ==> SessionSynced()
      ensures old(Valid()) && user in students ==> Valid()
    {
      currentUser := Some(user);
    }

    /** `onAdminLogin`. */
    method SetAdminLoggedIn(value: bool)
      modifies this
      ensures isAdminLoggedIn == value
      ensures students == old(students) && transactions == old(transactions)
      ensures mealLocked == old(mealLocked) && currentUser == old(currentUser)
      ensures old(Valid()) ==> Valid()
    {
      isAdminLoggedIn := value;
    }

    /** `setMealLocked`: only the lock changes. */
    method SetMealLocked(value: bool)
      modifies this
      ensures mealLocked == value
      ensures students == old(students) && transactions == old(transactions)
      ensures currentUser == old(currentUser) && isAdminLoggedIn == old(isAdminLoggedIn)
      ensures old(Valid()) ==> Valid()
    {
      mealLocked := value;
    }

    /** `updateStudent(id, p)`: every stored account with the id is merged
        with `p`, and so is the session copy when it carries the id; nothing
        else changes. */
    method UpdateStudent(id: string, p: AccountPatch)
      modifies this
      ensures students == UpdateById(old(students), id, p)
      ensures currentUser == SessionAfter(old(currentUser), id, p)
      ensures transactions == old(transactions) && mealLocked == old(mealLocked)
      ensures isAdminLoggedIn == old(isAdminLoggedIn)
      ensures old(Valid()) && PatchOk(p) ==> Valid()
      ensures old(SessionSynced()) ==> SessionSynced()
    {
      UpdateKeepsState(students, currentUser, id, p);
      students, currentUser := UpdateById(students, id, p), SessionAfter(currentUser, id, p);
    }

    /** `addTransaction(d)`: exactly one stamped entry is appended. */
    method AddTransaction(d: TransactionData, id: real, now: Clock)
      modifies this
      ensures transactions == old(transactions) + [Stamp(d, id, now)]
      ensures students == old(students) && mealLocked == old(mealLocked)
      ensures currentUser == old(currentUser) && isAdminLoggedIn == old(isAdminLoggedIn)
      ensures old(Valid()) ==> Valid()
      ensures old(SessionSynced()) ==> SessionSynced()
    {
      transactions := transactions + [Stamp(d, id, now)];
    }

    /** `updateComplaint(sid, cid, q)`: only the complaints with id `cid`
        inside the accounts with id `sid` change. The session copy is not
        refreshed. */
    method UpdateComplaint(sid: string, cid: int, q: ComplaintPatch)
      modifies this
      ensures students == UpdateComplaintIn(old(students), sid, cid, q)
      ensures transactions == old(transactions) && mealLocked == old(mealLocked)
      ensures currentUser == old(currentUser) && isAdminLoggedIn == old(isAdminLoggedIn)
      ensures old(Valid()) ==> Valid()
    {
      UpdateComplaintKeepsLedger(students, sid, cid, q);
      students := UpdateComplaintIn(students, sid, cid, q);
    }

    /** `addStudent(a)`: exactly one account is appended at the end. */
    method AddStudent(a: Account)
      modifies this
      ensures students == old(students) + [a]
      ensures transactions == old(transactions) && mealLocked == old(mealLocked)
      ensures currentUser == old(currentUser) && isAdminLoggedIn == old(isAdminLoggedIn)
      ensures old(Valid()) && a.tokens >= 0 && a.totalSpent >= 0 ==> Valid()
      ensures old(SessionSynced()) ==> SessionSynced()
    {
      students := students + [a];
    }

    /** `deleteStudent(id)`: every account with the id goes, the others stay
        in order, and the log is untouched. */
    method DeleteStudent(id: string)
      modifies this
      ensures students == RemoveById(old(students), id)
      ensures transactions == old(transactions) && mealLocked == old(mealLocked)
      ensures currentUser == old(currentUser) && isAdminLoggedIn == old(isAdminLoggedIn)
      ensures old(Valid()) ==> Valid()
      ensures old(SessionSynced()) && (currentUser.Some? ==> currentUser.value.id != id) ==> SessionSynced()
    {
      var before := students;
      students := RemoveById(students, id);
      if old(SessionSynced()) && currentUser.Some? && currentUser.value.id != id {
        var k :| 0 <= k < |before| && before[k] == currentUser.value;
        assert before[k].id != id;
      }
    }
  }

  /** Deleting keeps the survivors in their original order: the list after
      deleting from `a + b` is the list after deleting from `a` followed by
      the list after deleting from `b`. */
  lemma DeleteKeepsOrder(a: seq<Account>, b: seq<Account>, id: string)
    ensures RemoveById(a + b, id) == RemoveById(a, id) + RemoveById(b, id)
  {
    Lists.FilterAppend(a, b, (x: Account) => x.id != id);
  }
}
