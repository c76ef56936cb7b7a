/** The meal counter's scanner: redeeming one token of a student for one
    meal, after three checks that fail fast in a fixed order. */
module QRScanner {
  import opened Optional
  import opened Text
  import opened Records
  import opened App
  import Lists

  /** The outcome of the checks on a non-blank id: the first failing check,
      or the account that may be debited. */
  datatype Verdict =
    | NotFound
    | InsufficientTokens(account: Account)
    | NotSubscribed(account: Account)
    | Redeemed(account: Account)

  /** `students.find(s => s.id === input.toUpperCase())`. */
  function Lookup(students: seq<Account>, input: string): Option<Account> {
    FindById(students, ToUpperCase(input))
  }

  /** The checks of `verifyAndRedeem` in their order: found, then a
      positive balance, then a subscription to the meal. */
  function Check(students: seq<Account>, input: string, meal: Meal): (v: Verdict)
    ensures v.NotFound? <==> Lookup(students, input).None?
    ensures !v.NotFound? ==> Lookup(students, input) == Some(v.account)
    ensures v.InsufficientTokens? ==> v.account.tokens <= 0
    ensures v.NotSubscribed? ==> v.account.tokens > 0 && !Subscribed(v.account, meal)
    ensures v.Redeemed? ==> v.account.tokens > 0 && Subscribed(v.account, meal)
  {
    match Lookup(students, input)
    case None => NotFound
    case Some(a) =>
      if a.tokens <= 0 then InsufficientTokens(a)
      else if !Subscribed(a, meal) then NotSubscribed(a)
      else Redeemed(a)
  }

  /** The update written on success: `{ tokens: student.tokens - 1 }`. */
  function DebitPatch(a: Account): AccountPatch {
    NoUpdates.(tokens := Some(a.tokens - 1))
  }

  /** The log entry recorded on success. */
  function LogEntry(a: Account, meal: Meal): TransactionData {
    TransactionData(a.id, a.name, meal, 1, a.tokens - 1)
  }

  /** The account list and log after `verifyAndRedeem(input)`. */
  function Redeem(students: seq<Account>, log: seq<Transaction>, input: string, meal: Meal,
                  txId: real, now: Clock): (seq<Account>, seq<Transaction>)
  {
    if IsBlank(input) then (students, log)
    else match Check(students, input, meal)
      case Redeemed(a) => (UpdateById(students, a.id, DebitPatch(a)), log + [Stamp(LogEntry(a, meal), txId, now)])
      case _ => (students, log)
  }

  /** The logged-in copy after `verifyAndRedeem(input)`: `updateStudent`
      patches it exactly when the redeemed account is the one logged in. */
  function RedeemSession(currentUser: Option<Account>, students: seq<Account>, input: string, meal: Meal): Option<Account>
  {
    if IsBlank(input) then currentUser
    else match Check(students, input, meal)
      case Redeemed(a) => SessionAfter(currentUser, a.id, DebitPatch(a))
      case _ => currentUser
  }

  /** A blank id and every refusal leave the accounts and the log as they were. */
  lemma RefusalChangesNothing(students: seq<Account>, log: seq<Transaction>, input: string, meal: Meal,
                              txId: real, now: Clock)
    requires IsBlank(input) || !Check(students, input, meal).Redeemed?
    ensures Redeem(students, log, input, meal, txId, now) == (students, log)
  {
  }

  /** A success writes `tokens - 1` into the accounts with the found id and
      nothing else, and appends exactly one entry recording the meal, one
      token used and the new balance. */
  lemma SuccessDebitsOne(students: seq<Account>, log: seq<Transaction>, input: string, meal: Meal,
                         txId: real, now: Clock)
    requires !IsBlank(input) && Check(students, input, meal).Redeemed?
    ensures var a := Check(students, input, meal).account;
      var (s', l') := Redeem(students, log, input, meal, txId, now);
      && |s'| == |students|
      && (forall i :: 0 <= i < |students| ==>
            s'[i] == if students[i].id == a.id then students[i].(tokens := a.tokens - 1) else students[i])
      && |l'| == |log| + 1 && l'[..|log|] == log
      && l'[|log|].studentId == a.id && l'[|log|].studentName == a.name && l'[|log|].mealType == meal
      && l'[|log|].tokensUsed == 1 && l'[|log|].remainingTokens == a.tokens - 1
  {
    var a := Check(students, input, meal).account;
    var s' := Redeem(students, log, input, meal, txId, now).0;
    forall i | 0 <= i < |students|
      ensures s'[i] == if students[i].id == a.id then students[i].(tokens := a.tokens - 1) else students[i]
    {
    }
  }

  /** After a success the account the id finds has exactly one token less,
      so repeated scans drain the balance one meal at a time. */
  lemma SuccessLeavesOneLess(students: seq<Account>, log: seq<Transaction>, input: string, meal: Meal,
                             txId: real, now: Clock)
    requires !IsBlank(input) && Check(students, input, meal).Redeemed?
    ensures var a := Check(students, input, meal).account;
      Lookup(Redeem(students, log, input, meal, txId, now).0, input) == Some(a.(tokens := a.tokens - 1))
  {
    var a := Check(students, input, meal).account;
    var s' := Redeem(students, log, input, meal, txId, now).0;
    var p := (x: Account) => x.id == ToUpperCase(input);
    var k := Lists.FirstIndex(students, p).value;
    assert s'[k] == a.(tokens := a.tokens - 1);
    forall j | 0 <= j < k ensures !p(s'[j]) {
      assert !p(students[j]);
    }
    Lists.FirstIndexAt(s', p, k);
  }

  /** A debit happens only from a positive balance, so redemption never
      makes a balance negative. */
  lemma RedeemKeepsLedgerOk(students: seq<Account>, log: seq<Transaction>, input: string, meal: Meal,
                            txId: real, now: Clock)
    requires LedgerOk(students)
    ensures LedgerOk(Redeem(students, log, input, meal, txId, now).0)
  {
    if !IsBlank(input) && Check(students, input, meal).Redeemed? {
      UpdateKeepsLedgerOk(students, Check(students, input, meal).account.id,
                          DebitPatch(Check(students, input, meal).account));
    }
  }

  /** The id is matched case-insensitively: scanning `stu001` does what
      scanning `STU001` does. */
  lemma RedeemIgnoresCase(students: seq<Account>, log: seq<Transaction>, input: string, meal: Meal,
                          txId: real, now: Clock)
    ensures Redeem(students, log, input, meal, txId, now)
         == Redeem(students, log, ToUpperCase(input), meal, txId, now)
  {
    UpperCaseKeepsBlank(input);
    UpperCaseIdempotent(input);
    assert Lookup(students, ToUpperCase(input)) == Lookup(students, input);
  }

  /** With the seed accounts, `stu001` is found as `STU001`, redeems
      breakfast (leaving 44 tokens) and is refused dinner, which that
      student has not subscribed to. */
  lemma SeedScenario()
    ensures Check(SeedStudents, "stu001", Breakfast) == Redeemed(SeedStudents[0])
    ensures Check(SeedStudents, "stu001", Dinner) == NotSubscribed(SeedStudents[0])
  {
    SeedLowerCaseFound();
  }

  lemma SeedLowerCaseFound()
    ensures Lookup(SeedStudents, "stu001") == Some(SeedStudents[0])
  {
    var u := ToUpperCase("stu001");
    assert u == "STU001" by {
      assert |u| == 6 && u[0] == 'S' && u[1] == 'T' && u[2] == 'U';
      assert u[3] == '0' && u[4] == '0' && u[5] == '1';
    }
    Lists.FirstIndexAt(SeedStudents, (a: Account) => a.id == u, 0);
  }

  /** An id no seed account carries is refused as not found. */
  lemma SeedUnknownId()
    ensures Check(SeedStudents, "STU003", Lunch) == NotFound
  {
    var u := ToUpperCase("STU003");
    assert u == "STU003" by {
      assert |u| == 6 && u[5] == '3';
      assert u[0] == 'S' && u[1] == 'T' && u[2] == 'U' && u[3] == '0' && u[4] == '0';
    }
    forall i | 0 <= i < |SeedStudents| ensures SeedStudents[i].id != u {
      assert SeedStudents[i].id[5] != u[5];
    }
    assert Lookup(SeedStudents, "STU003").None?;
  }

  /** What the scanner shows after a non-blank id. */
  datatype ScanResult = Refused(reason: Verdict) | Done(studentName: string, meal: Meal, remaining: int)

  function ResultOf(v: Verdict, meal: Meal): ScanResult {
    if v.Redeemed? then Done(v.account.name, meal, v.account.tokens - 1) else Refused(v)
  }

  /** The id `handleScannedCode` passes on: the `studentId` of a code that
      parses as a payload carrying it as a string (`payloadId`), otherwise
      the raw text of the code. */
  function ScannedId(raw: string, payloadId: Option<string>): (id: string)
    ensures payloadId.Some? ==> id == payloadId.value
    ensures payloadId.None? ==> id == raw
  {
    if payloadId.Some? then payloadId.value else raw
  }

  /** The scanner component for one meal, over the store it debits. */
  class Scanner {
    const store: Store
    const mealType: Meal
    var scannedCode: string
    var scanResult: Option<ScanResult>

    constructor (store: Store, mealType: Meal)
      ensures this.store == store && this.mealType == mealType
      ensures scannedCode == "" && scanResult == None
    {
      this.store := store;
      this.mealType := mealType;
      scannedCode := "";
      scanResult := None;
    }

    /** `verifyAndRedeem(studentId)`: the accounts and the log become what
        `Redeem` says, the lock is neither consulted nor changed, and the
        ledger invariant is kept. */
    method VerifyAndRedeem(studentId: string, txId: real, now: Clock)
      modifies this, store
      ensures (store.students, store.transactions)
           == Redeem(old(store.students), old(store.transactions), studentId, mealType, txId, now)
      ensures IsBlank(studentId) ==> scanResult == old(scanResult)
      ensures !IsBlank(studentId) ==> scanResult == Some(ResultOf(Check(old(store.students), studentId, mealType), mealType))
      ensures store.currentUser == RedeemSession(old(store.currentUser), old(store.students), studentId, mealType)
      ensures store.mealLocked == old(store.mealLocked) && store.isAdminLoggedIn == old(store.isAdminLoggedIn)
      ensures scannedCode == old(scannedCode)
      ensures old(store.Valid()) ==> store.Valid()
      ensures old(store.SessionSynced()) ==> store.SessionSynced()
    {
      TrimEmptyIffBlank(studentId);
      if Trim(studentId) == [] {
        return;
      }
      var verdict := Decide(studentId);
      if verdict.Redeemed? {
        Debit(verdict.account, txId, now);
      }
      scanResult := Some(ResultOf(verdict, mealType));
    }

    /** The guard chain of `verifyAndRedeem` on a non-blank id, returning at
        the first failing check. */
    method Decide(studentId: string) returns (verdict: Verdict)
      ensures verdict == Check(store.students, studentId, mealType)
    {
      var found := Lookup(store.students, studentId);
      if found.None? {
        return NotFound;
      }
      var student := found.value;
      if student.tokens <= 0 {
        return InsufficientTokens(student);
      }
      if !Subscribed(student, mealType) {
        return NotSubscribed(student);
      }
      return Redeemed(student);
    }

    /** The two effects of a success: the `tokens` write and the log entry. */
    method Debit(student: Account, txId: real, now: Clock)
      requires student.tokens > 0
      modifies store
      ensures store.students == UpdateById(old(store.students), student.id, DebitPatch(student))
      ensures store.transactions == old(store.transactions) + [Stamp(LogEntry(student, mealType), txId, now)]
      ensures store.currentUser == SessionAfter(old(store.currentUser), student.id, DebitPatch(student))
      ensures store.mealLocked == old(store.mealLocked) && store.isAdminLoggedIn == old(store.isAdminLoggedIn)
      ensures old(store.Valid()) ==> store.Valid()
      ensures old(store.SessionSynced()) ==> store.SessionSynced()
    {
      store.UpdateStudent(student.id, DebitPatch(student));
      store.AddTransaction(LogEntry(student, mealType), txId, now);
    }

    /** `handleScannedCode(code)`: the field shows the id taken from the code,
        which is then redeemed. */
    method HandleScannedCode(raw: string, payloadId: Option<string>, txId: real, now: Clock)
      modifies this, store
      ensures scannedCode == ScannedId(raw, payloadId)
      ensures (store.students, store.transactions)
           == Redeem(old(store.students), old(store.transactions), ScannedId(raw, payloadId), mealType, txId, now)
      ensures IsBlank(ScannedId(raw, payloadId)) ==> scanResult == old(scanResult)
      ensures !IsBlank(ScannedId(raw, payloadId)) ==>
        scanResult == Some(ResultOf(Check(old(store.students), ScannedId(raw, payloadId), mealType), mealType))
      ensures store.currentUser == RedeemSession(old(store.currentUser), old(store.students), ScannedId(raw, payloadId), mealType)
      ensures store.mealLocked == old(store.mealLocked) && store.isAdminLoggedIn == old(store.isAdminLoggedIn)
      ensures old(store.Valid()) ==> store.Valid()
      ensures old(store.SessionSynced()) ==> store.SessionSynced()
    {
      scannedCode := ScannedId(raw, payloadId);
      VerifyAndRedeem(scannedCode, txId, now);
    }

    /** `handleManualScan`: redeems the id typed into the field. */
    method HandleManualScan(txId: real, now: Clock)
      modifies this, store
      ensures (store.students, store.transactions)
           == Redeem(old(store.students), old(store.transactions), old(scannedCode), mealType, txId, now)
      ensures IsBlank(old(scannedCode)) ==> scanResult == old(scanResult)
      ensures !IsBlank(old(scannedCode)) ==>
        scanResult == Some(ResultOf(Check(old(store.students), old(scannedCode), mealType), mealType))
      ensures store.currentUser == RedeemSession(old(store.currentUser), old(store.students), old(scannedCode), mealType)
      ensures scannedCode == old(scannedCode)
      ensures store.mealLocked == old(store.mealLocked) && store.isAdminLoggedIn == old(store.isAdminLoggedIn)
      ensures old(store.Valid()) ==> store.Valid()
      ensures old(store.SessionSynced()) ==> store.SessionSynced()
    {
      VerifyAndRedeem(scannedCode, txId, now);
    }
  }
}
