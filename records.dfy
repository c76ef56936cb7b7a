/** The records the application keeps (student accounts with their
    complaints and payments, and the redemption log) and the merge-by-id
    updates of the account list that the store performs with `map`,
    `filter` and object spread. */
module Records {
  import opened Optional
  import opened Text
  import Lists

  datatype Meal = Breakfast | Lunch | Dinner

  /** The complaint categories offered by the complaint form. */
  datatype Category =
    | FoodQuality | Hygiene | Service | Billing
    | RoomLight | RoomWater | RoomFan | RoomCleaning | RoomFurniture | RoomBathroom | RoomOther
    | Suggestion | Other

  datatype PayMethod = Upi | Card | NetBanking | Wallet

  /** A complaint; `kind` is the payload's `type` field and `status` is the
      free text the workflow writes ('pending', 'in-progress', 'resolved'). */
  datatype Complaint = Complaint(
    id: int, subject: string, description: string, category: Category, kind: string,
    status: string, createdAt: string,
    adminReply: Option<string>, repliedAt: Option<string>, resolvedAt: Option<string>)

  datatype Payment = Payment(
    id: int, amount: int, tokens: int, payMethod: PayMethod,
    description: string, status: string, createdAt: string)

  datatype Account = Account(
    id: string, name: string, password: string, email: string, room: string,
    breakfast: bool, lunch: bool, dinner: bool,
    tokens: int, totalSpent: int,
    complaints: seq<Complaint>, payments: seq<Payment>)

  /** A clock reading: the ISO calendar day and the milliseconds since the epoch. */
  datatype Instant = Instant(day: string, millis: int)

  /** A redemption log entry. `date` and `timestamp` are optional because the
      daily report also accepts entries that carry only one of them. */
  datatype Transaction = Transaction(
    id: real, studentId: string, studentName: string, mealType: Meal,
    tokensUsed: int, remainingTokens: int,
    date: Option<string>, timestamp: Option<Instant>)

  /** `student[mealType]`. */
  function Subscribed(a: Account, m: Meal): bool {
    match m
    case Breakfast => a.breakfast
    case Lunch => a.lunch
    case Dinner => a.dinner
  }

  /** Every balance and every spend total is non-negative. */
  predicate LedgerOk(s: seq<Account>) {
    forall i :: 0 <= i < |s| ==> s[i].tokens >= 0 && s[i].totalSpent >= 0
  }

  /** The object of updates that `updateStudent` spreads into an account:
      a field is written exactly when it is present. */
  datatype AccountPatch = AccountPatch(
    room: Option<string>, breakfast: Option<bool>, lunch: Option<bool>, dinner: Option<bool>,
    tokens: Option<int>, totalSpent: Option<int>,
    complaints: Option<seq<Complaint>>, payments: Option<seq<Payment>>)

  const NoUpdates := AccountPatch(None, None, None, None, None, None, None, None)

  function Pick<T>(o: Option<T>, d: T): T {
    if o.Some? then o.value else d
  }

  /** The update object `{ [mealType]: value }`. */
  function MealPatch(m: Meal, value: bool): AccountPatch {
    match m
    case Breakfast => NoUpdates.(breakfast := Some(value))
    case Lunch => NoUpdates.(lunch := Some(value))
    case Dinner => NoUpdates.(dinner := Some(value))
  }

  /** `{ ...a, ...p }`. */
  function Apply(a: Account, p: AccountPatch): Account {
    a.(room := Pick(p.room, a.room),
       breakfast := Pick(p.breakfast, a.breakfast), lunch := Pick(p.lunch, a.lunch),
       dinner := Pick(p.dinner, a.dinner),
       tokens := Pick(p.tokens, a.tokens), totalSpent := Pick(p.totalSpent, a.totalSpent),
       complaints := Pick(p.complaints, a.complaints), payments := Pick(p.payments, a.payments))
  }

  /** `{ ...p, ...q }`: the later object wins on the fields both carry. */
  function Then(p: AccountPatch, q: AccountPatch): AccountPatch {
    AccountPatch(
      if q.room.Some? then q.room else p.room,
      if q.breakfast.Some? then q.breakfast else p.breakfast,
      if q.lunch.Some? then q.lunch else p.lunch,
      if q.dinner.Some? then q.dinner else p.dinner,
      if q.tokens.Some? then q.tokens else p.tokens,
      if q.totalSpent.Some? then q.totalSpent else p.totalSpent,
      if q.complaints.Some? then q.complaints else p.complaints,
      if q.payments.Some? then q.payments else p.payments)
  }

  /** Spreading two update objects one after the other is spreading their merge. */
  lemma ApplyThen(a: Account, p: AccountPatch, q: AccountPatch)
    ensures Apply(Apply(a, p), q) == Apply(a, Then(p, q))
  {
  }

  /** An update applied twice has the effect of applying it once. */
  lemma ApplyIdempotent(a: Account, p: AccountPatch)
    ensures Apply(Apply(a, p), p) == Apply(a, p)
  {
  }

  /** No update object can change an account's identity or credentials, and
      the empty one changes nothing. */
  lemma ApplyKeepsIdentity(a: Account, p: AccountPatch)
    ensures Apply(a, p).id == a.id && Apply(a, p).name == a.name
    ensures Apply(a, p).email == a.email && Apply(a, p).password == a.password
    ensures Apply(a, NoUpdates) == a
  {
  }

  /** The meal-flag update writes that one flag and nothing else. */
  lemma MealPatchWritesOneFlag(a: Account, m: Meal, value: bool, n: Meal)
    ensures Subscribed(Apply(a, MealPatch(m, value)), n) == if n == m then value else Subscribed(a, n)
    ensures Apply(a, MealPatch(m, value)).(breakfast := a.breakfast, lunch := a.lunch, dinner := a.dinner) == a
  {
  }

  /** An update keeps the ledger invariant when it writes no negative balance or total. */
  predicate PatchOk(p: AccountPatch) {
    (p.tokens.Some? ==> p.tokens.value >= 0) && (p.totalSpent.Some? ==> p.totalSpent.value >= 0)
  }

  /** `students.find(s => s.id === id)`. */
  function FindById(s: seq<Account>, id: string): (r: Option<Account>)
    ensures r.Some? ==> r.value in s && r.value.id == id
    ensures r.None? <==> forall i :: 0 <= i < |s| ==> s[i].id != id
    ensures r.Some? ==> exists k :: 0 <= k < |s| && s[k] == r.value && forall j :: 0 <= j < k ==> s[j].id != id
  {
    match Lists.FirstIndex(s, (a: Account) => a.id == id)
    case Some(k) => Some(s[k])
    case None => None
  }

  /** `prev.map(s => s.id === id ? { ...s, ...p } : s)`: every account with
      the id is merged with the updates and every other account is kept. */
  function UpdateById(s: seq<Account>, id: string, p: AccountPatch): (r: seq<Account>)
    ensures |r| == |s|
    ensures forall i :: 0 <= i < |s| ==> r[i] == if s[i].id == id then Apply(s[i], p) else s[i]
  {
    if s == [] then []
    else [if s[0].id == id then Apply(s[0], p) else s[0]] + UpdateById(s[1..], id, p)
  }

  /** Updating an id that no account carries leaves the list as it is. */
  lemma UpdateUnknownId(s: seq<Account>, id: string, p: AccountPatch)
    requires forall i :: 0 <= i < |s| ==> s[i].id != id
    ensures UpdateById(s, id, p) == s
  {
  }

  /** Updates never change which ids the list holds, nor their order. */
  lemma UpdateKeepsIds(s: seq<Account>, id: string, p: AccountPatch)
    ensures forall i :: 0 <= i < |s| ==> UpdateById(s, id, p)[i].id == s[i].id
  {
  }

  lemma UpdateKeepsLedgerOk(s: seq<Account>, id: string, p: AccountPatch)
    requires LedgerOk(s) && PatchOk(p)
    ensures LedgerOk(UpdateById(s, id, p))
  {
  }

  /** A stored account is still stored after an update, merged when its id matches. */
  lemma UpdateKeepsMember(s: seq<Account>, a: Account, id: string, p: AccountPatch)
    requires a in s
    ensures (if a.id == id then Apply(a, p) else a) in UpdateById(s, id, p)
  {
    var k :| 0 <= k < |s| && s[k] == a;
    assert UpdateById(s, id, p)[k] == (if a.id == id then Apply(a, p) else a);
  }

  /** `prev.filter(s => s.id !== id)`. */
  function RemoveById(s: seq<Account>, id: string): (r: seq<Account>)
    ensures |r| <= |s|
    ensures forall i :: 0 <= i < |r| ==> r[i].id != id && r[i] in s
    ensures forall i :: 0 <= i < |s| && s[i].id != id ==> s[i] in r
    ensures (forall i :: 0 <= i < |s| ==> s[i].id != id) ==> r == s
  {
    var keep := (a: Account) => a.id != id;
    if forall i :: 0 <= i < |s| ==> s[i].id != id then Lists.FilterAll(s, keep); Lists.Filter(s, keep)
    else Lists.Filter(s, keep)
  }

  /** The update object that `updateComplaint` spreads into one complaint. */
  datatype ComplaintPatch = ComplaintPatch(
    status: Option<string>, adminReply: Option<string>,
    repliedAt: Option<string>, resolvedAt: Option<string>)

  /** `{ ...c, ...q }`. */
  function ApplyToComplaint(c: Complaint, q: ComplaintPatch): Complaint {
    c.(status := Pick(q.status, c.status),
       adminReply := if q.adminReply.Some? then q.adminReply else c.adminReply,
       repliedAt := if q.repliedAt.Some? then q.repliedAt else c.repliedAt,
       resolvedAt := if q.resolvedAt.Some? then q.resolvedAt else c.resolvedAt)
  }

  /** `complaints.map(c => c.id === complaintId ? { ...c, ...q } : c)`. */
  function UpdateComplaintById(cs: seq<Complaint>, cid: int, q: ComplaintPatch): (r: seq<Complaint>)
    ensures |r| == |cs|
    ensures forall i :: 0 <= i < |cs| ==> r[i] == if cs[i].id == cid then ApplyToComplaint(cs[i], q) else cs[i]
  {
    if cs == [] then []
    else [if cs[0].id == cid then ApplyToComplaint(cs[0], q) else cs[0]] + UpdateComplaintById(cs[1..], cid, q)
  }

  /** The list after `updateComplaint(studentId, complaintId, q)`: in every
      account with the student id, the complaints with the complaint id are
      merged with `q`; nothing else changes. */
  function UpdateComplaintIn(s: seq<Account>, sid: string, cid: int, q: ComplaintPatch): (r: seq<Account>)
    ensures |r| == |s|
    ensures forall i :: 0 <= i < |s| ==>
      r[i] == if s[i].id == sid then s[i].(complaints := UpdateComplaintById(s[i].complaints, cid, q)) else s[i]
  {
    if s == [] then []
    else
      [if s[0].id == sid then s[0].(complaints := UpdateComplaintById(s[0].complaints, cid, q)) else s[0]]
      + UpdateComplaintIn(s[1..], sid, cid, q)
  }

  /** An unknown student id, or a complaint id that none of that student's
      complaints carries, leaves the list unchanged. */
  lemma UpdateComplaintUnknown(s: seq<Account>, sid: string, cid: int, q: ComplaintPatch)
    requires forall i, j :: 0 <= i < |s| && s[i].id == sid && 0 <= j < |s[i].complaints| ==> s[i].complaints[j].id != cid
    ensures UpdateComplaintIn(s, sid, cid, q) == s
  {
    var r := UpdateComplaintIn(s, sid, cid, q);
    forall i | 0 <= i < |s| ensures r[i] == s[i] {
      if s[i].id == sid {
        assert UpdateComplaintById(s[i].complaints, cid, q) == s[i].complaints;
      }
    }
  }

  lemma UpdateComplaintKeepsLedger(s: seq<Account>, sid: string, cid: int, q: ComplaintPatch)
    ensures forall i :: 0 <= i < |s| ==>
      UpdateComplaintIn(s, sid, cid, q)[i] == s[i].(complaints := UpdateComplaintIn(s, sid, cid, q)[i].complaints)
    ensures LedgerOk(s) ==> LedgerOk(UpdateComplaintIn(s, sid, cid, q))
  {
  }

  /** A fresh account as registration and the admin form build it: no
      tokens, nothing spent, no meal, no complaint and no payment. */
  function NewAccount(id: string, name: string, email: string, password: string, room: string): Account {
    Account(id, name, password, email, room, false, false, false, 0, 0, [], [])
  }

  /** `` `STU${String(n).padStart(3, '0')}` ``. */
  function StudentId(n: nat): string {
    "STU" + PadStart(DecimalString(n), 3, '0')
  }

  /** The number is recovered from the id: the prefix is `STU` and the rest
      reads back as `n`, whatever its width. */
  lemma StudentIdNumber(n: nat)
    ensures |StudentId(n)| >= 6 && StudentId(n)[..3] == "STU"
    ensures AllDigits(StudentId(n)[3..]) && ParseDecimal(StudentId(n)[3..]) == n
  {
    PaddedDecimal(n, 3);
    assert StudentId(n)[3..] == PadStart(DecimalString(n), 3, '0');
  }

  lemma StudentIdInjective(n: nat, m: nat)
    requires StudentId(n) == StudentId(m)
    ensures n == m
  {
    StudentIdNumber(n);
    StudentIdNumber(m);
  }

  /** Numbers 1 to 999 give the six-character form `STU001` … `STU999`. */
  lemma StudentIdWidth(n: nat)
    requires n < 1000
    ensures |StudentId(n)| == 6
  {
    DecimalLength(n, 3);
  }

  lemma StudentIdFirst()
    ensures StudentId(1) == "STU001"
  {
    assert DecimalString(1) == ['1'];
    var r := PadStart(['1'], 3, '0');
    assert |r| == 3 && r[2..] == ['1'] && r[0] == '0' && r[1] == '0';
    assert r == "001";
  }

  /** An id of the form `STU` followed by one or more digits. */
  predicate IsNumberedId(id: string) {
    |id| > 3 && id[..3] == "STU" && AllDigits(id[3..])
  }

  function IdNumber(id: string): nat
    requires IsNumberedId(id)
  {
    ParseDecimal(id[3..])
  }

  /** The largest number among the numbered ids of the list, 0 if none. */
  function MaxIdNumber(s: seq<Account>): nat {
    if s == [] then 0
    else
      var rest := MaxIdNumber(s[1..]);
      var here := if IsNumberedId(s[0].id) then IdNumber(s[0].id) else 0;
      if here > rest then here else rest
  }

  /** No numbered id in the list carries a number above `MaxIdNumber`. */
  lemma {:induction false} MaxIdNumberBounds(s: seq<Account>)
    ensures forall i :: 0 <= i < |s| && IsNumberedId(s[i].id) ==> IdNumber(s[i].id) <= MaxIdNumber(s)
  {
    if s != [] {
      MaxIdNumberBounds(s[1..]);
      assert forall i :: 1 <= i < |s| ==> s[i] == s[1..][i - 1];
    }
  }

  /** The id the registration and admin forms derive, as written: one past
      the length of the current roster. */
  function RosterStudentId(s: seq<Account>): string {
    StudentId(|s| + 1)
  }

  /** After a deletion the derived id can be one that is still in use:
      deleting `STU001` from the two seed accounts leaves `STU002`, and the
      next account would get `STU002` again. */
  lemma RosterIdCollides(s: seq<Account>)
    requires |s| == 2 && s[0].id == "STU001" && s[1].id == "STU002"
    ensures var left := RemoveById(s, "STU001");
      left == [s[1]] && RosterStudentId(left) == left[0].id
  {
    var keep := (a: Account) => a.id != "STU001";
    assert s[1..][1..] == [];
    assert Lists.Filter(s[1..], keep) == [s[1]];
    StudentIdTwoDigitsTwo();
  }

  lemma StudentIdTwoDigitsTwo()
    ensures StudentId(2) == "STU002"
  {
    assert DecimalString(2) == ['2'];
    var r := PadStart(['2'], 3, '0');
    assert |r| == 3 && r[2..] == ['2'] && r[0] == '0' && r[1] == '0';
    assert r == "002";
  }

  /** The id a new account should get: one past the largest number in use. */
  function NextStudentId(s: seq<Account>): string {
    StudentId(MaxIdNumber(s) + 1)
  }

  /** The derived id is never one already in the list. */
  lemma NextStudentIdFresh(s: seq<Account>)
    ensures forall i :: 0 <= i < |s| ==> s[i].id != NextStudentId(s)
    ensures IsNumberedId(NextStudentId(s)) && IdNumber(NextStudentId(s)) == MaxIdNumber(s) + 1
  {
    var k := MaxIdNumber(s) + 1;
    MaxIdNumberBounds(s);
    StudentIdNumber(k);
    assert IsNumberedId(StudentId(k));
    forall i | 0 <= i < |s| ensures s[i].id != StudentId(k) {
    }
  }

  /** On a roster numbered `STU001`, `STU002` with no gap the two ids agree. */
  lemma NextStudentIdAgrees(s: seq<Account>)
    requires |s| == 2 && s[0].id == "STU001" && s[1].id == "STU002"
    ensures NextStudentId(s) == RosterStudentId(s)
  {
    StudentIdFirst();
    StudentIdTwoDigitsTwo();
    StudentIdNumber(1);
    StudentIdNumber(2);
    assert IdNumber(s[0].id) == 1 && IdNumber(s[1].id) == 2;
    assert s[1..][1..] == [];
    assert MaxIdNumber(s[1..]) == 2;
  }

  const Blocks: string := "ABC"

  /** `` `${block}-${floor}${roomNum}` `` for the random indices the
      registration and admin forms draw: block `Blocks[b]`, floor `f + 1`,
      room `String(r + 1).padStart(2, '0')`. */
  function RoomName(b: nat, f: nat, r: nat): string
    requires b < 3 && f < 3 && r < 20
  {
    [Blocks[b]] + "-" + DecimalString(f + 1) + PadStart(DecimalString(r + 1), 2, '0')
  }

  /** Reads a room name of the form `<A|B|C>-<1..3><01..20>` back into its indices. */
  function ParseRoom(s: string): Option<(nat, nat, nat)> {
    if |s| == 5 && s[0] in Blocks && s[1] == '-' && '1' <= s[2] <= '3'
       && IsDigit(s[3]) && IsDigit(s[4])
       && 1 <= 10 * DigitValue(s[3]) + DigitValue(s[4]) <= 20
    then
      var b := if s[0] == 'A' then 0 else if s[0] == 'B' then 1 else 2;
      Some((b, DigitValue(s[2]) - 1, 10 * DigitValue(s[3]) + DigitValue(s[4]) - 1))
    else None
  }

  /** Every generated room has the documented format and reads back as the indices drawn. */
  lemma RoomNameRoundTrip(b: nat, f: nat, r: nat)
    requires b < 3 && f < 3 && r < 20
    ensures ParseRoom(RoomName(b, f, r)) == Some((b, f, r))
  {
    var n := r + 1;
    if n >= 10 {
      assert DecimalString(n) == DecimalString(n / 10) + [DigitChar(n % 10)];
    }
  }

  /** Conversely, every room string of that format is generated by exactly one draw. */
  lemma ParseRoomSound(s: string)
    requires ParseRoom(s).Some?
    ensures var t := ParseRoom(s).value; t.0 < 3 && t.1 < 3 && t.2 < 20 && RoomName(t.0, t.1, t.2) == s
  {
    var t := ParseRoom(s).value;
    var n := t.2 + 1;
    assert DigitChar(DigitValue(s[2])) == s[2];
    assert DigitChar(DigitValue(s[4])) == s[4];
    if DigitValue(s[3]) == 0 {
      assert s[3] == '0';
      assert PadStart(DecimalString(n), 2, '0') == "0" + DecimalString(n);
    } else {
      assert DigitChar(DigitValue(s[3])) == s[3];
      assert n / 10 == DigitValue(s[3]) && n % 10 == DigitValue(s[4]);
      assert DecimalString(n) == DecimalString(n / 10) + [DigitChar(n % 10)];
    }
    assert RoomName(t.0, t.1, t.2) == s;
  }
}
