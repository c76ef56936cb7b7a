/** The admin dashboard: the roster figures, the daily report of the
    redemption log, and the handlers that override accounts (add, room,
    tokens), answer complaints and lock the meals. */
module AdminDashboard {
  import opened Optional
  import opened Text
  import opened Records
  import opened App
  import opened ComplaintSystem
  import QRScanner
  import Lists

  /** `students.reduce((sum, s) => sum + s.totalSpent, 0)`. */
  function TotalRevenue(s: seq<Account>): int {
    if s == [] then 0 else TotalRevenue(s[..|s| - 1]) + s[|s| - 1].totalSpent
  }

  /** The revenue of a concatenation is the sum of the revenues. */
  lemma {:induction false} RevenueAppend(a: seq<Account>, b: seq<Account>)
    ensures TotalRevenue(a + b) == TotalRevenue(a) + TotalRevenue(b)
  {
    if b != [] {
      RevenueAppend(a, b[..|b| - 1]);
      assert (a + b)[..|a + b| - 1] == a + b[..|b| - 1];
    } else {
      assert a + b == a;
    }
  }

  lemma {:induction false} RevenueNonNegative(s: seq<Account>)
    requires LedgerOk(s)
    ensures TotalRevenue(s) >= 0
  {
    if s != [] {
      RevenueNonNegative(s[..|s| - 1]);
    }
  }

  /** An update that does not write `totalSpent` leaves the revenue as it
      is: redemptions, meal changes, room and token overrides all do. */
  lemma {:induction false} RevenueIgnoresOtherUpdates(s: seq<Account>, id: string, p: AccountPatch)
    requires p.totalSpent.None?
    ensures TotalRevenue(UpdateById(s, id, p)) == TotalRevenue(s)
  {
    if s != [] {
      var h := if s[0].id == id then Apply(s[0], p) else s[0];
      var rest := UpdateById(s[1..], id, p);
      assert UpdateById(s, id, p) == [h] + rest;
      assert s == [s[0]] + s[1..];
      RevenueAppend([h], rest);
      RevenueAppend([s[0]], s[1..]);
      assert [h][..0] == [] && [s[0]][..0] == [];
      RevenueIgnoresOtherUpdates(s[1..], id, p);
    }
  }

  /** Hence a redemption never changes the revenue. */
  lemma RevenueAfterRedemption(s: seq<Account>, log: seq<Transaction>, input: string, meal: Meal,
                               txId: real, now: Clock)
    ensures TotalRevenue(QRScanner.Redeem(s, log, input, meal, txId, now).0) == TotalRevenue(s)
  {
    if !IsBlank(input) && QRScanner.Check(s, input, meal).Redeemed? {
      var a := QRScanner.Check(s, input, meal).account;
      RevenueIgnoresOtherUpdates(s, a.id, QRScanner.DebitPatch(a));
    }
  }

  /** Accounts with at least one meal. */
  function ActiveSubscriptions(s: seq<Account>): nat {
    |Lists.Filter(s, (a: Account) => a.breakfast || a.lunch || a.dinner)|
  }

  /** Accounts subscribed to the meal `m`. */
  function MealCount(s: seq<Account>, m: Meal): nat {
    |Lists.Filter(s, (a: Account) => Subscribed(a, m))|
  }

  /** No meal has more subscribers than there are active accounts, nor
      active accounts than students, and every active account is counted
      under at least one meal. */
  lemma CountsBounded(s: seq<Account>, m: Meal)
    ensures MealCount(s, m) <= ActiveSubscriptions(s) <= |s|
    ensures ActiveSubscriptions(s) <= MealCount(s, Breakfast) + MealCount(s, Lunch) + MealCount(s, Dinner)
  {
    var active := (a: Account) => a.breakfast || a.lunch || a.dinner;
    var later := (a: Account) => a.lunch || a.dinner;
    Lists.FilterWeaker(s, (a: Account) => Subscribed(a, m), active);
    Lists.FilterEither(s, (a: Account) => Subscribed(a, Breakfast), later, active);
    Lists.FilterEither(s, (a: Account) => Subscribed(a, Lunch), (a: Account) => Subscribed(a, Dinner), later);
  }

  /** The calendar day of a log entry: its `date` when set and non-empty,
      else the day of its timestamp, else none. */
  function DayOf(t: Transaction): Option<string> {
    if t.date.Some? && t.date.value != "" then t.date
    else if t.timestamp.Some? then Some(t.timestamp.value.day)
    else None
  }

  /** The sort key: the timestamp's milliseconds, 0 without a timestamp. */
  function TimeOf(t: Transaction): int {
    if t.timestamp.Some? then t.timestamp.value.millis else 0
  }

  /** `dailyTransactions`: the entries of the selected day, newest first. */
  function DailyTransactions(log: seq<Transaction>, day: string): seq<Transaction> {
    Lists.SortDesc(Lists.Filter(log, (t: Transaction) => DayOf(t) == Some(day)), TimeOf)
  }

  /** The report lists exactly the entries of that day, each as often as it
      is logged, newest first, and entries with the same time keep their
      log order. */
  lemma DailyTransactionsSpec(log: seq<Transaction>, day: string, v: int)
    ensures var r := DailyTransactions(log, day);
      && (forall i :: 0 <= i < |r| ==> DayOf(r[i]) == Some(day))
      && (forall i :: 0 <= i < |log| && DayOf(log[i]) == Some(day) ==> log[i] in r)
      && (forall t :: multiset(r)[t] == if DayOf(t) == Some(day) then multiset(log)[t] else 0)
      && Lists.SortedDesc(r, TimeOf)
      && Lists.WithKey(r, TimeOf, v) == Lists.WithKey(Lists.Filter(log, (t: Transaction) => DayOf(t) == Some(day)), TimeOf, v)
  {
    var f := Lists.Filter(log, (t: Transaction) => DayOf(t) == Some(day));
    var r := DailyTransactions(log, day);
    Lists.SortStable(f, TimeOf, v);
    Lists.FilterCount(log, (t: Transaction) => DayOf(t) == Some(day));
    forall i | 0 <= i < |r| ensures DayOf(r[i]) == Some(day) {
      assert r[i] in multiset(f);
    }
    forall i | 0 <= i < |log| && DayOf(log[i]) == Some(day) ensures log[i] in r {
      assert log[i] in multiset(f);
    }
  }

  /** An entry just logged is listed in the report of the day of the first
      clock reading (an ISO date, never empty). */
  lemma NewEntryListedToday(log: seq<Transaction>, d: TransactionData, id: real, now: Clock)
    requires now.dated.day != ""
    ensures Stamp(d, id, now) in DailyTransactions(log + [Stamp(d, id, now)], now.dated.day)
  {
    var l := log + [Stamp(d, id, now)];
    DailyTransactionsSpec(l, now.dated.day, 0);
    assert l[|log|] == Stamp(d, id, now);
  }

  /** `Math.max(0, tokens + change)`. */
  function ClampedBalance(tokens: int, change: int): (t: int)
    ensures t >= 0 && t >= tokens + change
    ensures tokens + change >= 0 ==> t == tokens + change
    ensures tokens + change < 0 ==> t == 0
  {
    if tokens + change > 0 then tokens + change else 0
  }

  /** The update `handleReplyToComplaint` sends. */
  function ReplyPatch(text: string, at: string): ComplaintPatch {
    ComplaintPatch(Some("in-progress"), Some(text), Some(at), None)
  }

  /** The update `handleCloseComplaint` sends. */
  function ClosePatch(at: string): ComplaintPatch {
    ComplaintPatch(Some("resolved"), None, None, Some(at))
  }

  /** Reply and Close are offered only for a complaint not yet resolved. */
  predicate ActionsOffered(c: Complaint) {
    c.status != "resolved"
  }

  /** A complaint goes from pending to in progress on a reply and to
      resolved on closing; closing keeps the reply and its time, and neither
      step touches what the student wrote. */
  lemma ComplaintLifecycle(c: Complaint, text: string, repliedAt: string, resolvedAt: string)
    requires c.status == "pending"
    ensures var replied := ApplyToComplaint(c, ReplyPatch(text, repliedAt));
      var closed := ApplyToComplaint(replied, ClosePatch(resolvedAt));
      && StatusIconFor(c.status) == PendingIcon && ActionsOffered(c)
      && StatusIconFor(replied.status) == InProgressIcon && ActionsOffered(replied)
      && replied.adminReply == Some(text) && replied.repliedAt == Some(repliedAt)
      && StatusIconFor(closed.status) == ResolvedIcon && !ActionsOffered(closed)
      && closed.adminReply == Some(text) && closed.repliedAt == Some(repliedAt) && closed.resolvedAt == Some(resolvedAt)
      && closed.(status := c.status, adminReply := c.adminReply, repliedAt := c.repliedAt, resolvedAt := c.resolvedAt) == c
  {
  }

  /** Closing without a reply leaves the complaint unanswered. */
  lemma CloseKeepsNoReply(c: Complaint, at: string)
    requires c.adminReply.None?
    ensures ApplyToComplaint(c, ClosePatch(at)).adminReply.None?
    ensures ApplyToComplaint(c, ClosePatch(at)).status == "resolved"
  {
  }

  /** The update `handleRoomChange` writes: `{ room: newRoom.trim() }`. */
  function RoomPatch(newRoom: string): AccountPatch {
    NoUpdates.(room := Some(Trim(newRoom)))
  }

  /** The form state of the dashboard, over the store it administers. */
  class AdminPanel {
    const store: Store
    var newStudentName: string
    var newStudentEmail: string
    var newStudentPassword: string
    var replyingTo: Option<(string, int)>
    var replyText: string
    var editingRoom: Option<string>
    var newRoom: string
    var selectedDate: string

    constructor (store: Store, today: string)
      ensures this.store == store && selectedDate == today
      ensures newStudentName == "" && newStudentEmail == "" && newStudentPassword == ""
      ensures replyingTo == None && replyText == "" && editingRoom == None && newRoom == ""
    {
      this.store := store;
      newStudentName, newStudentEmail, newStudentPassword := "", "", "";
      replyingTo, replyText := None, "";
      editingRoom, newRoom := None, "";
      selectedDate := today;
    }

    /** The report for the selected day. */
    function Report(): seq<Transaction>
      reads this, store
    {
      DailyTransactions(store.transactions, selectedDate)
    }

    /** `handleAddStudent` with the room drawn as `b`, `f`, `r`: with the
        three fields non-empty (untrimmed, and no e-mail check) one zeroed
        account is appended and the fields are cleared; otherwise nothing
        changes. */
    method HandleAddStudent(b: nat, f: nat, r: nat)
      requires b < 3 && f < 3 && r < 20
      modifies this, store
      ensures old(newStudentName) != "" && old(newStudentEmail) != "" && old(newStudentPassword) != "" ==>
        store.students == old(store.students)
          + [NewAccount(RosterStudentId(old(store.students)), old(newStudentName), old(newStudentEmail),
                        old(newStudentPassword), RoomName(b, f, r))]
        && newStudentName == "" && newStudentEmail == "" && newStudentPassword == ""
      ensures !(old(newStudentName) != "" && old(newStudentEmail) != "" && old(newStudentPassword) != "") ==>
        store.students == old(store.students) && newStudentName == old(newStudentName)
        && newStudentEmail == old(newStudentEmail) && newStudentPassword == old(newStudentPassword)
      ensures store.transactions == old(store.transactions) && store.mealLocked == old(store.mealLocked)
      ensures store.currentUser == old(store.currentUser) && store.isAdminLoggedIn == old(store.isAdminLoggedIn)
      ensures replyingTo == old(replyingTo) && replyText == old(replyText)
      ensures editingRoom == old(editingRoom) && newRoom == old(newRoom) && selectedDate == old(selectedDate)
      ensures old(store.Valid()) ==> store.Valid()
    {
      if newStudentName != "" && newStudentEmail != "" && newStudentPassword != "" {
        var newStudent := NewAccount(RosterStudentId(store.students), newStudentName, newStudentEmail,
                                     newStudentPassword, RoomName(b, f, r));
        store.AddStudent(newStudent);
        newStudentName, newStudentEmail, newStudentPassword := "", "", "";
      }
    }

    /** `handleRoomChange(id)`: a blank room changes nothing; otherwise the
        trimmed room is written into the accounts with the id, no other
        field, and the editor closes. */
    method HandleRoomChange(id: string)
      modifies this, store
      ensures IsBlank(old(newRoom)) ==> unchanged(store) && newRoom == old(newRoom) && editingRoom == old(editingRoom)
      ensures !IsBlank(old(newRoom)) ==>
        store.students == UpdateById(old(store.students), id, RoomPatch(old(newRoom)))
        && store.currentUser == SessionAfter(old(store.currentUser), id, RoomPatch(old(newRoom)))
        && editingRoom == None && newRoom == ""
      ensures store.transactions == old(store.transactions) && store.mealLocked == old(store.mealLocked)
      ensures store.isAdminLoggedIn == old(store.isAdminLoggedIn)
      ensures newStudentName == old(newStudentName) && newStudentEmail == old(newStudentEmail)
      ensures newStudentPassword == old(newStudentPassword) && replyingTo == old(replyingTo) && replyText == old(replyText)
      ensures selectedDate == old(selectedDate)
      ensures old(store.Valid()) ==> store.Valid()
    {
      TrimEmptyIffBlank(newRoom);
      if Trim(newRoom) == [] {
        return;
      }
      store.UpdateStudent(id, RoomPatch(newRoom));
      editingRoom := None;
      newRoom := "";
    }

    /** `handleTokenUpdate(id, change)`: the balance of the first account
        with the id, moved by `change` and clamped at 0, is written into
        every account with the id; an unknown id changes nothing. */
    method HandleTokenUpdate(id: string, change: int)
      modifies store
      ensures FindById(old(store.students), id).None? ==> unchanged(store)
      ensures FindById(old(store.students), id).Some? ==>
        store.students == UpdateById(old(store.students), id,
          NoUpdates.(tokens := Some(ClampedBalance(FindById(old(store.students), id).value.tokens, change))))
      ensures store.transactions == old(store.transactions) && store.mealLocked == old(store.mealLocked)
      ensures store.currentUser == if FindById(old(store.students), id).None? then old(store.currentUser)
        else SessionAfter(old(store.currentUser), id,
          NoUpdates.(tokens := Some(ClampedBalance(FindById(old(store.students), id).value.tokens, change))))
      ensures store.isAdminLoggedIn == old(store.isAdminLoggedIn)
      ensures old(store.Valid()) ==> store.Valid()
    {
      var student := FindById(store.students, id);
      if student.Some? {
        var newTokens := ClampedBalance(student.value.tokens, change);
        store.UpdateStudent(id, NoUpdates.(tokens := Some(newTokens)));
      }
    }

    /** `handleReplyToComplaint(sid, cid)`: blank text changes nothing;
        otherwise the untrimmed text, status `in-progress` and the reply
        time go into that one complaint, and the reply box closes. */
    method HandleReplyToComplaint(sid: string, cid: int, at: string)
      modifies this, store
      ensures IsBlank(old(replyText)) ==> unchanged(store) && replyText == old(replyText) && replyingTo == old(replyingTo)
      ensures !IsBlank(old(replyText)) ==>
        store.students == UpdateComplaintIn(old(store.students), sid, cid, ReplyPatch(old(replyText), at))
        && replyingTo == None && replyText == ""
      ensures store.transactions == old(store.transactions) && store.mealLocked == old(store.mealLocked)
      ensures store.currentUser == old(store.currentUser) && store.isAdminLoggedIn == old(store.isAdminLoggedIn)
      ensures newStudentName == old(newStudentName) && newStudentEmail == old(newStudentEmail)
      ensures newStudentPassword == old(newStudentPassword) && editingRoom == old(editingRoom) && newRoom == old(newRoom)
      ensures selectedDate == old(selectedDate)
      ensures old(store.Valid()) ==> store.Valid()
    {
      TrimEmptyIffBlank(replyText);
      if Trim(replyText) == [] {
        return;
      }
      store.UpdateComplaint(sid, cid, ReplyPatch(replyText, at));
      replyingTo := None;
      replyText := "";
    }

    /** `handleCloseComplaint(sid, cid)`: status `resolved` and the time
        go into that one complaint, whatever its status. */
    method HandleCloseComplaint(sid: string, cid: int, at: string)
      modifies store
      ensures store.students == UpdateComplaintIn(old(store.students), sid, cid, ClosePatch(at))
      ensures store.transactions == old(store.transactions) && store.mealLocked == old(store.mealLocked)
      ensures store.currentUser == old(store.currentUser) && store.isAdminLoggedIn == old(store.isAdminLoggedIn)
      ensures old(store.Valid()) ==> store.Valid()
    {
      store.UpdateComplaint(sid, cid, ClosePatch(at));
    }

    /** The lock button: flips the lock and touches no account. */
    method ToggleMealLock()
      modifies store
      ensures store.mealLocked == !old(store.mealLocked)
      ensures store.students == old(store.students) && store.transactions == old(store.transactions)
      ensures store.currentUser == old(store.currentUser) && store.isAdminLoggedIn == old(store.isAdminLoggedIn)
      ensures old(store.Valid()) ==> store.Valid()
    {
      store.SetMealLocked(!store.mealLocked);
    }
  }
}
