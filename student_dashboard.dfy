/** The student's dashboard: the daily fee of a subscription, and the
    handlers that change the logged-in student's account (meal flags,
    complaints, payments). */
module StudentDashboard {
  import opened Optional
  import opened Records
  import opened App
  import opened ComplaintSystem
  import opened PaymentSystem

  /** `mealRates`: the price of one day of each meal. */
  function Rate(m: Meal): nat {
    match m
    case Breakfast => 30
    case Lunch => 60
    case Dinner => 40
  }

  /** What one meal adds to the daily fee: its rate when subscribed. */
  function MealFee(m: Meal, subscribed: bool): nat {
    if subscribed then Rate(m) else 0
  }

  /** The daily fee of a subscription: the sum of its meals' fees. */
  function DailyFee(breakfast: bool, lunch: bool, dinner: bool): nat {
    MealFee(Breakfast, breakfast) + MealFee(Lunch, lunch) + MealFee(Dinner, dinner)
  }

  /** `calculateDailyFee`: accumulates the rates of the subscribed meals. */
  method CalculateDailyFee(breakfast: bool, lunch: bool, dinner: bool) returns (total: int)
    ensures total == DailyFee(breakfast, lunch, dinner)
    ensures 0 <= total <= 130
  {
    total := 0;
    if breakfast {
      total := total + Rate(Breakfast);
    }
    if lunch {
      total := total + Rate(Lunch);
    }
    if dinner {
      total := total + Rate(Dinner);
    }
  }

  /** The fee lies between nothing and all three meals, and is zero or full
      exactly when no meal or every meal is taken. */
  lemma DailyFeeBounds(breakfast: bool, lunch: bool, dinner: bool)
    ensures 0 <= DailyFee(breakfast, lunch, dinner) <= 130
    ensures DailyFee(breakfast, lunch, dinner) == 0 <==> !breakfast && !lunch && !dinner
    ensures DailyFee(breakfast, lunch, dinner) == 130 <==> breakfast && lunch && dinner
  {
  }

  /** The rates are chosen so that the fee identifies the subscription: two
      subscriptions with the same fee take the same meals. */
  lemma DailyFeeIdentifiesPlan(b1: bool, l1: bool, d1: bool, b2: bool, l2: bool, d2: bool)
    requires DailyFee(b1, l1, d1) == DailyFee(b2, l2, d2)
    ensures b1 == b2 && l1 == l2 && d1 == d2
  {
  }

  /** `handleMealUpdate(m, value)` for the logged-in student: refused while
      the meals are locked, otherwise the one flag is written through
      `updateStudent`. */
  method HandleMealUpdate(store: Store, m: Meal, value: bool)
    requires store.currentUser.Some?
    modifies store
    ensures old(store.mealLocked) ==> unchanged(store)
    ensures !old(store.mealLocked) ==>
      store.students == UpdateById(old(store.students), old(store.currentUser).value.id, MealPatch(m, value))
      && store.currentUser == Some(Apply(old(store.currentUser).value, MealPatch(m, value)))
    ensures store.transactions == old(store.transactions) && store.mealLocked == old(store.mealLocked)
    ensures store.isAdminLoggedIn == old(store.isAdminLoggedIn)
    ensures old(store.Valid()) ==> store.Valid()
    ensures old(store.SessionSynced()) ==> store.SessionSynced()
  {
    if store.mealLocked {
      return;
    }
    store.UpdateStudent(store.currentUser.value.id, MealPatch(m, value));
  }

  /** The complaint `addComplaint` builds from a payload: the payload's
      fields, the given id and time, and status `pending`. */
  function NewComplaint(d: ComplaintDraft, id: int, createdAt: string): Complaint {
    Complaint(id, d.subject, d.description, d.category, d.kind, "pending", createdAt, None, None, None)
  }

  /** The update `addComplaint` sends for the account `user`. */
  function ComplaintAdded(user: Account, d: ComplaintDraft, id: int, createdAt: string): AccountPatch {
    NoUpdates.(complaints := Some(user.complaints + [NewComplaint(d, id, createdAt)]))
  }

  /** Adding a complaint appends exactly one, pending whatever the payload
      says, keeps the earlier ones in order, and changes no other field. */
  lemma ComplaintAddedEffect(user: Account, d: ComplaintDraft, id: int, createdAt: string)
    ensures var after := Apply(user, ComplaintAdded(user, d, id, createdAt));
      && |after.complaints| == |user.complaints| + 1
      && after.complaints[..|user.complaints|] == user.complaints
      && after.complaints[|user.complaints|].status == "pending"
      && StatusIconFor(after.complaints[|user.complaints|].status) == PendingIcon
      && after.complaints[|user.complaints|].subject == d.subject
      && after.(complaints := user.complaints) == user
  {
    var after := Apply(user, ComplaintAdded(user, d, id, createdAt));
    assert after.complaints[..|user.complaints|] == user.complaints;
  }

  /** `addComplaint(d)` for the logged-in student. */
  method AddComplaint(store: Store, d: ComplaintDraft, id: int, createdAt: string)
    requires store.currentUser.Some?
    modifies store
    ensures store.students
         == UpdateById(old(store.students), old(store.currentUser).value.id,
                       ComplaintAdded(old(store.currentUser).value, d, id, createdAt))
    ensures store.currentUser == Some(Apply(old(store.currentUser).value, ComplaintAdded(old(store.currentUser).value, d, id, createdAt)))
    ensures store.transactions == old(store.transactions) && store.mealLocked == old(store.mealLocked)
    ensures store.isAdminLoggedIn == old(store.isAdminLoggedIn)
    ensures old(store.Valid()) ==> store.Valid()
    ensures old(store.SessionSynced()) ==> store.SessionSynced()
  {
    var user := store.currentUser.value;
    store.UpdateStudent(user.id, ComplaintAdded(user, d, id, createdAt));
  }

  /** The payment record `addPayment` builds: the request's fields, the
      given id and time, and status `completed`. */
  function NewPayment(r: PaymentRequest, id: int, createdAt: string): Payment {
    Payment(id, r.amount, r.tokens, r.payMethod, r.description, "completed", createdAt)
  }

  /** The single update `addPayment` sends for the account `user`: the
      record, the credit and the spend together. */
  function PaymentAdded(user: Account, r: PaymentRequest, id: int, createdAt: string): AccountPatch {
    NoUpdates.(payments := Some(user.payments + [NewPayment(r, id, createdAt)]),
               tokens := Some(user.tokens + r.tokens),
               totalSpent := Some(user.totalSpent + r.amount))
  }

  /** A payment credits exactly its tokens, raises the spend by exactly its
      amount, appends exactly its record, and changes nothing else. */
  lemma PaymentAddedEffect(user: Account, r: PaymentRequest, id: int, createdAt: string)
    ensures var after := Apply(user, PaymentAdded(user, r, id, createdAt));
      && after.tokens - user.tokens == r.tokens
      && after.totalSpent - user.totalSpent == r.amount
      && |after.payments| == |user.payments| + 1
      && after.payments[..|user.payments|] == user.payments
      && after.payments[|user.payments|].status == "completed"
      && after.payments[|user.payments|].tokens == r.tokens
      && after.(tokens := user.tokens, totalSpent := user.totalSpent, payments := user.payments) == user
  {
    var after := Apply(user, PaymentAdded(user, r, id, createdAt));
    assert after.payments[..|user.payments|] == user.payments;
  }

  /** A payment the shop emits keeps the ledger invariant. */
  lemma ShopPaymentKeepsLedger(user: Account, amount: int, m: PayMethod, id: int, createdAt: string)
    requires PaymentFor(amount, m, true).Some? && user.tokens >= 0 && user.totalSpent >= 0
    ensures PatchOk(PaymentAdded(user, PaymentFor(amount, m, true).value, id, createdAt))
  {
    EmittedPaymentIsTier(amount, m, true);
  }

  /** `addPayment(r)` for the logged-in student. */
  method AddPayment(store: Store, r: PaymentRequest, id: int, createdAt: string)
    requires store.currentUser.Some?
    modifies store
    ensures store.students
         == UpdateById(old(store.students), old(store.currentUser).value.id,
                       PaymentAdded(old(store.currentUser).value, r, id, createdAt))
    ensures store.currentUser == Some(Apply(old(store.currentUser).value, PaymentAdded(old(store.currentUser).value, r, id, createdAt)))
    ensures store.transactions == old(store.transactions) && store.mealLocked == old(store.mealLocked)
    ensures store.isAdminLoggedIn == old(store.isAdminLoggedIn)
    ensures old(store.Valid()) && r.tokens >= 0 && r.amount >= 0 ==> store.Valid()
    ensures old(store.SessionSynced()) ==> store.SessionSynced()
  {
    var user := store.currentUser.value;
    if store.Valid() && r.tokens >= 0 && r.amount >= 0 {
      assert [user][0] == user;
      assert PatchOk(PaymentAdded(user, r, id, createdAt));
    }
    store.UpdateStudent(user.id, PaymentAdded(user, r, id, createdAt));
  }

  /** When the session copy is the stored account, the stored account is
      credited too: its successor in the list holds the new balance. */
  lemma PaymentReachesStore(students: seq<Account>, user: Account, r: PaymentRequest, id: int, createdAt: string)
    requires user in students
    ensures Apply(user, PaymentAdded(user, r, id, createdAt)) in UpdateById(students, user.id, PaymentAdded(user, r, id, createdAt))
  {
    UpdateKeepsMember(students, user, user.id, PaymentAdded(user, r, id, createdAt));
  }
}
