/** The meal booking tab: the three plan cards derived from the account's
    flags, the monthly estimate, the toggle each card requests, the
    active-plan count and the per-meal fee lines. */
module MealBooking {
  import opened Records
  import opened StudentDashboard
  import Lists

  /** One card of `mealPlans`. */
  datatype MealPlan = MealPlan(meal: Meal, name: string, rate: nat, hours: string, enabled: bool)

  /** `mealPlans` for the account `a`: breakfast, lunch and dinner in that
      order, each priced at its rate and enabled exactly when subscribed. */
  function MealPlans(a: Account): (r: seq<MealPlan>)
    ensures |r| == 3 && r[0].meal == Breakfast && r[1].meal == Lunch && r[2].meal == Dinner
    ensures forall i :: 0 <= i < |r| ==> r[i].enabled == Subscribed(a, r[i].meal) && r[i].rate == Rate(r[i].meal)
  {
    [ MealPlan(Breakfast, "Breakfast", Rate(Breakfast), "7:00 AM - 9:30 AM", a.breakfast),
      MealPlan(Lunch, "Lunch", Rate(Lunch), "12:00 PM - 2:30 PM", a.lunch),
      MealPlan(Dinner, "Dinner", Rate(Dinner), "7:00 PM - 9:30 PM", a.dinner) ]
  }

  /** `monthlyFee`: thirty days of the daily fee. */
  function MonthlyFee(a: Account): nat {
    DailyFee(a.breakfast, a.lunch, a.dinner) * 30
  }

  lemma MonthlyFeeBounds(a: Account)
    ensures 0 <= MonthlyFee(a) <= 3900 && MonthlyFee(a) % 30 == 0
    ensures MonthlyFee(a) == 0 <==> !a.breakfast && !a.lunch && !a.dinner
  {
    DailyFeeBounds(a.breakfast, a.lunch, a.dinner);
  }

  /** The arguments a card's button passes to `onMealUpdate`. */
  function ToggleRequest(p: MealPlan): (Meal, bool) {
    (p.meal, !p.enabled)
  }

  /** A card's request, once applied, flips that one meal and keeps the two
      others; pressing the new card again restores the account. */
  lemma ToggleFlipsOneMeal(a: Account, i: nat, n: Meal)
    requires i < 3
    ensures var (m, v) := ToggleRequest(MealPlans(a)[i]);
      var b := Apply(a, MealPatch(m, v));
      && Subscribed(b, n) == (if n == m then !Subscribed(a, n) else Subscribed(a, n))
      && var (m2, v2) := ToggleRequest(MealPlans(b)[i]);
         Apply(b, MealPatch(m2, v2)) == a
  {
    var (m, v) := ToggleRequest(MealPlans(a)[i]);
    MealPatchWritesOneFlag(a, m, v, n);
    var b := Apply(a, MealPatch(m, v));
    var (m2, v2) := ToggleRequest(MealPlans(b)[i]);
    MealPatchWritesOneFlag(a, m, v, m);
    assert m2 == m && v2 == !v;
  }

  /** `mealPlans.filter(meal => meal.enabled).length`. */
  function ActivePlans(a: Account): nat {
    |Lists.Filter(MealPlans(a), (p: MealPlan) => p.enabled)|
  }

  function Flag(b: bool): nat {
    if b then 1 else 0
  }

  /** The count is the number of flags set, so it lies between 0 and 3, and
      it is 0 exactly when the daily fee is 0. */
  lemma ActivePlansCount(a: Account)
    ensures ActivePlans(a) == Flag(a.breakfast) + Flag(a.lunch) + Flag(a.dinner)
    ensures 0 <= ActivePlans(a) <= 3
    ensures ActivePlans(a) == 0 <==> DailyFee(a.breakfast, a.lunch, a.dinner) == 0
  {
    var ps := MealPlans(a);
    var en := (p: MealPlan) => p.enabled;
    assert ps[1..][1..][1..] == [];
    assert Lists.Filter(ps[1..][1..], en) == (if a.dinner then [ps[2]] else []);
    assert |Lists.Filter(ps[1..], en)| == Flag(a.lunch) + Flag(a.dinner);
  }

  /** The fee line of a card: its rate when subscribed, 0 otherwise. */
  function FeeLine(p: MealPlan): nat {
    if p.enabled then p.rate else 0
  }

  /** The sum of the fee lines of a list of cards. */
  function LinesTotal(ps: seq<MealPlan>): nat {
    if ps == [] then 0 else FeeLine(ps[0]) + LinesTotal(ps[1..])
  }

  /** The three fee lines add up to the daily fee shown beneath them. */
  lemma FeeLinesSumToDailyFee(a: Account)
    ensures LinesTotal(MealPlans(a)) == DailyFee(a.breakfast, a.lunch, a.dinner)
    ensures forall i :: 0 <= i < 3 ==> FeeLine(MealPlans(a)[i]) == MealFee(MealPlans(a)[i].meal, Subscribed(a, MealPlans(a)[i].meal))
  {
    var ps := MealPlans(a);
    assert ps[1..][1..][1..] == [];
    assert LinesTotal(ps[1..][1..]) == FeeLine(ps[2]);
    assert LinesTotal(ps[1..]) == FeeLine(ps[1]) + FeeLine(ps[2]);
  }
}
