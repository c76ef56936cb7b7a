/** The student's complaint form: the category options, the validation and
    payload of a submission, and the status classification of the list. */
module ComplaintSystem {
  import opened Optional
  import opened Text
  import opened Records

  /** The `value` of each category option. */
  function CategoryValue(c: Category): string {
    match c
    case FoodQuality => "food-quality"
    case Hygiene => "hygiene"
    case Service => "service"
    case Billing => "billing"
    case RoomLight => "room-light"
    case RoomWater => "room-water"
    case RoomFan => "room-fan"
    case RoomCleaning => "room-cleaning"
    case RoomFurniture => "room-furniture"
    case RoomBathroom => "room-bathroom"
    case RoomOther => "room-other"
    case Suggestion => "suggestion"
    case Other => "other"
  }

  /** The category an option value selects; `None` for any other string. */
  function ParseCategory(s: string): Option<Category> {
    if s == "food-quality" then Some(FoodQuality)
    else if s == "hygiene" then Some(Hygiene)
    else if s == "service" then Some(Service)
    else if s == "billing" then Some(Billing)
    else if s == "room-light" then Some(RoomLight)
    else if s == "room-water" then Some(RoomWater)
    else if s == "room-fan" then Some(RoomFan)
    else if s == "room-cleaning" then Some(RoomCleaning)
    else if s == "room-furniture" then Some(RoomFurniture)
    else if s == "room-bathroom" then Some(RoomBathroom)
    else if s == "room-other" then Some(RoomOther)
    else if s == "suggestion" then Some(Suggestion)
    else if s == "other" then Some(Other)
    else None
  }

  /** Every category reads back from its option value, and every accepted
      value is the option value of the category it selects, so the 13
      values are distinct. */
  lemma CategoryRoundTrip(c: Category, s: string)
    ensures ParseCategory(CategoryValue(c)) == Some(c)
    ensures ParseCategory(s).Some? ==> CategoryValue(ParseCategory(s).value) == s
  {
    CategoryValueParses(c);
    if s == "food-quality" {
    } else if s == "hygiene" {
    } else if s == "service" {
    } else if s == "billing" {
    } else if s == "room-light" {
    } else if s == "room-water" {
    } else if s == "room-fan" {
    } else if s == "room-cleaning" {
    } else if s == "room-furniture" {
    } else if s == "room-bathroom" {
    } else if s == "room-other" {
    } else if s == "suggestion" {
    } else if s == "other" {
    }
  }

  lemma CategoryValueParses(c: Category)
    ensures ParseCategory(CategoryValue(c)) == Some(c)
  {
    match c
    case FoodQuality =>
    case Hygiene =>
    case Service =>
    case Billing =>
    case RoomLight =>
    case RoomWater =>
    case RoomFan =>
    case RoomCleaning =>
    case RoomFurniture =>
    case RoomBathroom =>
    case RoomOther =>
    case Suggestion =>
    case Other =>
  }

  lemma CategoryValueInjective(c: Category, d: Category)
    requires CategoryValue(c) == CategoryValue(d)
    ensures c == d
  {
    CategoryRoundTrip(c, CategoryValue(c));
    CategoryRoundTrip(d, CategoryValue(d));
  }

  /** The payload `onSubmitComplaint` receives. */
  datatype ComplaintDraft = ComplaintDraft(subject: string, description: string, category: Category, kind: string)

  /** What `handleSubmit` emits for the form's fields: nothing when the
      subject or the description is blank, else the untrimmed fields with
      type `complaint`. */
  function Submission(subject: string, description: string, category: Category): (r: Option<ComplaintDraft>)
    ensures r.None? <==> IsBlank(subject) || IsBlank(description)
    ensures r.Some? ==> r.value.subject == subject && r.value.description == description
    ensures r.Some? ==> r.value.category == category && r.value.kind == "complaint"
  {
    TrimEmptyIffBlank(subject);
    TrimEmptyIffBlank(description);
    if Trim(subject) == [] || Trim(description) == [] then None
    else Some(ComplaintDraft(subject, description, category, "complaint"))
  }

  datatype StatusIcon = ResolvedIcon | InProgressIcon | PendingIcon

  /** `getStatusIcon`: two statuses are told apart, every other string,
      `pending` included, shows the pending icon. */
  function StatusIconFor(status: string): (i: StatusIcon)
    ensures i == ResolvedIcon <==> status == "resolved"
    ensures i == InProgressIcon <==> status == "in-progress"
    ensures i == PendingIcon <==> status != "resolved" && status != "in-progress"
  {
    if status == "resolved" then ResolvedIcon
    else if status == "in-progress" then InProgressIcon
    else PendingIcon
  }

  /** The form state of the component. */
  class ComplaintForm {
    var subject: string
    var description: string
    var category: Category

    constructor ()
      ensures subject == "" && description == "" && category == FoodQuality
    {
      subject := "";
      description := "";
      category := FoodQuality;
    }

    /** The category select: `setCategory(e.target.value)` for an option value. */
    method SetCategory(value: string)
      requires ParseCategory(value).Some?
      modifies this
      ensures category == ParseCategory(value).value && CategoryValue(category) == value
      ensures subject == old(subject) && description == old(description)
    {
      CategoryRoundTrip(FoodQuality, value);
      category := ParseCategory(value).value;
    }

    method SetFields(subject: string, description: string)
      modifies this
      ensures this.subject == subject && this.description == description && category == old(category)
    {
      this.subject := subject;
      this.description := description;
    }

    /** `handleSubmit`: emits `Submission` of the fields; after a valid
        submission the fields are cleared and the category is back to its
        default, after a rejected one nothing changes. */
    method HandleSubmit() returns (emitted: Option<ComplaintDraft>)
      modifies this
      ensures emitted == Submission(old(subject), old(description), old(category))
      ensures emitted.Some? ==> subject == "" && description == "" && category == FoodQuality
      ensures emitted.None? ==> subject == old(subject) && description == old(description) && category == old(category)
    {
      TrimEmptyIffBlank(subject);
      TrimEmptyIffBlank(description);
      if Trim(subject) == [] || Trim(description) == [] {
        return None;
      }
      emitted := Some(ComplaintDraft(subject, description, category, "complaint"));
      subject := "";
      description := "";
      category := FoodQuality;
    }
  }
}
