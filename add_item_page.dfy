/** The manual add-item form: change tracking, validation, submission and reset. */
module AddItemPage {
  import opened Wrappers
  import opened Categories
  import opened Storage
  import Text

  /** The form's fields. `quantity` is the number the quantity input holds. */
  datatype FormData = FormData(
    name: string, category: Option<WasteCategory>, interval: int, quantity: real, unit: string)

  /** The form as it opens and as `resetForm` leaves it. */
  const DefaultForm: FormData := FormData("", None, 1, 1.0, "pieces")

  /** `hasChanges`: the name is not blank or another field differs from its default. */
  predicate HasChanges(f: FormData) {
    Text.Trim(f.name) != "" || f.category.Some? || f.quantity != 1.0 || f.interval != 1 || f.unit != "pieces"
  }

  /** The form has no changes exactly when it is the default form up to a blank name. */
  lemma NoChangesIsDefault(f: FormData)
    ensures !HasChanges(f) <==> Text.Blank(f.name) && f.(name := "") == DefaultForm
  {
  }

  /** The checks `validateForm` makes, each with the message it pushes. */
  datatype FormError = NameRequired | NameTooShort | CategoryRequired | QuantityNotPositive | IntervalTooShort {
    function Message(): string {
      match this
      case NameRequired => "Item name is required"
      case NameTooShort => "Item name must be at least 2 characters"
      case CategoryRequired => "Please select a waste category"
      case QuantityNotPositive => "Quantity must be greater than 0"
      case IntervalTooShort => "Reminder interval must be at least 1 day"
    }

    /** The position of the check in `validateForm`. */
    function Rank(): nat {
      match this
      case NameRequired => 0
      case NameTooShort => 1
      case CategoryRequired => 2
      case QuantityNotPositive => 3
      case IntervalTooShort => 4
    }
  }


  /** The toast's description: the messages joined by ", ". */
  function Description(errors: seq<FormError>): string {
    Text.Join(seq(|errors|, k requires 0 <= k < |errors| => errors[k].Message()), ", ")
  }

  /** Whether the check behind `e` fails for `f`. */
  predicate Fails(f: FormData, e: FormError) {
    match e
    case NameRequired => Text.Trim(f.name) == ""
    case NameTooShort => Text.Trim(f.name) != "" && |Text.Trim(f.name)| < 2
    case CategoryRequired => f.category.None?
    case QuantityNotPositive => f.quantity <= 0.0
    case IntervalTooShort => f.interval < 1
  }

  /** What `validateForm` accepts. */
  predicate Acceptable(f: FormData) {
    |Text.Trim(f.name)| >= 2 && f.category.Some? && f.quantity > 0.0 && f.interval >= 1
  }

  /** A form is acceptable exactly when no check fails. */
  lemma AcceptableIffNoFailure(f: FormData)
    ensures Acceptable(f) <==> forall e :: !Fails(f, e)
  {
    if !Acceptable(f) {
      if Text.Trim(f.name) == "" {
        assert Fails(f, NameRequired);
      } else if |Text.Trim(f.name)| < 2 {
        assert Fails(f, NameTooShort);
      } else if f.category.None? {
        assert Fails(f, CategoryRequired);
      } else if f.quantity <= 0.0 {
        assert Fails(f, QuantityNotPositive);
      } else {
        assert Fails(f, IntervalTooShort);
      }
    }
  }

  /** What `validateForm` holds after each of its checks. */
  predicate Steps(f: FormData, a: seq<FormError>, b: seq<FormError>, c: seq<FormError>, d: seq<FormError>) {
    && a == (if Text.Trim(f.name) == "" then [NameRequired] else if |Text.Trim(f.name)| < 2 then [NameTooShort] else [])
    && b == a + (if f.category.None? then [CategoryRequired] else [])
    && c == b + (if f.quantity <= 0.0 then [QuantityNotPositive] else [])
    && d == c + (if f.interval < 1 then [IntervalTooShort] else [])
  }

  /** Every error reported is one whose check fails. */
  lemma StepsSound(f: FormData, a: seq<FormError>, b: seq<FormError>, c: seq<FormError>, d: seq<FormError>)
    requires Steps(f, a, b, c, d)
    ensures forall k :: 0 <= k < |d| ==> Fails(f, d[k])
  {
  }

  /** Every failing check is reported. */
  lemma StepsComplete(f: FormData, a: seq<FormError>, b: seq<FormError>, c: seq<FormError>, d: seq<FormError>)
    requires Steps(f, a, b, c, d)
    ensures forall e :: Fails(f, e) ==> e in d
  {
  }

  /** The errors come in the order of the checks, none twice. */
  lemma StepsOrdered(f: FormData, a: seq<FormError>, b: seq<FormError>, c: seq<FormError>, d: seq<FormError>)
    requires Steps(f, a, b, c, d)
    ensures forall i, j :: 0 <= i < j < |d| ==> d[i].Rank() < d[j].Rank()
  {
    assert forall k :: 0 <= k < |b| ==> b[k].Rank() < 3;
    assert forall k :: 0 <= k < |c| ==> c[k].Rank() < 4;
  }

  /** In a report ordered by check, each error leaves room after it for the errors that follow. */
  lemma {:induction false} RanksLeaveRoom(errors: seq<FormError>)
    requires forall i, j :: 0 <= i < j < |errors| ==> errors[i].Rank() < errors[j].Rank()
    ensures forall k :: 0 <= k < |errors| ==> errors[k].Rank() + (|errors| - 1 - k) <= 4
  {
    if errors != [] {
      RanksLeaveRoom(errors[1..]);
      assert forall k :: 1 <= k < |errors| ==> errors[k] == errors[1..][k - 1];
      assert errors[0].Rank() <= 4;
      if |errors| >= 2 {
        assert errors[0].Rank() < errors[1].Rank();
      }
    }
  }

  /** Five errors in check order start with both name errors. */
  lemma NameErrorsLead(errors: seq<FormError>)
    requires forall i, j :: 0 <= i < j < |errors| ==> errors[i].Rank() < errors[j].Rank()
    requires |errors| >= 5
    ensures errors[0] == NameRequired && errors[1] == NameTooShort
  {
    RanksLeaveRoom(errors);
    assert errors[0].Rank() == 0;
    assert errors[1].Rank() == 1;
  }

  /**
   * A report that lists exactly the failed checks in check order is empty exactly for an
   * acceptable form, and never has more than four entries (the name fails at most one way).
   */
  lemma ReportMeaning(f: FormData, errors: seq<FormError>)
    requires forall k :: 0 <= k < |errors| ==> Fails(f, errors[k])
    requires forall e :: Fails(f, e) ==> e in errors
    requires forall i, j :: 0 <= i < j < |errors| ==> errors[i].Rank() < errors[j].Rank()
    ensures errors == [] <==> Acceptable(f)
    ensures |errors| <= 4
  {
    AcceptableIffNoFailure(f);
    if errors != [] {
      assert Fails(f, errors[0]);
    }
    if |errors| >= 5 {
      NameErrorsLead(errors);
      assert false;
    }
  }

  /**
   * `validateForm`: exactly the errors whose check fails, in the order of the checks and none
   * twice; the form is acceptable exactly when there are none.
   */
  method ValidateForm(f: FormData) returns (errors: seq<FormError>)
    ensures forall k :: 0 <= k < |errors| ==> Fails(f, errors[k])
    ensures forall e :: Fails(f, e) ==> e in errors
    ensures forall i, j :: 0 <= i < j < |errors| ==> errors[i].Rank() < errors[j].Rank()
    ensures errors == [] <==> Acceptable(f)
    ensures |errors| <= 4
  {
    var name := Text.Trim(f.name);
    errors := [];
    if name == "" {
      errors := errors + [NameRequired];
    } else if |name| < 2 {
      errors := errors + [NameTooShort];
    }
    ghost var a := errors;
    if f.category.None? {
      errors := errors + [CategoryRequired];
    }
    ghost var b := errors;
    if f.quantity <= 0.0 {
      errors := errors + [QuantityNotPositive];
    }
    ghost var c := errors;
    if f.interval < 1 {
      errors := errors + [IntervalTooShort];
    }
    assert Steps(f, a, b, c, errors);
    StepsSound(f, a, b, c, errors);
    StepsComplete(f, a, b, c, errors);
    StepsOrdered(f, a, b, c, errors);
    ReportMeaning(f, errors);
  }

  /** The item `handleSubmit` saves: the form's fields with the name trimmed. */
  function ToInput(f: FormData): (input: ItemInput)
    requires f.category.Some?
    ensures input.name == Text.Trim(f.name) && input.category == f.category.value
    ensures input.quantity == f.quantity && input.unit == f.unit && input.interval == f.interval
    ensures input.lastReminder.None? && input.nextReminder.None?
  {
    ItemInput(Text.Trim(f.name), f.category.value, f.quantity, f.unit, f.interval, None, None)
  }

  /** What submitting the form does. */
  datatype SubmitOutcome = Rejected(errors: seq<FormError>) | Saved(item: Item) | Failed

  class AddItemForm {
    const store: StorageService
    var formData: FormData
    var isSubmitting: bool

    constructor(store: StorageService)
      ensures this.store == store && formData == DefaultForm && !isSubmitting
    {
      this.store := store;
      formData := DefaultForm;
      isSubmitting := false;
    }

    /** `hasUnsavedChanges`, recomputed whenever the form changes. */
    function HasUnsavedChanges(): bool
      reads this`formData
    {
      HasChanges(formData)
    }

    /** The user edits a field (`setFormData`). */
    method Edit(f: FormData)
      modifies this`formData
      ensures formData == f
    {
      formData := f;
    }

    /** `resetForm`. */
    method ResetForm()
      modifies this`formData
      ensures formData == DefaultForm && !HasUnsavedChanges()
    {
      formData := DefaultForm;
    }

    /**
     * `handleSubmit`: a form with errors is rejected without saving; an acceptable one is saved
     * with its name trimmed and the form reset, or left as it is when saving throws. Saving
     * writes the item list and then the reminder list, and either write may throw; when only
     * the second throws, the item is stored without its reminder.
     */
    method HandleSubmit(itemGen: Fresh, reminderGen: Fresh) returns (outcome: SubmitOutcome)
      modifies this`formData, this`isSubmitting, store`itemsEntry, store`remindersEntry, store`writes
      ensures !Acceptable(old(formData)) ==>
        outcome.Rejected? && outcome.errors != [] && unchanged(this) && unchanged(store)
      ensures Acceptable(old(formData)) && store.fails(old(store.writes)) ==>
        outcome == Failed && formData == old(formData) && !isSubmitting
        && store.itemsEntry == old(store.itemsEntry) && store.remindersEntry == old(store.remindersEntry)
        && store.writes == old(store.writes) + 1
      ensures Acceptable(old(formData)) && !store.fails(old(store.writes)) && store.fails(old(store.writes) + 1) ==>
        outcome == Failed && formData == old(formData) && !isSubmitting
        && store.itemsEntry == Some(old(store.GetItems()) + [NewItem(ToInput(old(formData)), itemGen)])
        && store.remindersEntry == old(store.remindersEntry)
        && store.writes == old(store.writes) + 2
      ensures Acceptable(old(formData)) && !store.fails(old(store.writes)) && !store.fails(old(store.writes) + 1) ==>
        outcome == Saved(NewItem(ToInput(old(formData)), itemGen))
        && formData == DefaultForm && !isSubmitting
        && store.itemsEntry == Some(old(store.GetItems()) + [NewItem(ToInput(old(formData)), itemGen)])
        && store.remindersEntry
           == Some(old(store.GetReminders()) + [NewReminder(NewItem(ToInput(old(formData)), itemGen), reminderGen)])
        && store.writes == old(store.writes) + 2
      ensures old(store.Valid()) && !HasItem(old(store.GetItems()), itemGen.id)
              && !HasReminder(old(store.GetReminders()), reminderGen.id) ==>
        (store.Valid() <==> !(outcome == Failed && !store.fails(old(store.writes))))
    {
      var errors := ValidateForm(formData);
      if errors != [] {
        return Rejected(errors);
      }
      isSubmitting := true;
      var result := store.SaveItem(ToInput(formData), itemGen, reminderGen);
      if result.Threw? {
        outcome := Failed;
      } else {
        outcome := Saved(result.value);
        formData := DefaultForm;
      }
      isSubmitting := false;
    }
  }
}
