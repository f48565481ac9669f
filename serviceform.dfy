/** The add/edit service form (components/services/service-form.tsx): its
    initial values, its per-field updates and its submit. Prices are in
    cents. */
module ServiceForm {
  import opened Wrappers

  /** A service as the catalogue holds it and passes to the form. */
  datatype Service = Service(id: string, name: string, description: string, price: int,
                             duration: int, category: string, isActive: bool,
                             requiresPreparation: bool, maxAdvanceBooking: int,
                             bookings: Option<int>)

  /** The form's record: a service whose id may be absent. It also carries
      whatever else the edited service held (its booking count), because the
      initial value spreads the whole service in. */
  datatype Draft = Draft(id: Option<string>, name: string, description: string, price: int,
                         duration: int, category: string, isActive: bool,
                         requiresPreparation: bool, maxAdvanceBooking: int,
                         bookings: Option<int>)

  /** The `||` / `??` defaults of the initial value, before the spread. */
  function Defaults(service: Option<Service>): Draft {
    var s := service;
    Draft(None,
          if s.Some? && s.value.name != "" then s.value.name else "",
          if s.Some? && s.value.description != "" then s.value.description else "",
          if s.Some? && s.value.price != 0 then s.value.price else 0,
          if s.Some? && s.value.duration != 0 then s.value.duration else 30,
          if s.Some? && s.value.category != "" then s.value.category else "consultation",
          if s.Some? then s.value.isActive else true,
          s.Some? && s.value.requiresPreparation,
          if s.Some? && s.value.maxAdvanceBooking != 0 then s.value.maxAdvanceBooking else 30,
          None)
  }

  /** `{...draft, ...service}`: every key the service has wins. */
  function Overlay(d: Draft, s: Service): Draft {
    Draft(Some(s.id), s.name, s.description, s.price, s.duration, s.category, s.isActive,
          s.requiresPreparation, s.maxAdvanceBooking, if s.bookings.Some? then s.bookings else d.bookings)
  }

  /** The service as a form record. */
  function ToDraft(s: Service): Draft {
    Draft(Some(s.id), s.name, s.description, s.price, s.duration, s.category, s.isActive,
          s.requiresPreparation, s.maxAdvanceBooking, s.bookings)
  }

  /** The initial `formData`. */
  function InitialForm(service: Option<Service>): Draft {
    match service
    case None => Defaults(None)
    case Some(s) => Overlay(Defaults(service), s)
  }

  /** With no service the form starts blank: no id, empty name and
      description, price 0, 30 minutes, "consultation", active, no
      preparation, 30 days' advance booking. */
  lemma InitialFormBlank()
    ensures InitialForm(None)
         == Draft(None, "", "", 0, 30, "consultation", true, false, 30, None)
  {
  }

  /** With a service, the trailing spread makes every field of the service
      win, id included, even where the service's value is falsy and a
      default would have applied. */
  lemma InitialFormIsService(s: Service)
    ensures InitialForm(Some(s)) == ToDraft(s)
    ensures s.duration == 0 ==> InitialForm(Some(s)).duration == 0
  {
  }

  datatype Field = Name | Description | Price | Duration | Category | IsActive
                 | RequiresPreparation | MaxAdvanceBooking

  /** A `handleInputChange(field, value)` call, with the value typed by the
      control that makes it. */
  datatype Change =
    | SetText(textField: Field, text: string)
    | SetNumber(numberField: Field, number: int)
    | SetFlag(flagField: Field, flag: bool)

  predicate IsTextField(f: Field) { f == Name || f == Description || f == Category }
  predicate IsNumberField(f: Field) { f == Price || f == Duration || f == MaxAdvanceBooking }
  predicate IsFlagField(f: Field) { f == IsActive || f == RequiresPreparation }

  /** A change the form's controls can make: the value has the field's type. */
  predicate WellTyped(c: Change) {
    match c
    case SetText(f, _) => IsTextField(f)
    case SetNumber(f, _) => IsNumberField(f)
    case SetFlag(f, _) => IsFlagField(f)
  }

  function FieldOf(c: Change): Field {
    match c
    case SetText(f, _) => f
    case SetNumber(f, _) => f
    case SetFlag(f, _) => f
  }

  /** `{...prev, [field]: value}`. */
  function ApplyChange(d: Draft, c: Change): Draft
    requires WellTyped(c)
  {
    match c
    case SetText(Name, v) => d.(name := v)
    case SetText(Description, v) => d.(description := v)
    case SetText(Category, v) => d.(category := v)
    case SetNumber(Price, v) => d.(price := v)
    case SetNumber(Duration, v) => d.(duration := v)
    case SetNumber(MaxAdvanceBooking, v) => d.(maxAdvanceBooking := v)
    case SetFlag(IsActive, v) => d.(isActive := v)
    case SetFlag(RequiresPreparation, v) => d.(requiresPreparation := v)
  }

  /** The change that would write back the field's current value. */
  function Current(d: Draft, f: Field): (c: Change)
    ensures WellTyped(c) && FieldOf(c) == f
  {
    match f
    case Name => SetText(Name, d.name)
    case Description => SetText(Description, d.description)
    case Category => SetText(Category, d.category)
    case Price => SetNumber(Price, d.price)
    case Duration => SetNumber(Duration, d.duration)
    case MaxAdvanceBooking => SetNumber(MaxAdvanceBooking, d.maxAdvanceBooking)
    case IsActive => SetFlag(IsActive, d.isActive)
    case RequiresPreparation => SetFlag(RequiresPreparation, d.requiresPreparation)
  }

  /** A change touches only its own field: writing that field's old value
      back restores the record exactly, every other field (id and booking
      count included) is untouched, and the field now reads the new value. */
  lemma ChangeTouchesOnlyItsField(d: Draft, c: Change, g: Field)
    requires WellTyped(c)
    ensures ApplyChange(ApplyChange(d, c), Current(d, FieldOf(c))) == d
    ensures ApplyChange(d, c).id == d.id && ApplyChange(d, c).bookings == d.bookings
    ensures g != FieldOf(c) ==> Current(ApplyChange(d, c), g) == Current(d, g)
    ensures Current(ApplyChange(d, c), FieldOf(c)) == c
  {
  }

  /** The browser's constraint validation of the form's inputs: the name is
      `required`, so it must not be empty, and the price input has
      `min="0"`. The price input always shows a number, so its `required`
      holds, and a whole number of cents always meets `step="0.01"`. */
  predicate Submittable(d: Draft) {
    d.name != "" && d.price >= 0
  }

  /** A blank form cannot be submitted; an edited service can be exactly
      when it has a name and a price that is not negative. */
  lemma InitialFormSubmittable(service: Option<Service>)
    ensures !Submittable(InitialForm(None))
    ensures service.Some? ==>
      (Submittable(InitialForm(service)) <==> service.value.name != "" && service.value.price >= 0)
  {
  }

  class Form {
    var formData: Draft

    constructor (service: Option<Service>)
      ensures formData == InitialForm(service)
    {
      formData := InitialForm(service);
    }

    method HandleInputChange(c: Change)
      requires WellTyped(c)
      modifies this
      ensures formData == ApplyChange(old(formData), c)
    {
      formData := ApplyChange(formData, c);
    }

    /** `handleSubmit`: the record handed to `onSave` is the form's data,
        unchanged. */
    method HandleSubmit() returns (saved: Draft)
      ensures saved == formData
    {
      saved := formData;
    }

    /** Submitting the form: the browser runs `handleSubmit` only when the
        inputs pass its constraint validation, so nothing reaches `onSave`
        otherwise. */
    method Submit() returns (saved: Option<Draft>)
      ensures saved.Some? <==> Submittable(formData)
      ensures saved.Some? ==> saved.value == formData
    {
      if !Submittable(formData) {
        return None;
      }
      var d := HandleSubmit();
      saved := Some(d);
    }
  }
}
