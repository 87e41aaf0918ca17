/**
 * TripForm.jsx: a form of five string fields. Typing into a field replaces
 * that field alone; submitting runs five checks in a fixed order and either
 * reports the first that fails or hands the form over as it is.
 */
module TripForm {
  import opened Text
  import opened JsValues

  /** `formData`: field name to the text typed in. */
  type Form = map<string, string>

  /** The fields of the form, in the order they are checked. */
  const FieldNames: seq<string> := ["from", "to", "duration", "drivingHoursPerDay", "routePreference"]

  predicate HasFields(form: Form) {
    "from" in form && "to" in form && "duration" in form && "drivingHoursPerDay" in form && "routePreference" in form
  }

  /** `HasFields` names exactly the fields listed. */
  lemma {:induction false} HasFieldsLists(form: Form)
    ensures HasFields(form) <==> forall i :: 0 <= i < |FieldNames| ==> FieldNames[i] in form
  {
    if forall i :: 0 <= i < |FieldNames| ==> FieldNames[i] in form {
      assert FieldNames[0] in form && FieldNames[1] in form && FieldNames[2] in form;
      assert FieldNames[3] in form && FieldNames[4] in form;
    }
  }

  /** The state `useState` starts from: every field empty. */
  function InitialForm(): (form: Form)
    ensures HasFields(form)
    ensures form.Keys == {"from", "to", "duration", "drivingHoursPerDay", "routePreference"}
    ensures forall k :: k in form ==> form[k] == ""
  {
    map["from" := "", "to" := "", "duration" := "", "drivingHoursPerDay" := "", "routePreference" := ""]
  }

  /** The message each check reports, in the order of the checks. */
  const Messages: seq<string> := [
    "Please enter a starting location",
    "Please enter a destination",
    "Please enter a valid trip duration (at least 1 day)",
    "Please enter driving hours per day (1-12 hours)",
    "Please select your route preference"
  ]

  /** What `handleSubmit` does: show an error, or call `onSubmit` with the form. */
  datatype Outcome = Rejected(message: string) | Submitted(data: Form)

  /**
   * `handleSubmit`. `toNumber` is JavaScript's conversion of a string to a
   * number, used by the comparisons with 1 and 12.
   */
  function HandleSubmit(form: Form, toNumber: string -> Number): (r: Outcome)
    requires HasFields(form)
    ensures r.Submitted? ==> r.data == form
    ensures r.Rejected? ==> r.message in Messages
  {
    if Trim(form["from"]) == "" then Rejected("Please enter a starting location")
    else if Trim(form["to"]) == "" then Rejected("Please enter a destination")
    else if form["duration"] == "" || Less(toNumber(form["duration"]), 1.0) then
      Rejected("Please enter a valid trip duration (at least 1 day)")
    else if form["drivingHoursPerDay"] == "" || Less(toNumber(form["drivingHoursPerDay"]), 1.0)
      || Greater(toNumber(form["drivingHoursPerDay"]), 12.0) then
      Rejected("Please enter driving hours per day (1-12 hours)")
    else if form["routePreference"] == "" then Rejected("Please select your route preference")
    else Submitted(form)
  }

  /** A location is missing when it is empty after trimming. */
  predicate Blank(s: string) {
    Trim(s) == ""
  }

  /** A number of days is acceptable when given and not below 1. */
  predicate ValidDuration(s: string, toNumber: string -> Number) {
    s != "" && !Less(toNumber(s), 1.0)
  }

  /** A number of hours is acceptable when given and between 1 and 12, both included. */
  predicate ValidHours(s: string, toNumber: string -> Number) {
    s != "" && !Less(toNumber(s), 1.0) && !Greater(toNumber(s), 12.0)
  }

  /** Whether check `i` fails, stated field by field. */
  predicate Fails(form: Form, i: nat, toNumber: string -> Number)
    requires HasFields(form) && i < |FieldNames|
  {
    var v := form[FieldNames[i]];
    if i < 2 then Blank(v)
    else if i == 2 then !ValidDuration(v, toNumber)
    else if i == 3 then !ValidHours(v, toNumber)
    else v == ""
  }

  /**
   * The checks run in order and the first that fails decides the message;
   * the form is submitted, unchanged, exactly when none fails.
   */
  lemma {:induction false} FirstFailureWins(form: Form, toNumber: string -> Number)
    requires HasFields(form)
    ensures HandleSubmit(form, toNumber).Submitted? <==>
      forall i :: 0 <= i < |FieldNames| ==> !Fails(form, i, toNumber)
    ensures HandleSubmit(form, toNumber).Submitted? ==> HandleSubmit(form, toNumber).data == form
    ensures forall i :: 0 <= i < |FieldNames| ==>
      (Fails(form, i, toNumber) && (forall j :: 0 <= j < i ==> !Fails(form, j, toNumber))) ==>
      HandleSubmit(form, toNumber) == Rejected(Messages[i])
  {
    assert FieldNames[0] == "from" && FieldNames[1] == "to" && FieldNames[2] == "duration";
    assert FieldNames[3] == "drivingHoursPerDay" && FieldNames[4] == "routePreference";
    var r := HandleSubmit(form, toNumber);
    if r.Submitted? {
      forall i | 0 <= i < |FieldNames|
        ensures !Fails(form, i, toNumber)
      {
      }
    } else {
      assert Fails(form, 0, toNumber) || Fails(form, 1, toNumber) || Fails(form, 2, toNumber)
        || Fails(form, 3, toNumber) || Fails(form, 4, toNumber);
    }
    forall i | 0 <= i < |FieldNames| && Fails(form, i, toNumber) &&
      (forall j :: 0 <= j < i ==> !Fails(form, j, toNumber))
      ensures r == Rejected(Messages[i])
    {
      if i > 0 { assert !Fails(form, 0, toNumber); }
      if i > 1 { assert !Fails(form, 1, toNumber); }
      if i > 2 { assert !Fails(form, 2, toNumber); }
      if i > 3 { assert !Fails(form, 3, toNumber); }
    }
  }

  /** Neither bound of the driving hours is rejected. */
  lemma {:induction false} HoursBoundsAccepted(s: string, toNumber: string -> Number)
    requires s != "" && (toNumber(s) == Real(1.0) || toNumber(s) == Real(12.0))
    ensures ValidHours(s, toNumber)
  {
  }

  /** Submitting the untouched form asks for the starting location. */
  lemma {:induction false} InitialFormRejected(toNumber: string -> Number)
    ensures HandleSubmit(InitialForm(), toNumber) == Rejected("Please enter a starting location")
  {
    TrimOfTrimmed("");
  }

  /** The component's form state. */
  class TripFormState {
    var formData: Form

    predicate Valid()
      reads this
    {
      HasFields(formData)
    }

    constructor ()
      ensures Valid()
      ensures formData == InitialForm()
    {
      formData := InitialForm();
    }

    /** `handleChange`: the field named by the input gets its value; every other field keeps its own. */
    method HandleChange(name: string, value: string)
      requires Valid()
      modifies this
      ensures Valid()
      ensures formData == old(formData)[name := value]
    {
      formData := formData[name := value];
    }
  }

  /** One change sets exactly one field. */
  lemma {:induction false} ChangeSetsOneField(form: Form, name: string, value: string, other: string)
    requires other != name
    ensures form[name := value][name] == value
    ensures other in form[name := value] <==> other in form
    ensures other in form ==> form[name := value][other] == form[other]
  {
  }
}
