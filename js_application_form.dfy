/** static/js/application-form.js: `ApplicationFormHandler`, the public
    application form. Its phone check, its five-step navigation, the
    `formData` object it sends to the server, the package recommendation and
    the labels of the summary. The browser's own constraint validation is an
    input to the navigation. */
module ClientApplicationForm {
  import opened Common
  import opened Text
  import opened Patterns
  import opened Numerals
  import ClientMain
  import ApplicationSerializers
  import PickupViews

  // ---------------------------------------------------------------------------
  // validatePhoneNumber
  // ---------------------------------------------------------------------------

  const PhoneMessage := "Please enter a valid Nigerian phone number (e.g., 08012345678)"

  /** `validatePhoneNumber(input)`: the custom validity message set on the
      phone input; the empty string clears it. An empty input is not flagged
      (the `required` attribute deals with it). */
  function ValidatePhoneNumber(value: string): (message: string)
    ensures message == "" <==> value == [] || IsNigerianPhone(RemoveAll(value, JsSpace))
    ensures message == "" || message == PhoneMessage
  {
    var isValid := MatchesOptionalPlusPhone(RemoveAll(value, JsSpace));
    OptionalPlusPhoneIsNigerianPhone(RemoveAll(value, JsSpace));
    if value != [] && !isValid then PhoneMessage else ""
  }

  /** The form's check and `validatePhone` in static/js/main.js accept the
      same non-empty inputs. */
  lemma FormAgreesWithSharedValidator(value: string)
    requires value != []
    ensures ValidatePhoneNumber(value) == "" <==> ClientMain.ValidatePhone(value)
  {
  }

  /** A number typed with a space inside it is accepted by the form, which
      removes every space, but refused by the server, which only trims the
      ends before `validate_phone`: the form sends the value as typed. */
  lemma SpacedNumberPassesFormNotServer(n: string, k: nat)
    requires IsNigerianPhone(n) && 0 < k < |n|
    ensures ValidatePhoneNumber(n[..k] + " " + n[k..]) == ""
    ensures ApplicationSerializers.ValidatePhone(Strip(n[..k] + " " + n[k..], PySpace)).Refused?
  {
    var v := n[..k] + " " + n[k..];
    NumberHasNoSpace(n, JsSpace);
    NumberHasNoSpace(n, PySpace);
    RemoveInsertedSpace(n, k);
    StripKeepsInnerSpace(v, PySpace);
    ApplicationSerializers.SpacedPhoneRefused(v, k);
  }

  lemma NumberHasNoSpace(n: string, ws: Space)
    requires IsNigerianPhone(n)
    ensures NoneIn(n, ws)
  {
    forall j | 0 <= j < |n| ensures !IsSpace(ws, n[j]) {
      ApplicationSerializers.NigerianPhoneCharacter(n, j);
      DigitsAndSignsAreNotSpace(ws, n[j]);
    }
  }

  /** Removing the white space undoes the insertion of a space. */
  lemma RemoveInsertedSpace(n: string, k: nat)
    requires NoneIn(n, JsSpace) && k <= |n|
    ensures RemoveAll(n[..k] + " " + n[k..], JsSpace) == n
  {
    var a, b := n[..k], n[k..];
    assert a + b == n;
    assert NoneIn(a, JsSpace) by {
      forall j | 0 <= j < |a| ensures !IsSpace(JsSpace, a[j]) { assert a[j] == n[j]; }
    }
    assert NoneIn(b, JsSpace) by {
      forall j | 0 <= j < |b| ensures !IsSpace(JsSpace, b[j]) { assert b[j] == n[k + j]; }
    }
    assert a + " " + b == a + (" " + b);
    RemoveAllConcat(a, " " + b, JsSpace);
    RemoveAllConcat(" ", b, JsSpace);
    assert RemoveAll(" ", JsSpace) == RemoveAll([], JsSpace);
  }

  // ---------------------------------------------------------------------------
  // formData
  // ---------------------------------------------------------------------------

  /** A value of `formData`: a checkbox's `checked` or an entry's text. */
  datatype FormValue = Flag(b: bool) | Text(s: string)

  /** What `this.form.elements[key]` is for a field name: a lone checkbox,
      or anything else (a radio group's `RadioNodeList` has no `type`). */
  datatype Element = Checkbox(checked: bool) | OtherElement

  /** The value one entry of `new FormData(form)` contributes. */
  function EntryValue(entry: (string, string), elements: map<string, Element>): FormValue {
    if entry.0 in elements && elements[entry.0].Checkbox? then Flag(elements[entry.0].checked)
    else Text(entry.1)
  }

  /** `formData` after the entries have been assigned one after the other. */
  function Collected(entries: seq<(string, string)>, elements: map<string, Element>): map<string, FormValue> {
    if entries == [] then map[]
    else Collected(entries[..|entries| - 1], elements)[entries[|entries| - 1].0 := EntryValue(entries[|entries| - 1], elements)]
  }

  /** `formData` holds a key exactly when some entry has it, and its value
      is the one the last such entry contributes. */
  lemma {:induction false} LastEntryWins(entries: seq<(string, string)>, elements: map<string, Element>, key: string)
    ensures key in Collected(entries, elements) <==> exists i | 0 <= i < |entries| :: entries[i].0 == key
    ensures forall i | 0 <= i < |entries| && entries[i].0 == key && (forall j | i < j < |entries| :: entries[j].0 != key) ::
              key in Collected(entries, elements) && Collected(entries, elements)[key] == EntryValue(entries[i], elements)
  {
    if entries != [] {
      var n := |entries| - 1;
      LastEntryWins(entries[..n], elements, key);
      if entries[n].0 != key {
        forall i | 0 <= i < n && entries[i].0 == key ensures entries[..n][i].0 == key { }
      }
    }
  }

  /** `ApplicationFormHandler`: the step shown (numbered from 1) and the
      data collected for submission. */
  class ApplicationFormHandler {
    var currentStep: int
    var formData: map<string, FormValue>
    const totalSteps: int

    predicate Valid()
      reads this
    {
      totalSteps == 5 && 1 <= currentStep <= totalSteps
    }

    constructor()
      ensures Valid() && currentStep == 1 && formData == map[]
    {
      currentStep := 1;
      totalSteps := 5;
      formData := map[];
    }

    /** `updateFormData()`: `formData` rebuilt from the form's entries. */
    method UpdateFormData(entries: seq<(string, string)>, elements: map<string, Element>)
      modifies this`formData
      ensures formData == Collected(entries, elements)
    {
      formData := map[];
      for i := 0 to |entries|
        invariant formData == Collected(entries[..i], elements)
      {
        var key := entries[i].0;
        if key in elements && elements[key].Checkbox? {
          formData := formData[key := Flag(elements[key].checked)];
        } else {
          formData := formData[key := Text(entries[i].1)];
        }
        assert entries[..i + 1][..i] == entries[..i];
      }
      assert entries[..|entries|] == entries;
    }

    /** `nextStep()`: `stepValid` is what `validateCurrentStep()` reports
        (every required field passes the browser's `checkValidity()`). */
    method NextStep(stepValid: bool, entries: seq<(string, string)>, elements: map<string, Element>)
      requires Valid()
      modifies this`currentStep, this`formData
      ensures Valid()
      ensures currentStep == if stepValid && old(currentStep) < totalSteps then old(currentStep) + 1 else old(currentStep)
      ensures formData == if currentStep != old(currentStep) then Collected(entries, elements) else old(formData)
    {
      if stepValid && currentStep < totalSteps {
        currentStep := currentStep + 1;
        UpdateFormData(entries, elements);
      }
    }

    /** `prevStep()`. */
    method PrevStep()
      requires Valid()
      modifies this`currentStep
      ensures Valid()
      ensures currentStep == if old(currentStep) > 1 then old(currentStep) - 1 else old(currentStep)
    {
      if currentStep > 1 {
        currentStep := currentStep - 1;
      }
    }
  }

  // ---------------------------------------------------------------------------
  // updatePackageRecommendations
  // ---------------------------------------------------------------------------

  /** The three recommendations. */
  datatype Advice = SmallBasic | MediumBasic | MediumOrMultiple

  /** The size the recommendation reads: `parseInt(familySize) || 1`. */
  function FamilySizeRead(familySize: string): int {
    JsIntOr(familySize, 1)
  }

  /** `updatePackageRecommendations(familySize)`: up to 3 people the small
      package, up to 6 the medium one, beyond that the medium one or several
      packages. */
  function Recommendation(familySize: string): (r: Advice)
    ensures r == SmallBasic <==> FamilySizeRead(familySize) <= 3
    ensures r == MediumBasic <==> 3 < FamilySizeRead(familySize) <= 6
    ensures r == MediumOrMultiple <==> 6 < FamilySizeRead(familySize)
  {
    var size := FamilySizeRead(familySize);
    if size <= 3 then SmallBasic else if size <= 6 then MediumBasic else MediumOrMultiple
  }

  function Rank(a: Advice): nat {
    match a
    case SmallBasic => 0
    case MediumBasic => 1
    case MediumOrMultiple => 2
  }

  /** A larger family written as a number never gets a smaller
      recommendation; a choice that is not a number (or is 0) counts as one
      person. */
  lemma RecommendationGrowsWithFamily(a: nat, b: nat)
    requires 0 < a <= b
    ensures Rank(Recommendation(IntToDecimal(a))) <= Rank(Recommendation(IntToDecimal(b)))
  {
    JsIntRoundTrip(a);
    JsIntRoundTrip(b);
  }

  lemma UnreadableSizeIsOnePerson(familySize: string)
    requires ParseJsInt(familySize).None? || ParseJsInt(familySize) == Some(0)
    ensures Recommendation(familySize) == SmallBasic
  {
  }

  // ---------------------------------------------------------------------------
  // Summary labels
  // ---------------------------------------------------------------------------

  /** `getPackageName(packageType)`: the label of a known type, the type
      itself otherwise. */
  function GetPackageName(packageType: string): (r: string)
    ensures r == packageType <==> packageType !in {"small_basic", "medium_basic", "emergency", "senior"}
    ensures packageType in {"small_basic", "medium_basic", "emergency", "senior"} ==>
              r == PickupViews.GetPackageName(packageType)
  {
    var packageNames := map["small_basic" := "Small Family Basic", "medium_basic" := "Medium Family Basic",
                            "emergency" := "Emergency Relief", "senior" := "Senior Citizen Special"];
    if packageType in packageNames then packageNames[packageType] else packageType
  }

  /** `getTimeSlotName(timeSlot)`: the label of a known slot, the slot
      itself otherwise. */
  function GetTimeSlotName(timeSlot: string): (r: string)
    ensures r == timeSlot <==> timeSlot !in {"morning", "afternoon", "evening"}
    ensures timeSlot == "morning" ==> r == "Morning (9:00 AM - 12:00 PM)"
  {
    var timeSlots := map["morning" := "Morning (9:00 AM - 12:00 PM)",
                         "afternoon" := "Afternoon (12:00 PM - 3:00 PM)",
                         "evening" := "Evening (3:00 PM - 6:00 PM)"];
    if timeSlot in timeSlots then timeSlots[timeSlot] else timeSlot
  }

  /** The summary and the server's pickup views disagree: the form does not
      know the large package, and it gives the afternoon and evening slots
      other hours than the server does. */
  lemma SummaryDisagreesWithServer()
    ensures GetPackageName("large_basic") == "large_basic" != PickupViews.GetPackageName("large_basic")
    ensures GetTimeSlotName("afternoon") == "Afternoon (12:00 PM - 3:00 PM)"
    ensures PickupViews.GetTimeDisplay("afternoon") == "1:00 PM - 4:00 PM"
    ensures GetTimeSlotName("evening") == "Evening (3:00 PM - 6:00 PM)"
    ensures PickupViews.GetTimeDisplay("evening") == "4:00 PM - 6:00 PM"
  {
  }
}
