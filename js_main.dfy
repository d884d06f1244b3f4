/** static/js/main.js: the shared client helpers. The two validators, the
    multi-step form's navigation and per-step check, the package filter on
    the packages page and the status labels. The DOM is reduced to what
    these read and write: a step is its controls, a package card its text,
    data attributes and visibility. */
module ClientMain {
  import opened Common
  import opened Text
  import opened Patterns
  import opened Lists

  // ---------------------------------------------------------------------------
  // validatePhone and validateEmail
  // ---------------------------------------------------------------------------

  /** `validatePhone(phone)`: every white-space character removed, then
      `/^(\+234|234|0)[789][01][0-9]{8}$/`. */
  function ValidatePhone(phone: string): (r: bool)
    ensures r <==> IsNigerianPhone(RemoveAll(phone, JsSpace))
  {
    AlternationPhoneIsNigerianPhone(RemoveAll(phone, JsSpace));
    MatchesAlternationPhone(RemoveAll(phone, JsSpace))
  }

  /** The client and the server validator accept the same numbers once the
      white space is gone; the client's spelling of the pattern differs from
      the server's but has the same language. */
  lemma ClientPhoneMatchesServerPattern(phone: string)
    ensures ValidatePhone(phone) <==> MatchesOptionalPlusPhone(RemoveAll(phone, JsSpace))
  {
    SamePhoneLanguage(RemoveAll(phone, JsSpace));
  }

  /** `validateEmail(email)`: `/^[^\s@]+@[^\s@]+\.[^\s@]+$/`. */
  function ValidateEmail(email: string): (r: bool)
    ensures r <==> IsEmailShape(email)
  {
    EmailMatchIsShape(email);
    MatchesEmail(email)
  }

  // ---------------------------------------------------------------------------
  // MultiStepForm
  // ---------------------------------------------------------------------------

  /** A form control inside a step: whether it is an `<input>`, its `type`,
      `name`, `value`, `checked` and `required`. */
  datatype Control = Control(isInput: bool, kind: string, name: string, value: string, checked: bool, required: bool)

  /** The radio group of `name` is `input[name="..."]` within the step. */
  predicate InGroup(c: Control, name: string) {
    c.isInput && c.name == name
  }

  /** `Array.from(radioGroup).some(radio => radio.checked)`. */
  predicate GroupAnswered(step: seq<Control>, name: string) {
    exists k | 0 <= k < |step| :: InGroup(step[k], name) && step[k].checked
  }

  /** A group fails the step when it has inputs and none of them is checked. */
  predicate GroupFails(step: seq<Control>, name: string) {
    (exists k | 0 <= k < |step| :: InGroup(step[k], name)) && !GroupAnswered(step, name)
  }

  /** The check one required control must pass: a radio through its group,
      any other control by a value that is not blank once trimmed. */
  predicate ControlValid(step: seq<Control>, c: Control) {
    if c.kind == "radio" then !GroupFails(step, c.name) else Strip(c.value, JsSpace) != []
  }

  /** The step passes when every required control does. */
  predicate StepValid(step: seq<Control>) {
    forall k | 0 <= k < |step| && step[k].required :: ControlValid(step, step[k])
  }

  predicate IsRequiredRadio(c: Control) {
    c.required && c.kind == "radio"
  }

  /** A required radio button passes exactly when a radio of its group is
      checked: it belongs to its own group, so the group is never empty. */
  lemma {:induction false} RadioValidIffChecked(step: seq<Control>, k: nat)
    requires k < |step| && step[k].isInput && IsRequiredRadio(step[k])
    ensures ControlValid(step, step[k]) <==>
              exists j | 0 <= j < |step| :: step[j].isInput && step[j].name == step[k].name && step[j].checked
  {
    assert InGroup(step[k], step[k].name);
  }

  /** A required checkbox is judged by its `value`, not by `checked`: one
      with a non-blank value passes even when it is unticked. */
  lemma RequiredCheckboxIgnoresChecked(step: seq<Control>, k: nat)
    requires k < |step| && step[k].required && step[k].kind == "checkbox" && !step[k].checked
    requires Strip(step[k].value, JsSpace) != []
    ensures ControlValid(step, step[k])
  {
  }

  /** The inner `radioGroup.forEach(...)`: with the group unanswered, each
      of its inputs clears the flag. */
  method CheckGroup(step: seq<Control>, name: string, groupValid: bool) returns (clear: bool)
    requires groupValid == GroupAnswered(step, name)
    ensures clear == !GroupFails(step, name)
  {
    clear := true;
    for j := 0 to |step|
      invariant clear == (groupValid || forall m | 0 <= m < j :: !InGroup(step[m], name))
    {
      if InGroup(step[j], name) && !groupValid {
        clear := false;
      }
    }
  }

  /** `MultiStepForm`: the steps of the form, the index of the step shown
      and whether the next button is disabled. */
  class MultiStepForm {
    var steps: seq<seq<Control>>
    var currentStep: nat
    var nextDisabled: bool

    /** The step shown is one of the form's steps. */
    predicate Valid()
      reads this
    {
      currentStep < |steps|
    }

    /** `new MultiStepForm(selector)` on a form with steps: `init()` shows
        the first step. */
    constructor(steps: seq<seq<Control>>)
      requires |steps| > 0
      ensures Valid() && this.steps == steps && currentStep == 0
      ensures nextDisabled == !StepValid(steps[0])
    {
      this.steps := steps;
      currentStep := 0;
      new;
      ShowStep(0);
    }

    /** `validateCurrentStep()`: each required control of the step shown is
        checked, a radio group once however many of its radios are
        required; the next button is disabled when the step fails. */
    method ValidateCurrentStep() returns (isValid: bool)
      requires Valid()
      modifies this`nextDisabled
      ensures isValid == StepValid(steps[currentStep])
      ensures nextDisabled == !isValid
    {
      var step := steps[currentStep];
      isValid := true;
      var radioGroups: set<string> := {};
      for i := 0 to |step|
        invariant isValid <==> forall k | 0 <= k < i && step[k].required :: ControlValid(step, step[k])
        invariant forall n :: n in radioGroups ==>
                    exists k | 0 <= k < i :: IsRequiredRadio(step[k]) && step[k].name == n
        invariant forall k | 0 <= k < i :: IsRequiredRadio(step[k]) ==> step[k].name in radioGroups
      {
        var field := step[i];
        if field.required {
          if field.kind == "radio" {
            if field.name !in radioGroups {
              radioGroups := radioGroups + {field.name};
              var groupValid := GroupAnswered(step, field.name);
              var clear := CheckGroup(step, field.name, groupValid);
              isValid := isValid && clear;
            } else {
              ghost var k :| 0 <= k < i && IsRequiredRadio(step[k]) && step[k].name == field.name;
              assert ControlValid(step, step[k]) == ControlValid(step, field);
            }
          } else if Strip(field.value, JsSpace) == [] {
            isValid := false;
          }
        }
      }
      nextDisabled := !isValid;
    }

    /** `showStep(stepIndex)`. */
    method ShowStep(stepIndex: nat)
      requires stepIndex < |steps|
      modifies this`currentStep, this`nextDisabled
      ensures Valid() && currentStep == stepIndex
      ensures nextDisabled == !StepValid(steps[stepIndex])
    {
      currentStep := stepIndex;
      var _ := ValidateCurrentStep();
    }

    /** `nextStep()`: forward one step when the step shown passes and is not
        the last. */
    method NextStep()
      requires Valid()
      modifies this`currentStep, this`nextDisabled
      ensures Valid()
      ensures currentStep == if StepValid(steps[old(currentStep)]) && old(currentStep) < |steps| - 1
                             then old(currentStep) + 1 else old(currentStep)
      ensures nextDisabled == !StepValid(steps[currentStep])
    {
      var ok := ValidateCurrentStep();
      if ok && currentStep < |steps| - 1 {
        ShowStep(currentStep + 1);
      }
    }

    /** `prevStep()`: back one step unless the first is shown. */
    method PrevStep()
      requires Valid()
      modifies this`currentStep, this`nextDisabled
      ensures Valid()
      ensures currentStep == if old(currentStep) > 0 then old(currentStep) - 1 else old(currentStep)
      ensures old(currentStep) > 0 ==> nextDisabled == !StepValid(steps[currentStep])
      ensures old(currentStep) == 0 ==> nextDisabled == old(nextDisabled)
    {
      if currentStep > 0 {
        ShowStep(currentStep - 1);
      }
    }

    /** The user edits control `k` of step `s` and the form's `input`
        listener runs `validateCurrentStep()`. */
    method Input(s: nat, k: nat, value: string, checked: bool)
      requires Valid() && s < |steps| && k < |steps[s]|
      modifies this
      ensures Valid() && currentStep == old(currentStep)
      ensures steps == old(steps)[s := old(steps)[s][k := old(steps)[s][k].(value := value, checked := checked)]]
      ensures nextDisabled == !StepValid(steps[currentStep])
    {
      steps := steps[s := steps[s][k := steps[s][k].(value := value, checked := checked)]];
      var _ := ValidateCurrentStep();
    }
  }

  // ---------------------------------------------------------------------------
  // PackageFilter
  // ---------------------------------------------------------------------------

  /** A `.package-card`: its title and description text, its
      `data-family-size` and `data-available` attributes (absent ones are
      `None`) and whether it is displayed. */
  datatype Card = Card(title: string, description: string, familySize: Option<string>,
                       available: Option<string>, shown: bool)

  /** `Object.fromEntries(new FormData(filterForm))`. */
  type Filters = map<string, string>

  /** A filter's value; a missing one reads as empty, which is falsy as
      `undefined` is. */
  function FilterValue(filters: Filters, key: string): string {
    if key in filters then filters[key] else ""
  }

  /** The search filter: the term, lower-cased, occurs in the lower-cased
      title or description. An empty term lets every card through. */
  predicate SearchPasses(filters: Filters, card: Card) {
    var term := FilterValue(filters, "search");
    term == [] || Includes(ToLower(card.title), ToLower(term)) || Includes(ToLower(card.description), ToLower(term))
  }

  /** The family-size filter, unless it is empty or `all`. */
  predicate FamilySizePasses(filters: Filters, card: Card) {
    var size := FilterValue(filters, "family_size");
    size == [] || size == "all" || card.familySize == Some(size)
  }

  /** The availability filter: `available` hides cards whose
      `data-available` is not `true`, `unavailable` hides those whose is;
      any other value hides nothing. */
  predicate AvailabilityPasses(filters: Filters, card: Card) {
    var wanted := FilterValue(filters, "availability");
    var isAvailable := card.available == Some("true");
    (wanted == "available" ==> isAvailable) && (wanted == "unavailable" ==> !isAvailable)
  }

  predicate CardPasses(filters: Filters, card: Card) {
    SearchPasses(filters, card) && FamilySizePasses(filters, card) && AvailabilityPasses(filters, card)
  }

  /** With no search term and the other two filters empty or `all`, every
      card is shown. */
  lemma OpenFiltersShowEverything(filters: Filters, card: Card)
    requires FilterValue(filters, "search") == []
    requires FilterValue(filters, "family_size") in {"", "all"}
    requires FilterValue(filters, "availability") in {"", "all"}
    ensures CardPasses(filters, card)
  {
  }

  /** A card with no `data-available` attribute counts as unavailable. */
  lemma MissingAvailabilityIsUnavailable(filters: Filters, card: Card)
    requires card.available.None?
    ensures FilterValue(filters, "availability") == "available" ==> !CardPasses(filters, card)
    ensures FilterValue(filters, "availability") == "unavailable" ==> AvailabilityPasses(filters, card)
  {
  }

  /** The search ignores ASCII letter case on both sides. */
  lemma {:induction false} SearchIgnoresCase(filters: Filters, card: Card)
    requires FilterValue(filters, "search") != []
    ensures SearchPasses(filters, card) ==
              SearchPasses(filters[("search") := ToUpper(FilterValue(filters, "search"))], card)
  {
    var term := FilterValue(filters, "search");
    var upper := filters["search" := ToUpper(term)];
    assert FilterValue(upper, "search") == ToUpper(term);
    LowerOfUpper(term);
  }

  lemma LowerOfUpper(s: string)
    ensures ToLower(ToUpper(s)) == ToLower(s)
  {
  }

  function Shown(c: Card): bool { c.shown }

  /** `visiblePackages.length === 0` holds exactly when no card is shown. */
  lemma {:induction false} NoneVisible(cards: seq<Card>)
    ensures |Filter(cards, Shown)| == 0 <==> forall k :: 0 <= k < |cards| ==> !cards[k].shown
  {
    var visible := Filter(cards, Shown);
    if k :| 0 <= k < |cards| && cards[k].shown {
      FilterCount(cards, Shown, cards[k]);
      assert cards[k] in multiset(cards);
    }
    if visible != [] {
      FilterCount(cards, Shown, visible[0]);
      assert visible[0] in multiset(visible);
    }
  }

  /** `PackageFilter`: the cards in the packages container and how many
      no-results messages the container holds. */
  class PackageFilter {
    var cards: seq<Card>
    var noResults: nat

    /** At most one no-results message. */
    predicate Valid()
      reads this
    {
      noResults <= 1
    }

    constructor(cards: seq<Card>)
      ensures Valid() && this.cards == cards && noResults == 0
    {
      this.cards := cards;
      noResults := 0;
    }

    /** `applyFilters()`: each card is shown exactly when it passes the three
        filters, and the no-results message is shown exactly when no card
        is. */
    method ApplyFilters(filters: Filters)
      requires Valid()
      modifies this
      ensures Valid() && |cards| == |old(cards)|
      ensures forall k :: 0 <= k < |cards| ==>
                cards[k] == old(cards)[k].(shown := CardPasses(filters, old(cards)[k]))
      ensures noResults == 1 <==> forall k :: 0 <= k < |cards| ==> !CardPasses(filters, cards[k])
    {
      ghost var before := cards;
      for i := 0 to |cards|
        invariant Valid() && |cards| == |before|
        invariant forall k :: 0 <= k < i ==> cards[k] == before[k].(shown := CardPasses(filters, before[k]))
        invariant forall k :: i <= k < |cards| ==> cards[k] == before[k]
      {
        var shouldShow := CardPasses(filters, cards[i]);
        cards := cards[i := cards[i].(shown := shouldShow)];
      }
      var visible := Filter(cards, Shown);
      NoneVisible(cards);
      ToggleNoResults(|visible| == 0);
    }

    /** `toggleNoResults(show)`: the message is added when wanted and
        missing, and the first one removed when present and not wanted. */
    method ToggleNoResults(show: bool)
      requires Valid()
      modifies this`noResults
      ensures Valid() && (noResults == 1 <==> show)
    {
      if show && noResults == 0 {
        noResults := 1;
      } else if !show && noResults > 0 {
        noResults := noResults - 1;
      }
    }
  }

  // ---------------------------------------------------------------------------
  // Status labels
  // ---------------------------------------------------------------------------

  /** The statuses the two lookup tables know. */
  const KnownStatuses: set<string> := {"pending", "approved", "ready", "collected"}

  /** `getStatusClass(status)`: the class is named after the status; an
      unknown status is styled as pending. */
  function StatusClass(status: string): (r: string)
    ensures r == "status-" + (if status in KnownStatuses then status else "pending")
  {
    var classes := map["pending" := "status-pending", "approved" := "status-approved",
                       "ready" := "status-ready", "collected" := "status-collected"];
    if status in classes then classes[status] else "status-pending"
  }

  /** `getStatusText(status)`: `Unknown Status` exactly for the statuses
      the table does not know. */
  function StatusText(status: string): (r: string)
    ensures r == "Unknown Status" <==> status !in KnownStatuses
    ensures status == "pending" ==> r == "Under Review"
  {
    var texts := map["pending" := "Under Review", "approved" := "Approved - Ready for Pickup",
                     "ready" := "Ready for Pickup", "collected" := "Collected"];
    if status in texts then texts[status] else "Unknown Status"
  }

  /** Distinct known statuses are told apart by both their class and their
      text; an unknown one looks like a pending one but is labelled
      differently. */
  lemma StatusLabelsDistinguish(a: string, b: string)
    requires a in KnownStatuses && b in KnownStatuses && a != b
    ensures StatusClass(a) != StatusClass(b) && StatusText(a) != StatusText(b)
  {
    assert StatusClass(a)[7..] == a && StatusClass(b)[7..] == b;
  }

  lemma UnknownStatusLooksPending(status: string)
    requires status !in KnownStatuses
    ensures StatusClass(status) == StatusClass("pending")
    ensures StatusText(status) != StatusText("pending")
  {
  }
}
