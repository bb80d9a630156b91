/** The demo-request wizard: three steps (contact details, interests, summary)
    with Next and Back buttons, a demo-format picker beside it, and a summary that
    looks the chosen format up by its type. */
module Contact {
  import opened Sequences

  /** One demo format offered in the sidebar. */
  datatype DemoOption = DemoOption(kind: string, title: string, duration: string)

  /** The three formats, in sidebar order. */
  const DemoOptions: seq<DemoOption> := [
    DemoOption("live", "Live Demo", "30 minutes"),
    DemoOption("self-guided", "Self-Guided Tour", "15 minutes"),
    DemoOption("video", "Video Overview", "5 minutes")
  ]

  /** The check-boxes on step 2. */
  const InterestOptions: seq<string> := [
    "Clinical Workflow Optimization", "AI-Powered Triage", "Documentation Automation",
    "Analytics & Reporting", "HIPAA Compliance", "EHR Integration",
    "Quality Improvement", "Cost Reduction"
  ]

  /** The form's state object. */
  datatype FormData = FormData(
    firstName: string,
    lastName: string,
    email: string,
    company: string,
    role: string,
    hospitalSize: string,
    interests: seq<string>,
    message: string,
    demoType: string)

  /** The state the form starts in: every text empty, no interests, a live demo. */
  const InitialFormData: FormData := FormData("", "", "", "", "", "", [], "", "live")

  /** The single-value inputs of the form. */
  datatype TextField = FirstName | LastName | Email | Company | Role | HospitalSize | Message

  /** The value of one text input or drop-down. */
  function TextOf(d: FormData, f: TextField): string
  {
    match f
    case FirstName => d.firstName
    case LastName => d.lastName
    case Email => d.email
    case Company => d.company
    case Role => d.role
    case HospitalSize => d.hospitalSize
    case Message => d.message
  }

  /** The step that renders an input: every detail on step 1, the message on step 2. */
  function FieldStep(f: TextField): (step: int)
    ensures step == 1 || step == 2
  {
    if f == Message then 2 else 1
  }

  /** `{ ...prev, <field>: value }` for one text input or drop-down: that input
      reads `value` afterwards, every other input keeps its text, and the
      interests and the demo type stay. */
  function WithText(d: FormData, f: TextField, value: string): (r: FormData)
    ensures forall g :: TextOf(r, g) == if g == f then value else TextOf(d, g)
    ensures r.interests == d.interests && r.demoType == d.demoType
  {
    match f
    case FirstName => d.(firstName := value)
    case LastName => d.(lastName := value)
    case Email => d.(email := value)
    case Company => d.(company := value)
    case Role => d.(role := value)
    case HospitalSize => d.(hospitalSize := value)
    case Message => d.(message := value)
  }

  /** The test `i !== interest` handed to `filter`. */
  function IsNot(interest: string): string -> bool
  {
    i => i != interest
  }

  /** The new interests list of `handleInterestChange`: appended when checked,
      every occurrence filtered out when unchecked. Afterwards the interest is
      listed exactly when it was checked, and every other entry is listed exactly
      when it was before. */
  function UpdatedInterests(interests: seq<string>, interest: string, checked: bool): (r: seq<string>)
    ensures interest in r <==> checked
    ensures forall x :: x != interest ==> (x in r <==> x in interests)
  {
    if checked then interests + [interest]
    else
      FilterMembership(interests, IsNot(interest), interest);
      assert forall x :: x != interest ==> (x in Filter(interests, IsNot(interest)) <==> x in interests) by {
        forall x | x != interest {
          FilterMembership(interests, IsNot(interest), x);
        }
      }
      Filter(interests, IsNot(interest))
  }

  /** Checking a box adds the interest at the end and keeps the earlier entries. */
  lemma CheckAppends(interests: seq<string>, interest: string)
    ensures var r := UpdatedInterests(interests, interest, true);
      && |r| == |interests| + 1
      && r[..|interests|] == interests
      && r[|interests|] == interest
      && interest in r
  {
  }

  /** Unchecking a box removes every occurrence of the interest and keeps every
      other entry, as often as it occurred and in its original order. */
  lemma UncheckRemoves(interests: seq<string>, interest: string)
    ensures interest !in UpdatedInterests(interests, interest, false)
    ensures IsSubsequence(UpdatedInterests(interests, interest, false), interests)
    ensures forall x :: x != interest ==>
      multiset(UpdatedInterests(interests, interest, false))[x] == multiset(interests)[x]
  {
    FilterMembership(interests, IsNot(interest), interest);
    FilterIsSubsequence(interests, IsNot(interest));
    forall x | x != interest
      ensures multiset(UpdatedInterests(interests, interest, false))[x] == multiset(interests)[x]
    {
      FilterOccurrences(interests, IsNot(interest), x);
    }
  }

  /** `handleInterestChange` on the whole state object: only the interests change. */
  function InterestChanged(d: FormData, interest: string, checked: bool): (r: FormData)
    ensures r.(interests := d.interests) == d
    ensures interest in r.interests <==> checked
  {
    d.(interests := UpdatedInterests(d.interests, interest, checked))
  }

  /** The four inputs that the step-1 Next button's `disabled` test reads. The role
      is also starred on the page, but that test does not read it. */
  const RequiredFields: seq<TextField> := [FirstName, LastName, Email, Company]

  /** Editing an input the Next test does not read (the role, starred though it is,
      the organisation size or the message) never enables or disables Next. */
  lemma OptionalFieldsDoNotGate(d: FormData, f: TextField, value: string)
    requires f !in RequiredFields
    ensures CanLeaveDetails(WithText(d, f, value)) == CanLeaveDetails(d)
  {
    var r := WithText(d, f, value);
    assert forall k :: 0 <= k < |RequiredFields| ==> TextOf(r, RequiredFields[k]) == TextOf(d, RequiredFields[k]);
  }

  /** The step-1 Next button is enabled only when the four starred text fields are
      filled in; the role and the organisation size are not required. */
  function CanLeaveDetails(d: FormData): (ok: bool)
    ensures ok <==> forall k :: 0 <= k < |RequiredFields| ==> TextOf(d, RequiredFields[k]) != ""
  {
    assert RequiredFields[0] == FirstName && RequiredFields[1] == LastName;
    assert RequiredFields[2] == Email && RequiredFields[3] == Company;
    d.firstName != "" && d.lastName != "" && d.email != "" && d.company != ""
  }

  /** The demo type is one of the three offered formats. */
  predicate IsDemoType(t: string)
  {
    exists k :: 0 <= k < |DemoOptions| && DemoOptions[k].kind == t
  }

  /** The test `opt.type === demoType` handed to `find`. */
  function HasKind(t: string): DemoOption -> bool
  {
    (o: DemoOption) => o.kind == t
  }

  /** No two formats share a type, so a type names at most one format. */
  lemma DemoTypesDistinct()
    ensures forall j, k ::
      0 <= j < |DemoOptions| && 0 <= k < |DemoOptions| && DemoOptions[j].kind == DemoOptions[k].kind
      ==> j == k
  {
  }

  /** The summary's `demoOptions.find(opt => opt.type === demoType)`: it finds
      exactly the format whose type is selected, and nothing for an unknown type. */
  function SummaryOption(demoType: string): (r: Option<DemoOption>)
    ensures r.Some? <==> IsDemoType(demoType)
    ensures r.Some? ==> r.value in DemoOptions && r.value.kind == demoType
    ensures forall k :: 0 <= k < |DemoOptions| && DemoOptions[k].kind == demoType ==> r == Some(DemoOptions[k])
  {
    DemoTypesDistinct();
    Find(DemoOptions, HasKind(demoType))
  }

  /** Progress dot `dot` (1 to 3) is highlighted when the wizard has reached that step. */
  predicate DotHighlighted(step: int, dot: int)
  {
    step >= dot
  }

  function DotHighlightedFn(step: int): int -> bool
  {
    dot => DotHighlighted(step, dot)
  }

  /** On step `s` exactly the first `s` of the three dots are highlighted. */
  function HighlightedDots(step: int): (dots: seq<int>)
    ensures 1 <= step <= 3 ==> dots == seq(step, i => i + 1)
  {
    Filter([1, 2, 3], DotHighlightedFn(step))
  }

  /** The wizard: the current step and the form's state object, each replaced
      by the page's state setters. */
  class DemoRequest {
    var formStep: int
    var formData: FormData

    /** The step is always 1, 2 or 3, and the demo type is always an offered format. */
    ghost predicate Valid()
      reads this
    {
      1 <= formStep <= 3 && IsDemoType(formData.demoType)
    }

    /** The wizard opens on step 1 with an empty form and a live demo selected. */
    constructor ()
      ensures Valid()
      ensures formStep == 1 && formData == InitialFormData
    {
      formStep := 1;
      formData := InitialFormData;
      new;
      assert DemoOptions[0].kind == "live";
    }

    /** Typing into an input or choosing from a drop-down, on the step that shows it. */
    method EditText(f: TextField, value: string)
      requires Valid() && formStep == FieldStep(f)
      modifies this
      ensures Valid()
      ensures formStep == old(formStep)
      ensures formData == WithText(old(formData), f, value)
    {
      formData := WithText(formData, f, value);
    }

    /** Next on step 1: it moves to step 2 only when the four required fields are
      filled in; otherwise the button is disabled and nothing changes. */
    method NextFromDetails()
      requires Valid() && formStep == 1
      modifies this
      ensures Valid()
      ensures formData == old(formData)
      ensures formStep == if CanLeaveDetails(formData) then 2 else 1
    {
      if CanLeaveDetails(formData) {
        formStep := 2;
      }
    }

    /** Back on step 2. */
    method BackToDetails()
      requires Valid() && formStep == 2
      modifies this
      ensures Valid()
      ensures formData == old(formData) && formStep == 1
    {
      formStep := 1;
    }

    /** Next on step 2; the interests and the message are optional. */
    method NextToSummary()
      requires Valid() && formStep == 2
      modifies this
      ensures Valid()
      ensures formData == old(formData) && formStep == 3
    {
      formStep := 3;
    }

    /** Back on step 3. */
    method BackToInterests()
      requires Valid() && formStep == 3
      modifies this
      ensures Valid()
      ensures formData == old(formData) && formStep == 2
    {
      formStep := 2;
    }

    /** A check-box on step 2 toggled to `checked`. */
    method ChangeInterest(interest: string, checked: bool)
      requires Valid() && formStep == 2
      modifies this
      ensures Valid()
      ensures formStep == old(formStep)
      ensures formData == InterestChanged(old(formData), interest, checked)
    {
      formData := InterestChanged(formData, interest, checked);
    }

    /** Clicking a format card selects that format and changes nothing else. */
    method SelectDemo(option: DemoOption)
      requires Valid() && option in DemoOptions
      modifies this
      ensures Valid()
      ensures formStep == old(formStep)
      ensures formData == old(formData).(demoType := option.kind)
    {
      formData := formData.(demoType := option.kind);
    }

    /** The format the summary shows: always found, and it is the one selected. */
    function SummaryDemo(): (o: DemoOption)
      reads this
      requires Valid()
      ensures o in DemoOptions && o.kind == formData.demoType
    {
      SummaryOption(formData.demoType).value
    }
  }
}
