/** The three-step "share a resource" wizard: enter a URL, review the
    extracted details, confirm. Each button handler is one step of the
    `SubmitWizard` object; the two `setTimeout` callbacks are separate steps
    that run when their timer fires. */
module SubmitWizard {
  import opened Common

  datatype Metadata = Metadata(title: string, description: string, kind: string,
                               level: string, skill: string)

  const InitialMetadata := Metadata("", "", "Article", "Beginner", "React")
  const ExtractedTitle := "Extracted Title from Website"
  const ExtractedDescription :=
    "This is a placeholder description that would normally be fetched from the OG tags of the provided URL."
  const InvalidUrlText := "Please enter a valid URL"

  /** The metadata fields step 2 has an input for; the skill has none. */
  datatype MetadataField = TitleField | DescriptionField | KindField | LevelField

  /** The buttons the wizard renders. */
  datatype Button = FetchButton | BackButton | NextButton | SubmitButton

  /** The buttons that can be pressed: step 1 has "Next Step", which is
      disabled while loading; step 2 has Back and Next; step 3 has Back and
      Submit, the latter disabled while loading. */
  function Pressable(step: int, loading: bool): (bs: set<Button>)
    ensures FetchButton in bs <==> step == 1 && !loading
    ensures NextButton in bs <==> step == 2
    ensures BackButton in bs <==> step == 2 || step == 3
    ensures SubmitButton in bs <==> step == 3 && !loading
  {
    if step == 1 then (if loading then {} else {FetchButton})
    else if step == 2 then {BackButton, NextButton}
    else if step == 3 then {BackButton} + (if loading then {} else {SubmitButton})
    else {}
  }

  /** How progress circle `s` (1, 2 or 3) is drawn at a given step. */
  datatype Circle = Circle(highlighted: bool, checked: bool)

  function CircleAt(step: int, s: int): Circle {
    Circle(step >= s, step > s)
  }

  /** The progress indicator: circles 1, 2 and 3. */
  function Progress(step: int): seq<Circle> {
    [CircleAt(step, 1), CircleAt(step, 2), CircleAt(step, 3)]
  }

  function CountHighlighted(cs: seq<Circle>): nat {
    if cs == [] then 0 else (if cs[0].highlighted then 1 else 0) + CountHighlighted(cs[1..])
  }

  function CountChecked(cs: seq<Circle>): nat {
    if cs == [] then 0 else (if cs[0].checked then 1 else 0) + CountChecked(cs[1..])
  }

  /** On step `k` the first `k` circles are highlighted, the first `k - 1`
      carry a check, and each check sits on a highlighted circle. */
  lemma ProgressMatchesStep(step: int)
    requires 1 <= step <= 3
    ensures CountHighlighted(Progress(step)) == step
    ensures CountChecked(Progress(step)) == step - 1
    ensures forall i :: 0 <= i < 3 ==> (Progress(step)[i].highlighted <==> i < step)
    ensures forall i :: 0 <= i < 3 ==> (Progress(step)[i].checked <==> i < step - 1)
    ensures forall i :: 0 <= i < 3 ==> Progress(step)[i].checked ==> Progress(step)[i].highlighted
  {
    var p := Progress(step);
    assert p[1..][1..][1..] == [];
  }

  class Wizard {
    var step: int
    var loading: bool
    var url: string
    var metadata: Metadata
    /** The metadata captured by a metadata-extraction timer still pending. */
    var pendingFetch: Option<Metadata>
    /** A submission timer is pending. */
    var pendingSubmit: bool

    ghost predicate Valid()
      reads this
    {
      && 1 <= step <= 3
      && (pendingFetch.Some? ==> step == 1 && loading && pendingFetch.value == metadata)
      && (pendingSubmit ==> loading && pendingFetch.None?)
      // no input edits the skill, so it keeps its initial value
      && metadata.skill == InitialMetadata.skill
    }

    constructor ()
      ensures Valid()
      ensures step == 1 && !loading && url == "" && metadata == InitialMetadata
      ensures pendingFetch.None? && !pendingSubmit
    {
      step := 1;
      loading := false;
      url := "";
      metadata := InitialMetadata;
      pendingFetch := None;
      pendingSubmit := false;
    }

    /** `nextStep`. */
    method NextStep()
      modifies this
      ensures step == old(step) + 1
      ensures loading == old(loading) && url == old(url) && metadata == old(metadata)
      ensures pendingFetch == old(pendingFetch) && pendingSubmit == old(pendingSubmit)
    {
      step := step + 1;
    }

    /** `prevStep`. */
    method PrevStep()
      modifies this
      ensures step == old(step) - 1
      ensures loading == old(loading) && url == old(url) && metadata == old(metadata)
      ensures pendingFetch == old(pendingFetch) && pendingSubmit == old(pendingSubmit)
    {
      step := step - 1;
    }

    /** The URL input of step 1. */
    method EditUrl(value: string)
      requires Valid() && step == 1
      modifies this
      ensures Valid()
      ensures url == value
      ensures step == old(step) && loading == old(loading) && metadata == old(metadata)
      ensures pendingFetch == old(pendingFetch) && pendingSubmit == old(pendingSubmit)
    {
      url := value;
    }

    /** One of the title, description, type and level inputs of step 2:
        `{ ...metadata, <field>: value }`. */
    method EditMetadata(f: MetadataField, value: string)
      requires Valid() && step == 2
      modifies this
      ensures Valid()
      ensures metadata.title == (if f == TitleField then value else old(metadata).title)
      ensures metadata.description == (if f == DescriptionField then value else old(metadata).description)
      ensures metadata.kind == (if f == KindField then value else old(metadata).kind)
      ensures metadata.level == (if f == LevelField then value else old(metadata).level)
      ensures metadata.skill == old(metadata).skill
      ensures step == old(step) && loading == old(loading) && url == old(url)
      ensures pendingFetch == old(pendingFetch) && pendingSubmit == old(pendingSubmit)
    {
      match f
      case TitleField => metadata := metadata.(title := value);
      case DescriptionField => metadata := metadata.(description := value);
      case KindField => metadata := metadata.(kind := value);
      case LevelField => metadata := metadata.(level := value);
    }

    /** `handleFetchMetadata`: an empty URL is refused with a toast and
        nothing changes; otherwise loading starts and the extraction timer
        is set. */
    method HandleFetchMetadata() returns (toast: Option<Toast>)
      requires Valid() && step == 1 && !loading
      modifies this
      ensures Valid()
      ensures url == "" ==> toast == Some(ErrorToast(InvalidUrlText)) && !loading && pendingFetch.None?
      ensures url != "" ==> toast.None? && loading && pendingFetch == Some(metadata)
      ensures step == old(step) && url == old(url) && metadata == old(metadata)
      ensures pendingSubmit == old(pendingSubmit)
    {
      if url == "" {
        return Some(ErrorToast(InvalidUrlText));
      }
      loading := true;
      pendingFetch := Some(metadata);
      toast := None;
    }

    /** The extraction timer fires: title and description are replaced (type,
        level and skill kept), loading ends and the wizard moves to step 2. */
    method MetadataExtracted() returns (toast: Toast)
      requires Valid() && pendingFetch.Some?
      modifies this
      ensures Valid()
      ensures metadata == old(metadata).(title := ExtractedTitle, description := ExtractedDescription)
      ensures metadata.kind == old(metadata).kind && metadata.level == old(metadata).level
      ensures metadata.skill == old(metadata).skill
      ensures step == old(step) + 1 == 2 && !loading && pendingFetch.None?
      ensures url == old(url) && pendingSubmit == old(pendingSubmit)
      ensures toast == SuccessToast("Metadata extracted successfully!")
    {
      metadata := pendingFetch.value.(title := ExtractedTitle, description := ExtractedDescription);
      loading := false;
      pendingFetch := None;
      NextStep();
      toast := SuccessToast("Metadata extracted successfully!");
    }

    /** `handleSubmit`: loading starts and the submission timer is set. */
    method HandleSubmit()
      requires Valid() && step == 3 && !loading
      modifies this
      ensures Valid()
      ensures loading && pendingSubmit
      ensures step == old(step) && url == old(url) && metadata == old(metadata)
      ensures pendingFetch == old(pendingFetch)
    {
      loading := true;
      pendingSubmit := true;
    }

    /** The submission timer fires: a toast, and navigation to `/skills`. */
    method Submitted() returns (toast: Toast, target: string)
      requires pendingSubmit
      ensures toast == SuccessToast("Resource submitted for review!") && target == "/skills"
    {
      toast := SuccessToast("Resource submitted for review!");
      target := "/skills";
    }

    /** One press of a button the current step offers. Whatever is pressed,
        the step stays within 1..3. */
    method Press(b: Button) returns (toast: Option<Toast>)
      requires Valid() && b in Pressable(step, loading)
      modifies this
      ensures Valid()
      ensures b == BackButton ==> step == old(step) - 1
      ensures b == NextButton ==> step == old(step) + 1
      ensures b == FetchButton || b == SubmitButton ==> step == old(step)
    {
      toast := None;
      match b
      case FetchButton => toast := HandleFetchMetadata();
      case BackButton => PrevStep();
      case NextButton => NextStep();
      case SubmitButton => HandleSubmit();
    }
  }
}
