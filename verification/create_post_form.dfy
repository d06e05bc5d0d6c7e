/** The client form that feeds `createPost`: a switch between picking an
    existing skill and suggesting a new one, the fields the browser requires
    in each mode, and the `isNewSkill` flag added to the submitted data. */
module CreatePostForm {
  import opened Common
  import opened FormDataModel
  import opened PostActions

  const SuccessText := "Post created successfully!"

  /** The names of the fields marked `required` in each mode: title, URL and
      type always; the skill select when picking an existing skill; the new
      skill's name and category when suggesting one. */
  function RequiredFields(isNewSkill: bool): (r: set<string>)
    ensures {"title", "url", "type"} <= r
    ensures "skillId" in r <==> !isNewSkill
    ensures "newSkillName" in r <==> isNewSkill
    ensures "categoryId" in r <==> isNewSkill
    ensures r <= {"title", "url", "type", "skillId", "newSkillName", "categoryId"}
    ensures "isNewSkill" !in r && "description" !in r
  {
    {"title", "url", "type"} + if isNewSkill then {"newSkillName", "categoryId"} else {"skillId"}
  }

  /** Every field in `names` has a non-empty first value, as the browser's
      `required` check guarantees before it submits. */
  predicate Filled(es: seq<(string, string)>, names: set<string>) {
    forall n :: n in names ==> Lookup(es, n).Some? && Truthy(Lookup(es, n).value)
  }

  /** The entries sent to the action: the form's own, plus
      `isNewSkill=true` when suggesting a new skill. */
  function SubmittedEntries(es: seq<(string, string)>, isNewSkill: bool): seq<(string, string)> {
    if isNewSkill then es + [("isNewSkill", "true")] else es
  }

  /** The toast shown for the action's reply: an error toast for a truthy
      `result?.error`, the success toast for anything else. */
  function Feedback(reply: Reply): (t: Toast)
    ensures t.ErrorToast? <==> HasError(reply)
    ensures t.ErrorToast? ==> t.text == reply.message
    ensures t.SuccessToast? ==> t.text == SuccessText
  {
    if HasError(reply) then ErrorToast(reply.message) else SuccessToast(SuccessText)
  }

  /** The form has no field named `isNewSkill`, so the action sees
      `isNewSkill === "true"` exactly when the suggestion mode is on. */
  lemma FlagSentIffSuggesting(es: seq<(string, string)>, isNewSkill: bool)
    requires Lookup(es, "isNewSkill").None?
    ensures (Lookup(SubmittedEntries(es, isNewSkill), "isNewSkill") == Some("true")) <==> isNewSkill
  {
    LookupAppend(es, "isNewSkill", "true", "isNewSkill");
  }

  /** The appended flag does not change what the action reads for any other
      field. */
  lemma SubmittedKeepsFields(es: seq<(string, string)>, isNewSkill: bool, name: string)
    requires name != "isNewSkill"
    ensures Lookup(SubmittedEntries(es, isNewSkill), name) == Lookup(es, name)
  {
    LookupAppend(es, "isNewSkill", "true", name);
  }

  /** A suggestion submitted with its required fields filled in makes the
      action suggest the skill. */
  lemma SuggestingFormSuggests(es: seq<(string, string)>)
    requires Lookup(es, "isNewSkill").None?
    requires Filled(es, RequiredFields(true))
    ensures Suggests(SubmittedEntries(es, true))
  {
    FlagSentIffSuggesting(es, true);
    SubmittedKeepsFields(es, true, "newSkillName");
    SubmittedKeepsFields(es, true, "categoryId");
    assert "newSkillName" in RequiredFields(true) && "categoryId" in RequiredFields(true);
  }

  /** Picking an existing skill never makes the action suggest one; the
      chosen `skillId` is what it inserts. */
  lemma ExistingSkillFormDoesNotSuggest(es: seq<(string, string)>)
    requires Lookup(es, "isNewSkill").None?
    ensures !Suggests(SubmittedEntries(es, false))
  {
  }

  class PostForm {
    var isNewSkill: bool

    constructor ()
      ensures !isNewSkill
    {
      isNewSkill := false;
    }

    /** The "Suggest new skill" / "Select existing skill" button. */
    method ToggleSkillMode()
      modifies this
      ensures isNewSkill == !old(isNewSkill)
    {
      isNewSkill := !isNewSkill;
    }

    /** `handleSubmit(formData)`: adds the flag in place, runs `createPost`
        and picks the toast from its reply. */
    method HandleSubmit(form: FormData, user: Option<string>, skillInsert: Result<string>,
                        resourceError: Option<string>)
      returns (toast: Toast, result: PostResult, writes: seq<Row>)
      requires Lookup(form.entries, "isNewSkill").None?
      modifies form
      ensures form.entries == SubmittedEntries(old(form.entries), isNewSkill)
      ensures (result, writes) == Outcome(user, form.entries, skillInsert, resourceError)
      ensures toast == Feedback(ReplyOf(result))
      // the action suggests a skill only in suggestion mode, and always when
      // the fields that mode requires are filled in
      ensures !isNewSkill ==> !Suggests(form.entries)
      ensures isNewSkill && Filled(old(form.entries), RequiredFields(true)) ==> Suggests(form.entries)
      ensures isNewSkill == old(isNewSkill)
    {
      ghost var es := form.entries;
      if isNewSkill {
        form.Append("isNewSkill", "true");
      }
      if isNewSkill {
        if Filled(es, RequiredFields(true)) {
          SuggestingFormSuggests(es);
        }
      } else {
        ExistingSkillFormDoesNotSuggest(es);
      }
      result, writes := CreatePost(user, form, skillInsert, resourceError);
      toast := Feedback(ReplyOf(result));
    }
  }
}
