/** The sign-up form: five required fields, the form data handed to the
    `signup` action, and the switch to the "check your inbox" view once the
    action reports success. */
module SignUp {
  import opened Common
  import opened FormDataModel

  const MissingFieldsText := "Please fill in all fields."
  const AccountCreatedText := "Account created! Please check your email."

  /** The profession choices, in display order. */
  const Professions: seq<string> := [
    "Developer", "Designer", "Data Science", "Product Manager", "QA Engineer",
    "DevOps Engineer", "System Administrator", "Mobile Developer", "UI/UX Designer",
    "Machine Learning Engineer", "Cybersecurity Specialist", "Frontend Developer",
    "Backend Developer"
  ]

  /** The experience-level choices. */
  const SkillLevels: seq<string> := ["Beginner", "Intermediate", "Senior"]

  lemma ProfessionsDistinct()
    ensures |Professions| == 13
    ensures forall i, j :: 0 <= i < j < |Professions| ==> Professions[i] != Professions[j]
  {
  }

  lemma SkillLevelsAreThree()
    ensures |SkillLevels| == 3
    ensures forall l :: l in SkillLevels <==> l == "Beginner" || l == "Intermediate" || l == "Senior"
  {
  }

  /** The entries built for `signup`, in append order. */
  function SignUpEntries(name: string, email: string, password: string,
                         profession: string, skill: string): seq<(string, string)> {
    [("email", email), ("password", password), ("fullName", name),
     ("profession", profession), ("skillLevel", skill)]
  }

  /** Each of the five names `signup` reads gives back the value the form
      put under it: the entry names are distinct, so no value hides
      another. */
  lemma SignUpReadsFields(name: string, email: string, password: string,
                          profession: string, skill: string)
    ensures var es := SignUpEntries(name, email, password, profession, skill);
            && Lookup(es, "email") == Some(email)
            && Lookup(es, "password") == Some(password)
            && Lookup(es, "fullName") == Some(name)
            && Lookup(es, "profession") == Some(profession)
            && Lookup(es, "skillLevel") == Some(skill)
  {
    var es := SignUpEntries(name, email, password, profession, skill);
    assert FirstNamed(es, "email", 0);
    assert FirstNamed(es, "password", 1);
    assert FirstNamed(es, "fullName", 2);
    assert FirstNamed(es, "profession", 3);
    assert FirstNamed(es, "skillLevel", 4);
  }

  /** What the component renders. */
  datatype Screen = SignUpScreen(passwordInputType: string) | InboxScreen(email: string)

  datatype Field = NameField | EmailField | PasswordField | ProfessionField | SkillField

  class SignUpForm {
    var name: string
    var email: string
    var password: string
    var profession: string
    var skill: string
    var isSuccess: bool
    var showPassword: bool

    constructor ()
      ensures name == "" && email == "" && password == "" && profession == "" && skill == ""
      ensures !isSuccess && !showPassword
    {
      name := "";
      email := "";
      password := "";
      profession := "";
      skill := "";
      isSuccess := false;
      showPassword := false;
    }

    /** The value an input shows for its field. */
    function FieldValue(f: Field): string
      reads this
    {
      match f
      case NameField => name
      case EmailField => email
      case PasswordField => password
      case ProfessionField => profession
      case SkillField => skill
    }

    /** `handleSubmit`'s guard: no field is falsy, that is every one of
        the five inputs holds a non-empty value. */
    predicate Complete(): (c: bool)
      reads this
      ensures c <==> forall f: Field :: FieldValue(f) != ""
    {
      assert FieldValue(NameField) == name && FieldValue(EmailField) == email;
      assert FieldValue(PasswordField) == password && FieldValue(ProfessionField) == profession;
      assert FieldValue(SkillField) == skill;
      name != "" && email != "" && password != "" && profession != "" && skill != ""
    }

    /** The view: the inbox confirmation, addressed to the typed email, once
        sign-up succeeded; the form otherwise. */
    function View(): (s: Screen)
      reads this
      ensures s.InboxScreen? <==> isSuccess
      ensures s.InboxScreen? ==> s.email == email
      ensures s.SignUpScreen? ==> s.passwordInputType == PasswordInputType(showPassword)
    {
      if isSuccess then InboxScreen(email) else SignUpScreen(PasswordInputType(showPassword))
    }

    /** A text input or pill select changes one field. */
    method Edit(f: Field, value: string)
      modifies this
      ensures name == (if f == NameField then value else old(name))
      ensures email == (if f == EmailField then value else old(email))
      ensures password == (if f == PasswordField then value else old(password))
      ensures profession == (if f == ProfessionField then value else old(profession))
      ensures skill == (if f == SkillField then value else old(skill))
      ensures isSuccess == old(isSuccess) && showPassword == old(showPassword)
    {
      match f
      case NameField => name := value;
      case EmailField => email := value;
      case PasswordField => password := value;
      case ProfessionField => profession := value;
      case SkillField => skill := value;
    }

    method ToggleShowPassword()
      modifies this
      ensures showPassword == !old(showPassword)
      ensures name == old(name) && email == old(email) && password == old(password)
      ensures profession == old(profession) && skill == old(skill) && isSuccess == old(isSuccess)
    {
      showPassword := !showPassword;
    }

    /** `handleSubmit`. An incomplete form gets the "fill in all fields"
        toast and nothing is sent. Otherwise the five fields are sent and
        `reply` is what `signup` answers: a truthy error gives its toast and
        leaves the form as it was; success switches to the inbox view with
        its toast; any other reply does nothing visible. */
    method HandleSubmit(reply: Reply) returns (toast: Option<Toast>, sent: Option<seq<(string, string)>>)
      modifies this
      ensures !old(Complete()) ==> sent.None? && toast == Some(ErrorToast(MissingFieldsText)) && isSuccess == old(isSuccess)
      ensures old(Complete()) ==> sent == Some(SignUpEntries(name, email, password, profession, skill))
      ensures old(Complete()) && HasError(reply) ==> toast == Some(ErrorToast(reply.message)) && isSuccess == old(isSuccess)
      ensures old(Complete()) && !HasError(reply) && reply.SuccessReply? ==>
                toast == Some(SuccessToast(AccountCreatedText)) && isSuccess
      ensures old(Complete()) && !HasError(reply) && !reply.SuccessReply? ==> toast.None? && isSuccess == old(isSuccess)
      ensures name == old(name) && email == old(email) && password == old(password)
      ensures profession == old(profession) && skill == old(skill) && showPassword == old(showPassword)
    {
      if !Complete() {
        return Some(ErrorToast(MissingFieldsText)), None;
      }
      var formData := new FormData();
      formData.Append("email", email);
      formData.Append("password", password);
      formData.Append("fullName", name);
      formData.Append("profession", profession);
      formData.Append("skillLevel", skill);
      assert formData.entries == SignUpEntries(name, email, password, profession, skill);
      sent := Some(formData.entries);
      if HasError(reply) {
        toast := Some(ErrorToast(reply.message));
      } else if reply.SuccessReply? {
        isSuccess := true;
        toast := Some(SuccessToast(AccountCreatedText));
      } else {
        toast := None;
      }
    }
  }
}
