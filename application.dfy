/**
 * The job-application form: the concrete rule for each field, the whole-form
 * rule, and the rule and message maps that `validateForm` is built from.
 */
module Application {
  import opened Wrappers
  import opened Services
  import opened Utils

  /** The form's text fields (`photo` is a file and carries no rule, so its value is not held here). */
  datatype ApplicationForm = ApplicationForm(
    name: string,
    phone: string,
    email: string,
    birthDate: string,
    specialty: string,
    customSpecialty: string,
    experience: string,
    password: string)

  /** The keys of the form record. */
  datatype Field = Name | Phone | Email | BirthDate | Photo | Specialty | CustomSpecialty | Experience | Password

  /** A JavaScript number as far as the experience rules can tell them apart. */
  datatype JsNumber = NaN | PositiveInfinity | NegativeInfinity | Finite(value: real)

  /**
   * What the rules take from the browser: the current calendar year, the
   * calendar year of `Date.parse(s)` (`None` when it is `NaN`), and `Number(s)`.
   */
  datatype Env = Env(currentYear: int, parseDateYear: string -> Option<int>, toNumber: string -> JsNumber)

  const MinAllowedAgeYears: int := 20
  const MaxAllowedAgeYears: int := 50
  const MaxSpecialtyLength: int := 50
  const DefaultSpecialties: seq<string> := ["engineer", "scientist", "psychologist"]
  const MinExperienceYears: real := 3.0
  const MinPasswordSize: int := 10

  // Character classes of the regular expressions.

  /** `\d`. */
  predicate IsDigit(c: char) { '0' <= c <= '9' }

  /** `[A-Z]`. */
  predicate IsCapital(c: char) { 'A' <= c <= 'Z' }

  /** `\s`: the ECMAScript white-space and line-terminator characters. */
  predicate IsWhitespace(c: char)
  {
    c == '\t' || c == '\n' || c == '\U{000B}' || c == '\U{000C}' || c == '\r' || c == ' '
    || c == '\U{00A0}' || c == '\U{1680}' || ('\U{2000}' <= c <= '\U{200A}')
    || c == '\U{2028}' || c == '\U{2029}' || c == '\U{202F}' || c == '\U{205F}'
    || c == '\U{3000}' || c == '\U{FEFF}'
  }

  /** A character allowed in a phone number: `\d`, `\s`, `-`, `(`, `)` or `+`. */
  predicate IsPhoneCharacter(c: char)
  {
    IsDigit(c) || IsWhitespace(c) || c == '-' || c == '(' || c == ')' || c == '+'
  }

  /** `[^\d\s\-\(\)\+]`. */
  predicate IsUnsafePhoneCharacter(c: char) { !IsPhoneCharacter(c) }

  // The rules of the single fields and their sub-rules.

  function ValidateName(form: ApplicationForm): (r: bool)
    ensures r <==> |form.name| > 0
  {
    Exists(form.name)
  }

  function ValidateEmail(form: ApplicationForm): (r: bool)
    ensures r <==>
      (exists i :: 0 <= i < |form.email| && form.email[i] == '@') &&
      (exists j :: 0 <= j < |form.email| && form.email[j] == '.')
  {
    '@' in form.email && '.' in form.email
  }

  predicate OnlyInternational(form: ApplicationForm)
  {
    "+" <= form.phone
  }

  function OnlySafeCharacters(form: ApplicationForm): (r: bool)
    ensures r <==> forall i :: 0 <= i < |form.phone| ==> IsPhoneCharacter(form.phone[i])
  {
    !Contains(form.phone, IsUnsafePhoneCharacter)
  }

  const PhoneRules: seq<Rule<ApplicationForm>> := [OnlyInternational, OnlySafeCharacters]

  function ValidDate(env: Env, form: ApplicationForm): bool
  {
    env.parseDateYear(form.birthDate).Some?
  }

  /** With an unparsable date `yearsOf` is `NaN`, and `NaN` is in no range. */
  function AllowedAge(env: Env, form: ApplicationForm): bool
  {
    match env.parseDateYear(form.birthDate)
    case None => false
    case Some(year) => InRange(YearsOf(year, env.currentYear), MinAllowedAgeYears, MaxAllowedAgeYears)
  }

  function BirthDateRules(env: Env): seq<Rule<ApplicationForm>>
  {
    [form => ValidDate(env, form), form => AllowedAge(env, form)]
  }

  predicate IsKnownSpecialty(form: ApplicationForm)
  {
    form.specialty in DefaultSpecialties
  }

  function IsValidCustom(form: ApplicationForm): (r: bool)
    ensures r <==> 0 < |form.customSpecialty| <= MaxSpecialtyLength
  {
    Exists(form.customSpecialty) && |form.customSpecialty| <= MaxSpecialtyLength
  }

  const SpecialtyRules: seq<Rule<ApplicationForm>> := [IsKnownSpecialty, IsValidCustom]

  function IsNumberLike(env: Env, form: ApplicationForm): bool
  {
    env.toNumber(form.experience).Finite?
  }

  /** `Number(experience) >= 3`: false for `NaN` and `-Infinity`, true for `Infinity`. */
  function IsExperienced(env: Env, form: ApplicationForm): bool
  {
    match env.toNumber(form.experience)
    case NaN => false
    case NegativeInfinity => false
    case PositiveInfinity => true
    case Finite(years) => years >= MinExperienceYears
  }

  function ExperienceRules(env: Env): seq<Rule<ApplicationForm>>
  {
    [form => IsNumberLike(env, form), form => IsExperienced(env, form)]
  }

  predicate HasRequiredSize(form: ApplicationForm)
  {
    |form.password| >= MinPasswordSize
  }

  function HasCapital(form: ApplicationForm): (r: bool)
    ensures r <==> exists i :: 0 <= i < |form.password| && IsCapital(form.password[i])
  {
    Contains(form.password, IsCapital)
  }

  function HasDigit(form: ApplicationForm): (r: bool)
    ensures r <==> exists i :: 0 <= i < |form.password| && IsDigit(form.password[i])
  {
    Contains(form.password, IsDigit)
  }

  const PasswordRules: seq<Rule<ApplicationForm>> := [HasRequiredSize, HasCapital, HasDigit]

  // The composed field rules.

  const ValidatePhone: Rule<ApplicationForm> := All(PhoneRules)

  function ValidateBirthDate(env: Env): Rule<ApplicationForm>
  {
    All(BirthDateRules(env))
  }

  const ValidateSpecialty: Rule<ApplicationForm> := Any(SpecialtyRules)

  function ValidateExperience(env: Env): Rule<ApplicationForm>
  {
    All(ExperienceRules(env))
  }

  const ValidatePassword: Rule<ApplicationForm> := All(PasswordRules)

  /** The composed rule for the whole form, without messages. */
  function ValidateFormWithoutErrors(env: Env): Rule<ApplicationForm>
  {
    All([ValidateName, ValidateEmail, ValidatePhone, ValidateBirthDate(env),
         ValidateSpecialty, ValidateExperience(env), ValidatePassword])
  }

  const NameMessage := "Your name is required for this mission."
  const EmailMessage := "The correct email format is user@example.com."
  const PhoneMessage := "Please, use only +, -, (, ), and whitespace."
  const BirthDateMessage := "We require applicants to be between 20 and 50 years."
  const SpecialtyMessage := "Please, use up to 50 characters to describe your specialty."
  const ExperienceMessage := "For this mission, we search for experience of 3+ years."
  const PasswordMessage := "Your password should be longer than 10 characters, include a capital letter and a digit."

  /** The message map `errors`. */
  const ApplicationErrors: map<Field, string> := map[
    Name := NameMessage,
    Email := EmailMessage,
    Phone := PhoneMessage,
    BirthDate := BirthDateMessage,
    Specialty := SpecialtyMessage,
    Experience := ExperienceMessage,
    Password := PasswordMessage]

  /** The rule map `rules`: one truthy rule for each of the seven validated fields, each with a message. */
  function ApplicationRules(env: Env): (rules: map<Field, Option<Rule<ApplicationForm>>>)
    ensures rules.Keys == ApplicationErrors.Keys
    ensures Photo !in rules && CustomSpecialty !in rules
    ensures forall field :: field in rules ==> rules[field].Some?
  {
    map[
      Name := Some(ValidateName),
      Email := Some(ValidateEmail),
      Phone := Some(ValidatePhone),
      BirthDate := Some(ValidateBirthDate(env)),
      Specialty := Some(ValidateSpecialty),
      Experience := Some(ValidateExperience(env)),
      Password := Some(ValidatePassword)]
  }

  /** `validateForm = createValidator(rules, errors)`, applied to one form. */
  method ValidateForm(env: Env, form: ApplicationForm) returns (result: ValidationResult<Field>)
    ensures result.valid == ValidateFormWithoutErrors(env)(form)
    ensures Photo !in result.errors && CustomSpecialty !in result.errors
    ensures Name in result.errors <==> !ValidateName(form)
    ensures Email in result.errors <==> !ValidateEmail(form)
    ensures Phone in result.errors <==> !ValidatePhone(form)
    ensures BirthDate in result.errors <==> !ValidateBirthDate(env)(form)
    ensures Specialty in result.errors <==> !ValidateSpecialty(form)
    ensures Experience in result.errors <==> !ValidateExperience(env)(form)
    ensures Password in result.errors <==> !ValidatePassword(form)
    ensures forall field :: field in result.errors ==>
              field in ApplicationErrors && result.errors[field] == Some(ApplicationErrors[field])
  {
    var validateForm := Validator(ApplicationRules(env), ApplicationErrors);
    result := validateForm.Validate(form);
    FormAgreement(env, form);
    FormErrors(env, form);
  }

  // What each composed rule means, character by character.

  lemma PhoneRuleMeaning(form: ApplicationForm)
    ensures ValidatePhone(form) <==>
      |form.phone| > 0 && form.phone[0] == '+' &&
      forall i :: 0 <= i < |form.phone| ==> IsPhoneCharacter(form.phone[i])
  {
    assert ValidatePhone(form) <==> OnlyInternational(form) && OnlySafeCharacters(form) by {
      assert PhoneRules[0] == OnlyInternational && PhoneRules[1] == OnlySafeCharacters;
    }
  }

  lemma BirthDateRuleMeaning(env: Env, form: ApplicationForm)
    ensures ValidateBirthDate(env)(form) <==>
      env.parseDateYear(form.birthDate).Some? &&
      20 <= env.currentYear - env.parseDateYear(form.birthDate).value <= 50
  {
  }

  lemma SpecialtyRuleMeaning(form: ApplicationForm)
    ensures ValidateSpecialty(form) <==>
      form.specialty in {"engineer", "scientist", "psychologist"} ||
      0 < |form.customSpecialty| <= 50
  {
    assert ValidateSpecialty(form) <==> IsKnownSpecialty(form) || IsValidCustom(form) by {
      assert SpecialtyRules[0] == IsKnownSpecialty && SpecialtyRules[1] == IsValidCustom;
    }
  }

  lemma ExperienceRuleMeaning(env: Env, form: ApplicationForm)
    ensures ValidateExperience(env)(form) <==>
      env.toNumber(form.experience).Finite? && env.toNumber(form.experience).value >= 3.0
  {
  }

  lemma PasswordRuleMeaning(form: ApplicationForm)
    ensures ValidatePassword(form) <==>
      |form.password| >= 10 &&
      (exists i :: 0 <= i < |form.password| && IsCapital(form.password[i])) &&
      (exists i :: 0 <= i < |form.password| && IsDigit(form.password[i]))
  {
    assert ValidatePassword(form) <==> HasRequiredSize(form) && HasCapital(form) && HasDigit(form) by {
      assert PasswordRules[0] == HasRequiredSize && PasswordRules[1] == HasCapital && PasswordRules[2] == HasDigit;
    }
  }

  /** The whole-form rule holds exactly when each of the seven field rules holds. */
  lemma FormWithoutErrorsMeaning(env: Env, form: ApplicationForm)
    ensures ValidateFormWithoutErrors(env)(form) <==>
      |form.name| > 0 && '@' in form.email && '.' in form.email && ValidatePhone(form) &&
      ValidateBirthDate(env)(form) && ValidateSpecialty(form) &&
      ValidateExperience(env)(form) && ValidatePassword(form)
  {
    var rules := [ValidateName, ValidateEmail, ValidatePhone, ValidateBirthDate(env),
                  ValidateSpecialty, ValidateExperience(env), ValidatePassword];
    assert ValidateFormWithoutErrors(env) == All(rules);
    assert ValidateFormWithoutErrors(env)(form) <==>
      rules[0](form) && rules[1](form) && rules[2](form) && rules[3](form) &&
      rules[4](form) && rules[5](form) && rules[6](form);
  }

  /** `validateFormWithoutErrors(form)` agrees with `validateForm(form).valid`. */
  lemma FormAgreement(env: Env, form: ApplicationForm)
    ensures Outcome(ApplicationRules(env), ApplicationErrors, form).valid == ValidateFormWithoutErrors(env)(form)
  {
    var rules := ApplicationRules(env);
    FormWithoutErrorsMeaning(env, form);
    FormErrors(env, form);
    var errors := Outcome(rules, ApplicationErrors, form).errors;
    if !ValidateFormWithoutErrors(env)(form) {
      if !ValidateName(form) { assert Name in errors; }
      else if !ValidateEmail(form) { assert Email in errors; }
      else if !ValidatePhone(form) { assert Phone in errors; }
      else if !ValidateBirthDate(env)(form) { assert BirthDate in errors; }
      else if !ValidateSpecialty(form) { assert Specialty in errors; }
      else if !ValidateExperience(env)(form) { assert Experience in errors; }
      else { assert Password in errors; }
    } else {
      assert forall field :: field in rules ==> field !in errors;
    }
  }

  /** Which fields `validateForm` reports, and that each carries its configured message. */
  lemma FormErrors(env: Env, form: ApplicationForm)
    ensures var errors := Outcome(ApplicationRules(env), ApplicationErrors, form).errors;
      && Photo !in errors && CustomSpecialty !in errors
      && (Name in errors <==> !ValidateName(form))
      && (Email in errors <==> !ValidateEmail(form))
      && (Phone in errors <==> !ValidatePhone(form))
      && (BirthDate in errors <==> !ValidateBirthDate(env)(form))
      && (Specialty in errors <==> !ValidateSpecialty(form))
      && (Experience in errors <==> !ValidateExperience(env)(form))
      && (Password in errors <==> !ValidatePassword(form))
      && forall field :: field in errors ==>
           field in ApplicationErrors && errors[field] == Some(ApplicationErrors[field])
  {
  }
}
