/** Worked examples of the application's rules on concrete field values. */
module Scenarios {
  import opened Wrappers
  import opened Services
  import opened Application

  lemma EmailExamples(form: ApplicationForm)
    ensures ValidateEmail(form.(email := "a@b.com"))
    ensures !ValidateEmail(form.(email := "abc"))
  {
  }

  lemma PhoneExamples(form: ApplicationForm)
    ensures ValidatePhone(form.(phone := "+1 (555) 123-4567"))
    ensures !ValidatePhone(form.(phone := "555-123-4567"))
  {
    var good := "+1 (555) 123-4567";
    forall i | 0 <= i < |good| ensures IsPhoneCharacter(good[i]) {
      assert good[i] in "+1 (5)23-467";
    }
    PhoneRuleMeaning(form.(phone := good));
    PhoneRuleMeaning(form.(phone := "555-123-4567"));
  }

  /** Ages 25, 15 and 51 by calendar year: only 25 is in the allowed range. */
  lemma BirthDateExamples(env: Env, form: ApplicationForm, aged25: string, aged15: string, aged51: string)
    requires env.parseDateYear(aged25) == Some(env.currentYear - 25)
    requires env.parseDateYear(aged15) == Some(env.currentYear - 15)
    requires env.parseDateYear(aged51) == Some(env.currentYear - 51)
    ensures ValidateBirthDate(env)(form.(birthDate := aged25))
    ensures !ValidateBirthDate(env)(form.(birthDate := aged15))
    ensures !ValidateBirthDate(env)(form.(birthDate := aged51))
  {
  }

  lemma SpecialtyExamples(form: ApplicationForm)
    ensures ValidateSpecialty(form.(specialty := "engineer", customSpecialty := ""))
    ensures !ValidateSpecialty(form.(specialty := "other", customSpecialty := ""))
  {
  }

  /** `Number("3")` is 3, `Number("2")` is 2 and `Number("abc")` is `NaN`. */
  lemma ExperienceExamples(env: Env, form: ApplicationForm)
    requires env.toNumber("3") == Finite(3.0)
    requires env.toNumber("2") == Finite(2.0)
    requires env.toNumber("abc") == NaN
    ensures ValidateExperience(env)(form.(experience := "3"))
    ensures !ValidateExperience(env)(form.(experience := "2"))
    ensures !ValidateExperience(env)(form.(experience := "abc"))
  {
  }

  lemma PasswordExamples(form: ApplicationForm)
    ensures ValidatePassword(form.(password := "Abcdefghi1"))
    ensures !ValidatePassword(form.(password := "abcdefghi1"))
    ensures !ValidatePassword(form.(password := "short1A"))
  {
    PasswordRuleMeaning(form.(password := "Abcdefghi1"));
    assert IsCapital("Abcdefghi1"[0]) && IsDigit("Abcdefghi1"[9]);
    PasswordRuleMeaning(form.(password := "abcdefghi1"));
    PasswordRuleMeaning(form.(password := "short1A"));
  }

  /** A form failing exactly the email and password rules reports exactly those two fields, with their messages. */
  lemma EmailAndPasswordFailures(env: Env, form: ApplicationForm)
    requires ValidateName(form) && !ValidateEmail(form) && ValidatePhone(form)
    requires ValidateBirthDate(env)(form) && ValidateSpecialty(form) && ValidateExperience(env)(form)
    requires !ValidatePassword(form)
    ensures Outcome(ApplicationRules(env), ApplicationErrors, form) ==
      ValidationResult(false, map[Email := Some(EmailMessage), Password := Some(PasswordMessage)])
  {
    FormErrors(env, form);
    var errors := Outcome(ApplicationRules(env), ApplicationErrors, form).errors;
    assert errors.Keys == {Email, Password} by {
      forall field | field in errors ensures field == Email || field == Password {
        match field
        case Email =>
        case Password =>
        case _ =>
      }
    }
  }
}
