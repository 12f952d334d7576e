# Rule-based validation of a job-application form

This project models the validation core of a small browser application that
checks a job-application form before it is sent. The core has two layers:

- a generic rule-composition layer (`src/services/validation.ts`): a rule is
  a boolean check of a record; `all` and `some` combine a list of rules with
  AND and OR; `createValidator(rules, errors)` returns a `validate` function
  that visits every key of the rule map, skips keys whose rule is missing or
  falsy, and for every rule that rejects the record sets `valid` to false and
  copies that field's message into `errors`;
- the application's rule set (`src/application/validation.ts`, with the
  helpers of `src/application/utils.ts` and the constants of
  `src/application/const.ts`): one rule per field (name, email, phone, birth
  date, specialty, experience, password), the whole-form rule
  `validateFormWithoutErrors`, and `validateForm`, the validator built from the
  rule map and the message map.

Dafny modules follow the source files: `Services` (the combinators and the
validator), `Utils` (the helpers), `Application` (the form, its rules, maps
and `validateForm`), `Scenarios` (the rules on concrete values), and
`Wrappers` (an `Option` type standing for `undefined` and `NaN`).

How the model reads the source:

- A rule is a total Dafny function `T -> bool`. `Array.prototype.every` and
  `Array.prototype.some` are the recursive functions `Every` and `AnyHolds`,
  which visit the list from the first rule and stop as soon as the answer is
  known. `all` and `some` are `All` and `Any` (`Some` is the constructor of
  `Option`).
- `createValidator` returns a closure over two maps that are never changed;
  it is the datatype `Validator(rules, messages)`, and the closure's `validate`
  is its method `Validate`, a loop that updates the result step by step. The
  rule map is `map<K, Option<Rule<T>>>`: a key whose value is `None` is
  present but falsy. The result's error map is `map<K, Option<string>>`: a
  failing field with no configured message gets the entry `None`, as
  JavaScript stores `undefined` under the key.
- `Object.keys(rules)` visits keys in the engine's key order. The loop takes the
  next key from the set of keys not yet visited, in any order, and is proved
  to return `Outcome(rules, messages, data)`, so the result is the same for
  every visiting order.
- The clock and the ECMAScript built-ins `Date.parse` and `Number` are the
  record `Env`: `currentYear` is the calendar year of "now",
  `parseDateYear(s)` is the calendar year that `getFullYear` gives for
  `Date.parse(s)`, read in local time, so it includes the time-zone step that
  can turn a date parsed as UTC into the previous year (`None` when the parse
  is `NaN`), and `toNumber(s)` is `Number(s)`
  as a `JsNumber` (`NaN`, `Infinity`, `-Infinity` or a finite value).
  `Infinity` passes `isExperienced` but not `isNumberLike`, so the composed
  experience rule accepts exactly the finite values of at least 3.
- The regular expressions become character classes: `\d` is `0`-`9`, `[A-Z]`
  is the 26 capital ASCII letters, and `\s` is the ECMAScript set of
  white-space and line-terminator characters (tab, line feed, vertical tab,
  form feed, carriage return, space, U+00A0, U+1680, U+2000 to U+200A,
  U+2028, U+2029, U+202F, U+205F, U+3000 and U+FEFF). `value.search(re)` on
  such a pattern is `Search`: the first index whose character is in the class,
  or -1. The `g` and `i` flags change nothing for these patterns.

A failing field with no configured message still gets a key in the error map,
whose value is `undefined` (`MissingMessageStillReported`). In this
application every ruled field has a message (`ApplicationRules`), so
`validateForm` always reports a real message.

The password message says "longer than 10 characters", while the rule
accepts a password of exactly 10 characters; the model follows the rule.

## Model

| member | source | states |
|---|---|---|
| `Services.Every` | src/services/validation.ts:10 | `rules.every(isValid => isValid(data))` is true exactly when every rule of the list accepts `data` |
| `Services.AnyHolds` | src/services/validation.ts:14 | `rules.some(isValid => isValid(data))` is true exactly when some rule of the list accepts `data` |
| `Services.All` | src/services/validation.ts:9-11 | the rule `all(rules)` accepts a record exactly when every rule of the list does; so `all([])` accepts everything |
| `Services.Any` | src/services/validation.ts:13-15 | the rule `some(rules)` accepts a record exactly when at least one rule of the list does; so `some([])` accepts nothing |
| `Services.Outcome` | src/services/validation.ts:33-50 | the key set of `errors` is exactly the set of fields whose rule is present, truthy and rejects the record; each entry is the message map's entry for the field (`None` when absent); `valid` holds exactly when `errors` is empty |
| `Services.Validator.Validate` | src/services/validation.ts:29-52 | the `validate` loop, started from `{valid: true, errors: {}}` and visiting the rule keys in any order, returns `Outcome(rules, messages, data)`; it changes nothing else |
| `Services.MissingMessageStillReported` | src/services/validation.ts:46 | a failing field with no configured message is still a key of `errors`, with an absent message, and the result is invalid |
| `Services.FalsyRuleIsSkipped` | src/services/validation.ts:43 | a key whose rule is falsy affects neither `valid` nor `errors`: the result equals the one without that key |
| `Services.AddingRuleOnlyAddsErrors` | src/services/validation.ts:44-47 | `valid` is only ever set to false: adding a rule keeps every earlier error, and the result is valid exactly when it was valid before and the new rule accepts the record |
| `Utils.Exists` | src/application/utils.ts:1 | `exists(s)` on a string is true exactly when `s` is not empty |
| `Utils.Search` | src/application/utils.ts:2 | `s.search(pattern)` is -1 when no character matches, and otherwise the index of the first matching character |
| `Utils.Contains` | src/application/utils.ts:2 | `contains(s, pattern)` is true exactly when some character of `s` matches the pattern |
| `Utils.InRange` | src/application/utils.ts:4-5 | `inRange(v, min, max)` is true exactly when `min <= v <= max`, both bounds inclusive, and never when `max < min` |
| `Utils.YearsOf` | src/application/utils.ts:7-8 | `yearsOf` is the current calendar year minus the birth year; it is 0 exactly when the two years are equal |
| `Application.ValidateName` | src/application/validation.ts:19 | the name rule holds exactly when the name is not empty |
| `Application.ValidateEmail` | src/application/validation.ts:20 | the email rule holds exactly when the email contains an `@` character and a `.` character |
| `Application.OnlySafeCharacters` | src/application/validation.ts:23 | no phone character matches `[^\d\s\-\(\)\+]`, i.e. every character is a digit, white space, `-`, `(`, `)` or `+` |
| `Application.IsValidCustom` | src/application/validation.ts:39-40 | the custom specialty is not empty and has at most 50 characters |
| `Application.HasCapital` | src/application/validation.ts:52 | the password contains a character in `A`-`Z` |
| `Application.HasDigit` | src/application/validation.ts:53 | the password contains a character in `0`-`9` |
| `Application.PhoneRuleMeaning` | src/application/validation.ts:22-24 | `validatePhone` (composed with `all` at line 60) holds exactly when the phone starts with `+` and every character is a digit, white space, `-`, `(`, `)` or `+` |
| `Application.BirthDateRuleMeaning` | src/application/validation.ts:32-36 | `validateBirthDate` (line 61) holds exactly when the date parses and the current year minus the birth year is between 20 and 50 inclusive; month and day play no part |
| `Application.SpecialtyRuleMeaning` | src/application/validation.ts:38-42 | `validateSpecialty` (composed with `some` at line 62) holds exactly when the specialty is "engineer", "scientist" or "psychologist", or the custom specialty has 1 to 50 characters |
| `Application.ExperienceRuleMeaning` | src/application/validation.ts:44-46 | `validateExperience` (line 63) holds exactly when `Number(experience)` is finite and at least 3 |
| `Application.PasswordRuleMeaning` | src/application/validation.ts:48-54 | `validatePassword` (line 64) holds exactly when the password has at least 10 characters, a capital letter and a digit |
| `Application.FormWithoutErrorsMeaning` | src/application/validation.ts:70-78 | the whole-form rule holds exactly when the name is not empty, the email contains `@` and `.`, and the phone, birth-date, specialty, experience and password rules hold |
| `Application.ApplicationRules` | src/application/validation.ts:85-104 | the rule map has a truthy rule for exactly the seven fields that have a message, and none for `photo` or `customSpecialty` |
| `Application.FormAgreement` | src/application/validation.ts:70-106 | `validateFormWithoutErrors(form)` equals `validateForm(form).valid` for every form |
| `Application.FormErrors` | src/application/validation.ts:85-106 | `validateForm(form).errors` has a key for exactly the fields whose rule fails, never `photo` or `customSpecialty`, and each entry is that field's configured message |
| `Application.ValidateForm` | src/application/validation.ts:106 | `validateForm(form)` is valid exactly when the whole-form rule holds, reports exactly the failing fields, each with its configured message |
| `Scenarios.EmailExamples` | src/application/validation.ts:20 | "a@b.com" passes the email rule and "abc" does not |
| `Scenarios.PhoneExamples` | src/application/validation.ts:22-24 | "+1 (555) 123-4567" passes the phone rule and "555-123-4567" does not |
| `Scenarios.BirthDateExamples` | src/application/validation.ts:32-36 | a birth year giving age 25 passes, ages 15 and 51 fail |
| `Scenarios.SpecialtyExamples` | src/application/validation.ts:38-42 | "engineer" with an empty custom specialty passes, "other" with an empty custom specialty fails |
| `Scenarios.ExperienceExamples` | src/application/validation.ts:44-46 | "3" passes, "2" and "abc" fail |
| `Scenarios.PasswordExamples` | src/application/validation.ts:48-54 | "Abcdefghi1" passes, "abcdefghi1" (no capital) and "short1A" (too short) fail |
| `Scenarios.EmailAndPasswordFailures` | src/application/validation.ts:85-106 | a form failing only the email and password rules gives `valid == false` and errors holding exactly the email and password messages |

## Left out

- src/main.ts, the form controller (DOM lookups, event listeners, `FormData`, error elements, `setTimeout` and `alert`), is not part of this model: it is user-interface glue with no rule logic.
- The clock (`new Date().getFullYear()`) and the ECMAScript built-ins `Date.parse` and `Number(...)` are the fields of `Env`, taken as given functions, so their own parsing rules (date formats, time zones, number syntax) are not modelled.
- The regular-expression engine is not modelled: each pattern in the source matches a single character of a class, and that class is written out as a predicate.
- String lengths are counted in Unicode characters, while JavaScript's `.length` counts UTF-16 code units; a password or custom specialty holding characters outside the Basic Multilingual Plane is counted shorter here than in the browser.
- A rule that throws (for instance on a missing field) aborts `validate` in the source; Dafny rules are total, so that path does not exist in the model.
- The `photo` field is a browser `File` with no rule: the model keeps its key (to show it never gets an error) but not its value.
- `exists` is generic in the source (`!!entity`) and `inRange` accepts strings too; the application uses them only on strings and on numbers respectively, and only those uses are modelled.
- src/application/types.ts and src/extensions/shared-kernel.ts hold only type aliases, and src/application/const.ts only the constants, which appear as constants of the `Application` module.
