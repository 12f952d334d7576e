/**
 * The generic rule-composition layer: rules, the `all`/`some` combinators
 * and the validator factory with its result-accumulating `validate` loop.
 */
module Services {
  import opened Wrappers

  /** A validation rule: a side-effect-free check of one record. */
  type Rule<-T> = T -> bool

  /** `Array.prototype.every` applied to `isValid => isValid(data)`: first to last, stopping at the first failure. */
  function Every<T>(rules: seq<Rule<T>>, data: T): (r: bool)
    ensures r <==> forall i :: 0 <= i < |rules| ==> rules[i](data)
  {
    |rules| == 0 || (rules[0](data) && Every(rules[1..], data))
  }

  /** `Array.prototype.some` applied to `isValid => isValid(data)`: first to last, stopping at the first success. */
  function AnyHolds<T>(rules: seq<Rule<T>>, data: T): (r: bool)
    ensures r <==> exists i :: 0 <= i < |rules| && rules[i](data)
  {
    |rules| != 0 && (rules[0](data) || AnyHolds(rules[1..], data))
  }

  /** `all(rules)`: the rule that holds when every rule of the list holds (so `all([])` always holds). */
  function All<T(!new)>(rules: seq<Rule<T>>): (rule: Rule<T>)
    ensures forall data :: rule(data) <==> forall i :: 0 <= i < |rules| ==> rules[i](data)
  {
    data => Every(rules, data)
  }

  /** `some(rules)`: the rule that holds when at least one rule of the list holds (so `some([])` never holds). */
  function Any<T(!new)>(rules: seq<Rule<T>>): (rule: Rule<T>)
    ensures forall data :: rule(data) <==> exists i :: 0 <= i < |rules| && rules[i](data)
  {
    data => AnyHolds(rules, data)
  }

  /**
   * `{valid, errors}`. An error entry is `None` when the message map had no
   * message for the failing field (JavaScript stores `undefined` under the key).
   */
  datatype ValidationResult<K> = ValidationResult(valid: bool, errors: map<K, Option<string>>)

  /** Reading `messages[key]`: `undefined` when the key is absent. */
  function Lookup<K>(messages: map<K, string>, key: K): Option<string>
  {
    if key in messages then Some(messages[key]) else None
  }

  /** The rule map has a (truthy) rule for `key` and that rule rejects `data`. */
  predicate Fails<T, K>(rules: map<K, Option<Rule<T>>>, key: K, data: T)
  {
    key in rules && rules[key].Some? && !rules[key].value(data)
  }

  /** The fields whose present rule rejects `data`. */
  function FailingFields<T, K>(rules: map<K, Option<Rule<T>>>, data: T): set<K>
  {
    set key | key in rules.Keys && Fails(rules, key, data)
  }

  /** What `createValidator(rules, messages)(data)` returns, whatever order the keys are visited in. */
  function Outcome<T, K>(rules: map<K, Option<Rule<T>>>, messages: map<K, string>, data: T): (result: ValidationResult<K>)
    ensures result.errors.Keys == FailingFields(rules, data)
    ensures forall key :: key in result.errors ==> result.errors[key] == Lookup(messages, key)
    ensures result.valid <==> result.errors == map[]
  {
    var failing := FailingFields(rules, data);
    var errors := map key | key in failing :: Lookup(messages, key);
    assert failing != {} ==> errors != map[] by {
      if failing != {} {
        var key :| key in failing;
        assert key in errors;
      }
    }
    ValidationResult(failing == {}, errors)
  }

  /**
   * The validator that `createValidator(rules, messages)` returns: it closes
   * over the two maps, which are never changed afterwards.
   */
  datatype Validator<!T, K> = Validator(rules: map<K, Option<Rule<T>>>, messages: map<K, string>)
  {
    /** `validate(data)`: one pass over the rule map's keys, in any order. */
    method Validate(data: T) returns (result: ValidationResult<K>)
      ensures result == Outcome(rules, messages, data)
    {
      result := ValidationResult(true, map[]);
      var pending := rules.Keys;
      while pending != {}
        invariant pending <= rules.Keys
        invariant result.errors.Keys == FailingFields(rules, data) - pending
        invariant forall key :: key in result.errors ==> result.errors[key] == Lookup(messages, key)
        invariant result.valid <==> result.errors == map[]
        decreases pending
      {
        var key :| key in pending;
        pending := pending - {key};
        match rules[key] {
          case None =>
          case Some(validate) =>
            if !validate(data) {
              result := result.(valid := false);
              result := result.(errors := result.errors[key := Lookup(messages, key)]);
            }
        }
      }
    }
  }

  /** A field whose rule fails is reported even when no message is configured for it: its entry is `undefined`. */
  lemma MissingMessageStillReported<T, K>(rules: map<K, Option<Rule<T>>>, messages: map<K, string>, data: T, key: K)
    requires Fails(rules, key, data) && key !in messages
    ensures key in Outcome(rules, messages, data).errors
    ensures Outcome(rules, messages, data).errors[key] == None
    ensures !Outcome(rules, messages, data).valid
  {
  }

  /** A key whose rule is falsy is skipped: removing it from the rule map changes nothing. */
  lemma FalsyRuleIsSkipped<T, K>(rules: map<K, Option<Rule<T>>>, messages: map<K, string>, data: T, key: K)
    requires key in rules && rules[key] == None
    ensures Outcome(rules, messages, data) == Outcome(rules - {key}, messages, data)
  {
  }

  /**
   * `valid` starts true and is only ever set to false: adding a rule can only
   * add errors, and can only turn a valid result into an invalid one.
   */
  lemma {:induction false} AddingRuleOnlyAddsErrors<T, K>(rules: map<K, Option<Rule<T>>>, messages: map<K, string>, data: T, key: K, rule: Rule<T>)
    requires key !in rules
    ensures Outcome(rules, messages, data).errors.Keys <= Outcome(rules[key := Some(rule)], messages, data).errors.Keys
    ensures Outcome(rules[key := Some(rule)], messages, data).valid <==> Outcome(rules, messages, data).valid && rule(data)
  {
    var bigger := rules[key := Some(rule)];
    assert FailingFields(bigger, data) == FailingFields(rules, data) + (if rule(data) then {} else {key});
  }
}
