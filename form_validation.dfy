/**
 * The form-validation hook (src/components/ui/form-validation.tsx): each
 * field name has an ordered list of rules; validating a field stores the
 * message of its first failing rule under the field's name, or removes the
 * field's entry when every rule passes. A rule's regular expression and its
 * custom test are predicates on the value, given as functions.
 */
module FormValidation {
  import opened Common

  /**
   * A rule: each check is present when its field is. `minLength` and
   * `maxLength` are only consulted when they are non-zero (the source tests
   * them for truthiness).
   */
  datatype Rule = Rule(
    required: bool,
    minLength: Option<int>,
    maxLength: Option<int>,
    pattern: Option<string -> bool>,
    custom: Option<string -> bool>,
    message: string)

  /** The checks of one rule, in order: required, minLength, maxLength, pattern, custom. */
  predicate RuleFails(rule: Rule, value: string) {
    || (rule.required && Trim(value) == "")
    || (rule.minLength.Some? && rule.minLength.value != 0 && |value| < rule.minLength.value)
    || (rule.maxLength.Some? && rule.maxLength.value != 0 && |value| > rule.maxLength.value)
    || (rule.pattern.Some? && !rule.pattern.value(value))
    || (rule.custom.Some? && !rule.custom.value(value))
  }

  /** A length bound of 0 is the same as no bound at all. */
  lemma ZeroLengthBoundIgnored(rule: Rule, value: string)
    ensures RuleFails(rule.(minLength := Some(0)), value) == RuleFails(rule.(minLength := None), value)
    ensures RuleFails(rule.(maxLength := Some(0)), value) == RuleFails(rule.(maxLength := None), value)
  {
  }

  /** A required rule fails on a value made only of white space, and on nothing else by itself. */
  lemma RequiredMeansNotBlank(message: string, value: string)
    ensures RuleFails(Rule(true, None, None, None, None, message), value) <==> IsBlank(value)
  {
    TrimEmptyIffBlank(value);
  }

  /** The message of the first failing rule, None when every rule passes. */
  function FirstFailure(rules: seq<Rule>, value: string): (r: Option<string>)
    ensures r.None? <==> forall i :: 0 <= i < |rules| ==> !RuleFails(rules[i], value)
  {
    if rules == [] then None
    else if RuleFails(rules[0], value) then Some(rules[0].message)
    else
      var rest := FirstFailure(rules[1..], value);
      assert forall i :: 1 <= i < |rules| ==> rules[i] == rules[1..][i - 1];
      rest
  }

  /** A failure is the message of a failing rule that every earlier rule passed. */
  lemma {:induction false} FirstFailureIsFirst(rules: seq<Rule>, value: string)
    requires FirstFailure(rules, value).Some?
    ensures exists i :: 0 <= i < |rules| && RuleFails(rules[i], value)
                        && FirstFailure(rules, value).value == rules[i].message
                        && forall j :: 0 <= j < i ==> !RuleFails(rules[j], value)
  {
    if !RuleFails(rules[0], value) {
      FirstFailureIsFirst(rules[1..], value);
      var i :| 0 <= i < |rules[1..]| && RuleFails(rules[1..][i], value)
               && FirstFailure(rules[1..], value).value == rules[1..][i].message
               && forall j :: 0 <= j < i ==> !RuleFails(rules[1..][j], value);
      assert RuleFails(rules[i + 1], value);
      assert forall j :: 0 <= j < i + 1 ==> !RuleFails(rules[j], value) by {
        forall j | 0 <= j < i + 1 ensures !RuleFails(rules[j], value) {
          if j > 0 {
            assert rules[j] == rules[1..][j - 1];
          }
        }
      }
    } else {
      assert RuleFails(rules[0], value);
    }
  }

  /** The rules of a field: `rules[name] || []`. */
  function RulesFor(rules: map<string, seq<Rule>>, name: string): seq<Rule> {
    if name in rules then rules[name] else []
  }

  /** The error map after validating one field whose first failure is `failure`. */
  function AfterValidate(errors: map<string, string>, name: string, failure: Option<string>): map<string, string> {
    if failure.Some? then errors[name := failure.value] else errors - {name}
  }

  /** Validating a field touches that field's entry and no other. */
  lemma AfterValidateOnlyThatField(errors: map<string, string>, name: string, failure: Option<string>, other: string)
    requires other != name
    ensures other in AfterValidate(errors, name, failure) <==> other in errors
    ensures other in errors ==> AfterValidate(errors, name, failure)[other] == errors[other]
  {
  }

  /** A field without rules is valid, and its error entry is gone afterwards. */
  lemma NoRulesIsValid(rules: map<string, seq<Rule>>, name: string, value: string, errors: map<string, string>)
    requires name !in rules || rules[name] == []
    ensures FirstFailure(RulesFor(rules, name), value).None?
    ensures name !in AfterValidate(errors, name, FirstFailure(RulesFor(rules, name), value))
  {
  }

  /** The error map after validating every entry in turn. */
  function AfterAll(rules: map<string, seq<Rule>>, errors: map<string, string>, entries: seq<(string, string)>): map<string, string>
    decreases |entries|
  {
    if entries == [] then errors
    else
      var last := entries[|entries| - 1];
      AfterValidate(AfterAll(rules, errors, entries[..|entries| - 1]), last.0, FirstFailure(RulesFor(rules, last.0), last.1))
  }

  /** Validating one more entry extends the error map by that entry's outcome. */
  lemma AfterAllStep(rules: map<string, seq<Rule>>, errors: map<string, string>, entries: seq<(string, string)>, i: nat)
    requires i < |entries|
    ensures AfterAll(rules, errors, entries[..i + 1])
         == AfterValidate(AfterAll(rules, errors, entries[..i]), entries[i].0,
                          FirstFailure(RulesFor(rules, entries[i].0), entries[i].1))
  {
    assert entries[..i + 1][..i] == entries[..i];
    assert entries[..i + 1][i] == entries[i];
  }

  predicate DistinctNames(entries: seq<(string, string)>) {
    forall i, j :: 0 <= i < j < |entries| ==> entries[i].0 != entries[j].0
  }

  /**
   * After validating a form whose field names are distinct, each field's
   * entry is the message of its first failing rule, or absent when it passes.
   */
  lemma {:induction false} AfterAllExact(rules: map<string, seq<Rule>>, errors: map<string, string>,
                                          entries: seq<(string, string)>, k: int)
    requires DistinctNames(entries)
    requires 0 <= k < |entries|
    ensures entries[k].0 in AfterAll(rules, errors, entries)
            <==> FirstFailure(RulesFor(rules, entries[k].0), entries[k].1).Some?
    ensures FirstFailure(RulesFor(rules, entries[k].0), entries[k].1).Some? ==>
            AfterAll(rules, errors, entries)[entries[k].0]
              == FirstFailure(RulesFor(rules, entries[k].0), entries[k].1).value
    decreases |entries|
  {
    var n := |entries|;
    var init := entries[..n - 1];
    if k < n - 1 {
      assert init[k] == entries[k];
      assert DistinctNames(init);
      AfterAllExact(rules, errors, init, k);
      AfterValidateOnlyThatField(AfterAll(rules, errors, init), entries[n - 1].0,
        FirstFailure(RulesFor(rules, entries[n - 1].0), entries[n - 1].1), entries[k].0);
    }
  }

  /** Names that are not in the form keep their previous entry. */
  lemma {:induction false} AfterAllKeepsOthers(rules: map<string, seq<Rule>>, errors: map<string, string>,
                                               entries: seq<(string, string)>, name: string)
    requires forall k :: 0 <= k < |entries| ==> entries[k].0 != name
    ensures name in AfterAll(rules, errors, entries) <==> name in errors
    ensures name in errors ==> AfterAll(rules, errors, entries)[name] == errors[name]
    decreases |entries|
  {
    if entries != [] {
      var n := |entries|;
      var init := entries[..n - 1];
      assert forall k :: 0 <= k < |init| ==> init[k] == entries[k];
      AfterAllKeepsOthers(rules, errors, init, name);
      AfterValidateOnlyThatField(AfterAll(rules, errors, init), entries[n - 1].0,
        FirstFailure(RulesFor(rules, entries[n - 1].0), entries[n - 1].1), name);
    }
  }

  class FormValidator {
    const rules: map<string, seq<Rule>>
    var errors: map<string, string>

    constructor (rules: map<string, seq<Rule>>)
      ensures this.rules == rules && errors == map[]
    {
      this.rules := rules;
      errors := map[];
    }

    /**
     * `validateField(name, value)`: try the field's rules in order and stop
     * at the first that fails, storing its message; when none fails, remove
     * the field's entry. Returns whether the value passed.
     */
    method ValidateField(name: string, value: string) returns (valid: bool)
      modifies this`errors
      ensures valid <==> FirstFailure(RulesFor(rules, name), value).None?
      ensures errors == AfterValidate(old(errors), name, FirstFailure(RulesFor(rules, name), value))
    {
      var fieldRules := RulesFor(rules, name);
      var i := 0;
      while i < |fieldRules|
        invariant 0 <= i <= |fieldRules|
        invariant forall j :: 0 <= j < i ==> !RuleFails(fieldRules[j], value)
        invariant errors == old(errors)
      {
        var rule := fieldRules[i];
        if rule.required && Trim(value) == "" {
          errors := errors[name := rule.message];
          FirstFailureAt(fieldRules, value, i);
          return false;
        }
        if rule.minLength.Some? && rule.minLength.value != 0 && |value| < rule.minLength.value {
          errors := errors[name := rule.message];
          FirstFailureAt(fieldRules, value, i);
          return false;
        }
        if rule.maxLength.Some? && rule.maxLength.value != 0 && |value| > rule.maxLength.value {
          errors := errors[name := rule.message];
          FirstFailureAt(fieldRules, value, i);
          return false;
        }
        if rule.pattern.Some? && !rule.pattern.value(value) {
          errors := errors[name := rule.message];
          FirstFailureAt(fieldRules, value, i);
          return false;
        }
        if rule.custom.Some? && !rule.custom.value(value) {
          errors := errors[name := rule.message];
          FirstFailureAt(fieldRules, value, i);
          return false;
        }
        i := i + 1;
      }
      errors := errors - {name};
      return true;
    }

    /**
     * `validateAll(formData)`: validate every entry, in order, without
     * stopping at a failure. Returns true iff every entry passed.
     */
    method ValidateAll(entries: seq<(string, string)>) returns (isValid: bool)
      modifies this`errors
      ensures isValid <==> forall k :: 0 <= k < |entries| ==> FirstFailure(RulesFor(rules, entries[k].0), entries[k].1).None?
      ensures errors == AfterAll(rules, old(errors), entries)
    {
      isValid := true;
      var i := 0;
      while i < |entries|
        invariant 0 <= i <= |entries|
        invariant isValid <==> forall k :: 0 <= k < i ==> FirstFailure(RulesFor(rules, entries[k].0), entries[k].1).None?
        invariant errors == AfterAll(rules, old(errors), entries[..i])
      {
        var ok := ValidateField(entries[i].0, entries[i].1);
        if !ok {
          isValid := false;
        }
        AfterAllStep(rules, old(errors), entries, i);
        i := i + 1;
      }
      assert entries[..i] == entries;
    }

    /** `clearErrors()`. */
    method ClearErrors()
      modifies this`errors
      ensures errors == map[]
    {
      errors := map[];
    }
  }

  /** When the rules before position `i` pass and rule `i` fails, rule `i`'s message is the first failure. */
  lemma {:induction false} FirstFailureAt(rules: seq<Rule>, value: string, i: int)
    requires 0 <= i < |rules| && RuleFails(rules[i], value)
    requires forall j :: 0 <= j < i ==> !RuleFails(rules[j], value)
    ensures FirstFailure(rules, value) == Some(rules[i].message)
    decreases i
  {
    if i > 0 {
      FirstFailureAt(rules[1..], value, i - 1);
    }
  }
}
