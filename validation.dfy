/**
 * The request-body schemas as a data-driven rule table: each field lists
 * its rules, every field is validated (`abortEarly: false`), and the
 * failures are reported together as the `details` of a 400.
 *
 * Within a field yup first runs its initial tests: `oneOf` (yup 0.x's
 * whitelist check, yup 1's internal test) and, in yup 1, the presence half
 * of `required`. When one of them fails, the field's other tests are skipped
 * and only the initial failures are reported. In yup 0.x `required` on an
 * absent value is an ordinary test instead, but every other rule here passes
 * an absent value, so both versions report the same messages.
 */
module Validation {
  import opened Js

  /** The yup string tests the controllers use, each with its message. */
  datatype Rule =
    | Required(message: string)                  // `.required(msg)`
    | Email(message: string)                     // `.email(msg)`, checked by an e-mail predicate
    | Min(length: nat, message: string)          // `.min(n, msg)`
    | OneOf(allowed: seq<string>, message: string) // `.oneOf([...], msg)`

  /**
   * Whether a value passes a rule. Only `Required` rejects an absent value
   * (and the empty string); the other tests skip an absent value, and the
   * e-mail test also skips the empty string. `min` compares the JavaScript
   * length, in UTF-16 code units.
   */
  predicate Passes(rule: Rule, v: Option<string>, isEmail: string -> bool)
    ensures v.None? ==> (Passes(rule, v, isEmail) <==> !rule.Required?)
    ensures rule.Required? ==> (Passes(rule, v, isEmail) <==> Truthy(v))
    ensures rule.Min? && v.Some? && |v.value| >= rule.length ==> Passes(rule, v, isEmail)
  {
    match rule
    case Required(_) => Truthy(v)
    case Email(_) => !Truthy(v) || isEmail(v.value)
    case Min(n, _) => v.None? || Utf16Length(v.value) >= n
    case OneOf(allowed, _) => v.None? || v.value in allowed
  }

  /** One body field and the rules the schema attaches to it. */
  datatype Field = Field(value: Option<string>, rules: seq<Rule>)

  /** The messages of every rule `v` fails, in rule order. */
  function FailedMessages(v: Option<string>, rules: seq<Rule>, isEmail: string -> bool): (r: seq<string>)
  {
    if rules == [] then []
    else (if Passes(rules[0], v, isEmail) then [] else [rules[0].message]) + FailedMessages(v, rules[1..], isEmail)
  }

  /** Whether `rule` fails among a field's initial tests: `required` on an absent value, or a failed `oneOf`. */
  predicate FailsInitially(rule: Rule, v: Option<string>, isEmail: string -> bool) {
    (rule.Required? && v.None?) || (rule.OneOf? && !Passes(rule, v, isEmail))
  }

  /** The messages of the initial tests `v` fails, in rule order. */
  function InitialErrors(v: Option<string>, rules: seq<Rule>, isEmail: string -> bool): (r: seq<string>)
  {
    if rules == [] then []
    else (if FailsInitially(rules[0], v, isEmail) then [rules[0].message] else []) + InitialErrors(v, rules[1..], isEmail)
  }

  /**
   * The messages yup reports for one field: the initial failures when there
   * are any, otherwise every failed rule (a passing `oneOf` adds nothing).
   */
  function RuleErrors(v: Option<string>, rules: seq<Rule>, isEmail: string -> bool): (r: seq<string>)
  {
    var initial := InitialErrors(v, rules, isEmail);
    if initial != [] then initial else FailedMessages(v, rules, isEmail)
  }

  /** How many rules the schema holds, over all its fields. */
  function RuleCount(fields: seq<Field>): nat {
    if fields == [] then 0 else |fields[0].rules| + RuleCount(fields[1..])
  }

  /** The messages yup reports for a schema, field by field. */
  function Errors(fields: seq<Field>, isEmail: string -> bool): (r: seq<string>)
  {
    if fields == [] then []
    else RuleErrors(fields[0].value, fields[0].rules, isEmail) + Errors(fields[1..], isEmail)
  }

  /** The schema accepts the body: every rule of every field passes. */
  ghost predicate Accepts(fields: seq<Field>, isEmail: string -> bool) {
    forall i, j :: 0 <= i < |fields| && 0 <= j < |fields[i].rules| ==>
      Passes(fields[i].rules[j], fields[i].value, isEmail)
  }

  /** Whether a failed rule of a field is reported: it failed initially, or no rule of its field did. */
  predicate Reported(rules: seq<Rule>, j: nat, v: Option<string>, isEmail: string -> bool)
    requires j < |rules|
  {
    FailsInitially(rules[j], v, isEmail) || forall k :: 0 <= k < |rules| ==> !FailsInitially(rules[k], v, isEmail)
  }

  lemma {:induction false} FailedMessagesEmptyIff(v: Option<string>, rules: seq<Rule>, isEmail: string -> bool)
    ensures FailedMessages(v, rules, isEmail) == [] <==> forall j :: 0 <= j < |rules| ==> Passes(rules[j], v, isEmail)
  {
    if rules != [] {
      FailedMessagesEmptyIff(v, rules[1..], isEmail);
      assert forall j :: 1 <= j < |rules| ==> rules[j] == rules[1..][j - 1];
    }
  }

  lemma {:induction false} InitialErrorsEmptyIff(v: Option<string>, rules: seq<Rule>, isEmail: string -> bool)
    ensures InitialErrors(v, rules, isEmail) == [] <==> forall j :: 0 <= j < |rules| ==> !FailsInitially(rules[j], v, isEmail)
  {
    if rules != [] {
      InitialErrorsEmptyIff(v, rules[1..], isEmail);
      assert forall j :: 1 <= j < |rules| ==> rules[j] == rules[1..][j - 1];
    }
  }

  lemma {:induction false} FailedMessagesBound(v: Option<string>, rules: seq<Rule>, isEmail: string -> bool)
    ensures |FailedMessages(v, rules, isEmail)| <= |rules|
  {
    if rules != [] {
      FailedMessagesBound(v, rules[1..], isEmail);
    }
  }

  lemma {:induction false} InitialErrorsBound(v: Option<string>, rules: seq<Rule>, isEmail: string -> bool)
    ensures |InitialErrors(v, rules, isEmail)| <= |rules|
  {
    if rules != [] {
      InitialErrorsBound(v, rules[1..], isEmail);
    }
  }

  /** A schema reports at most one message per rule. */
  lemma {:induction false} ErrorsBound(fields: seq<Field>, isEmail: string -> bool)
    ensures |Errors(fields, isEmail)| <= RuleCount(fields)
  {
    if fields != [] {
      FailedMessagesBound(fields[0].value, fields[0].rules, isEmail);
      InitialErrorsBound(fields[0].value, fields[0].rules, isEmail);
      ErrorsBound(fields[1..], isEmail);
    }
  }

  /** A field reports no message exactly when every rule attached to it passes. */
  lemma RuleErrorsEmptyIff(v: Option<string>, rules: seq<Rule>, isEmail: string -> bool)
    ensures RuleErrors(v, rules, isEmail) == [] <==> forall j :: 0 <= j < |rules| ==> Passes(rules[j], v, isEmail)
  {
    InitialErrorsEmptyIff(v, rules, isEmail);
    FailedMessagesEmptyIff(v, rules, isEmail);
  }

  /** No message is reported exactly when every rule of every field passes. */
  lemma {:induction false} ErrorsEmptyIffAccepted(fields: seq<Field>, isEmail: string -> bool)
    ensures Errors(fields, isEmail) == [] <==> Accepts(fields, isEmail)
  {
    if fields != [] {
      RuleErrorsEmptyIff(fields[0].value, fields[0].rules, isEmail);
      ErrorsEmptyIffAccepted(fields[1..], isEmail);
      assert forall i :: 1 <= i < |fields| ==> fields[i] == fields[1..][i - 1];
    }
  }

  lemma {:induction false} FailedInFailedMessages(v: Option<string>, rules: seq<Rule>, isEmail: string -> bool, j: nat)
    requires j < |rules| && !Passes(rules[j], v, isEmail)
    ensures rules[j].message in FailedMessages(v, rules, isEmail)
  {
    if j > 0 {
      FailedInFailedMessages(v, rules[1..], isEmail, j - 1);
    }
  }

  lemma {:induction false} InitialFailureInInitialErrors(v: Option<string>, rules: seq<Rule>, isEmail: string -> bool, j: nat)
    requires j < |rules| && FailsInitially(rules[j], v, isEmail)
    ensures rules[j].message in InitialErrors(v, rules, isEmail)
  {
    if j > 0 {
      InitialFailureInInitialErrors(v, rules[1..], isEmail, j - 1);
    }
  }

  /** The message of a failed rule is among its field's messages unless another initial test skipped it. */
  lemma FailedRuleInRuleErrors(v: Option<string>, rules: seq<Rule>, isEmail: string -> bool, j: nat)
    requires j < |rules| && !Passes(rules[j], v, isEmail) && Reported(rules, j, v, isEmail)
    ensures rules[j].message in RuleErrors(v, rules, isEmail)
  {
    InitialErrorsEmptyIff(v, rules, isEmail);
    if FailsInitially(rules[j], v, isEmail) {
      InitialFailureInInitialErrors(v, rules, isEmail, j);
    } else {
      FailedInFailedMessages(v, rules, isEmail, j);
    }
  }

  /**
   * With `abortEarly: false` every field is validated: the message of every
   * failed rule is in `details`, unless its field failed another initial test.
   */
  lemma {:induction false} EveryFailureReported(fields: seq<Field>, isEmail: string -> bool, i: nat, j: nat)
    requires i < |fields| && j < |fields[i].rules|
    requires !Passes(fields[i].rules[j], fields[i].value, isEmail)
    requires Reported(fields[i].rules, j, fields[i].value, isEmail)
    ensures fields[i].rules[j].message in Errors(fields, isEmail)
  {
    if i == 0 {
      FailedRuleInRuleErrors(fields[0].value, fields[0].rules, isEmail, j);
    } else {
      EveryFailureReported(fields[1..], isEmail, i - 1, j);
    }
  }

  /** A field whose `oneOf`, if it has one, is its only rule. */
  predicate OneOfAlone(rules: seq<Rule>) {
    |rules| <= 1 || forall k :: 0 <= k < |rules| ==> !rules[k].OneOf?
  }

  /** In a field whose `oneOf` stands alone no failed rule is skipped. */
  lemma ReportedWhenOneOfAlone(rules: seq<Rule>, j: nat, v: Option<string>, isEmail: string -> bool)
    requires j < |rules| && OneOfAlone(rules) && !Passes(rules[j], v, isEmail)
    ensures Reported(rules, j, v, isEmail)
  {
    if !FailsInitially(rules[j], v, isEmail) {
      assert v.Some?;
      if |rules| <= 1 {
        assert j == 0 && |rules| == 1;
      }
    }
  }

  /** When every field's `oneOf` stands alone, the message of every failed rule is in `details`. */
  lemma EveryFailureReportedWhenOneOfAlone(fields: seq<Field>, isEmail: string -> bool, i: nat, j: nat)
    requires i < |fields| && j < |fields[i].rules| && OneOfAlone(fields[i].rules)
    requires !Passes(fields[i].rules[j], fields[i].value, isEmail)
    ensures fields[i].rules[j].message in Errors(fields, isEmail)
  {
    ReportedWhenOneOfAlone(fields[i].rules, j, fields[i].value, isEmail);
    EveryFailureReported(fields, isEmail, i, j);
  }

  lemma {:induction false} FailedMessagesFromFailures(v: Option<string>, rules: seq<Rule>, isEmail: string -> bool, m: string)
    requires m in FailedMessages(v, rules, isEmail)
    ensures exists j :: 0 <= j < |rules| && !Passes(rules[j], v, isEmail) && rules[j].message == m
  {
    if rules[0].message == m && !Passes(rules[0], v, isEmail) {
      assert 0 < |rules|;
    } else {
      FailedMessagesFromFailures(v, rules[1..], isEmail, m);
      var j :| 0 <= j < |rules[1..]| && !Passes(rules[1..][j], v, isEmail) && rules[1..][j].message == m;
      assert rules[j + 1] == rules[1..][j];
    }
  }

  lemma {:induction false} InitialErrorsFromFailures(v: Option<string>, rules: seq<Rule>, isEmail: string -> bool, m: string)
    requires m in InitialErrors(v, rules, isEmail)
    ensures exists j :: 0 <= j < |rules| && FailsInitially(rules[j], v, isEmail) && rules[j].message == m
  {
    if rules[0].message == m && FailsInitially(rules[0], v, isEmail) {
      assert 0 < |rules|;
    } else {
      InitialErrorsFromFailures(v, rules[1..], isEmail, m);
      var j :| 0 <= j < |rules[1..]| && FailsInitially(rules[1..][j], v, isEmail) && rules[1..][j].message == m;
      assert rules[j + 1] == rules[1..][j];
    }
  }

  /** Every message of a field comes from a failed rule that was not skipped. */
  lemma RuleErrorsFromFailures(v: Option<string>, rules: seq<Rule>, isEmail: string -> bool, m: string)
    requires m in RuleErrors(v, rules, isEmail)
    ensures exists j :: 0 <= j < |rules| && !Passes(rules[j], v, isEmail) && Reported(rules, j, v, isEmail)
                        && rules[j].message == m
  {
    InitialErrorsEmptyIff(v, rules, isEmail);
    if InitialErrors(v, rules, isEmail) != [] {
      InitialErrorsFromFailures(v, rules, isEmail, m);
      var j :| 0 <= j < |rules| && FailsInitially(rules[j], v, isEmail) && rules[j].message == m;
      assert Reported(rules, j, v, isEmail);
    } else {
      FailedMessagesFromFailures(v, rules, isEmail, m);
      var j :| 0 <= j < |rules| && !Passes(rules[j], v, isEmail) && rules[j].message == m;
      assert Reported(rules, j, v, isEmail);
    }
  }

  /** Every reported message is the message of a failed rule that was not skipped. */
  lemma {:induction false} OnlyFailuresReported(fields: seq<Field>, isEmail: string -> bool, m: string)
    requires m in Errors(fields, isEmail)
    ensures exists i, j ::
              && 0 <= i < |fields| && 0 <= j < |fields[i].rules|
              && !Passes(fields[i].rules[j], fields[i].value, isEmail)
              && Reported(fields[i].rules, j, fields[i].value, isEmail) && fields[i].rules[j].message == m
  {
    if m in RuleErrors(fields[0].value, fields[0].rules, isEmail) {
      RuleErrorsFromFailures(fields[0].value, fields[0].rules, isEmail, m);
      var j :| 0 <= j < |fields[0].rules| && !Passes(fields[0].rules[j], fields[0].value, isEmail)
        && Reported(fields[0].rules, j, fields[0].value, isEmail) && fields[0].rules[j].message == m;
      assert 0 < |fields|;
    } else {
      OnlyFailuresReported(fields[1..], isEmail, m);
      var i, j :| 0 <= i < |fields[1..]| && 0 <= j < |fields[1..][i].rules|
        && !Passes(fields[1..][i].rules[j], fields[1..][i].value, isEmail)
        && Reported(fields[1..][i].rules, j, fields[1..][i].value, isEmail) && fields[1..][i].rules[j].message == m;
      assert fields[i + 1] == fields[1..][i];
    }
  }

  /** One step of `Errors`, at any position: the messages of field `i`, then those of the rest. */
  lemma ErrorsAt(fields: seq<Field>, i: nat, isEmail: string -> bool)
    requires i < |fields|
    ensures Errors(fields[i..], isEmail) == RuleErrors(fields[i].value, fields[i].rules, isEmail) + Errors(fields[i + 1..], isEmail)
  {
    assert fields[i..][1..] == fields[i + 1..];
  }

  /** The initial failures and all failures of a field with at most two rules, spelled out. */
  lemma SplitOfTwo(v: Option<string>, rules: seq<Rule>, isEmail: string -> bool)
    requires |rules| <= 2
    ensures InitialErrors(v, rules, isEmail) ==
      (if |rules| > 0 && FailsInitially(rules[0], v, isEmail) then [rules[0].message] else []) +
      (if |rules| > 1 && FailsInitially(rules[1], v, isEmail) then [rules[1].message] else [])
    ensures FailedMessages(v, rules, isEmail) ==
      (if |rules| > 0 && !Passes(rules[0], v, isEmail) then [rules[0].message] else []) +
      (if |rules| > 1 && !Passes(rules[1], v, isEmail) then [rules[1].message] else [])
  {
    if |rules| > 0 {
      assert |rules[1..]| <= 1;
      if |rules| > 1 {
        assert rules[1..][0] == rules[1] && rules[1..][1..] == [];
      } else {
        assert rules[1..] == [];
      }
    }
  }

  /** The messages of a field with at most two rules, spelled out. */
  lemma RuleErrorsOfTwo(v: Option<string>, rules: seq<Rule>, isEmail: string -> bool)
    requires |rules| <= 2
    ensures var initial :=
        (if |rules| > 0 && FailsInitially(rules[0], v, isEmail) then [rules[0].message] else []) +
        (if |rules| > 1 && FailsInitially(rules[1], v, isEmail) then [rules[1].message] else []);
      RuleErrors(v, rules, isEmail) ==
        if initial != [] then initial
        else (if |rules| > 0 && !Passes(rules[0], v, isEmail) then [rules[0].message] else []) +
             (if |rules| > 1 && !Passes(rules[1], v, isEmail) then [rules[1].message] else [])
  {
    SplitOfTwo(v, rules, isEmail);
  }

  /** The messages of a five-field schema, field by field. */
  lemma ErrorsOfFive(fields: seq<Field>, isEmail: string -> bool)
    requires |fields| == 5
    ensures Errors(fields, isEmail) ==
      RuleErrors(fields[0].value, fields[0].rules, isEmail) + (RuleErrors(fields[1].value, fields[1].rules, isEmail) +
      (RuleErrors(fields[2].value, fields[2].rules, isEmail) + (RuleErrors(fields[3].value, fields[3].rules, isEmail) +
      RuleErrors(fields[4].value, fields[4].rules, isEmail))))
  {
    assert fields[0..] == fields;
    ErrorsAt(fields, 0, isEmail);
    ErrorsAt(fields, 1, isEmail);
    ErrorsAt(fields, 2, isEmail);
    ErrorsAt(fields, 3, isEmail);
    ErrorsAt(fields, 4, isEmail);
    assert Errors(fields[5..], isEmail) == [] by { assert fields[5..] == []; }
    assert Errors(fields[4..], isEmail) == RuleErrors(fields[4].value, fields[4].rules, isEmail);
  }
}
