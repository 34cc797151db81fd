/**
 * Construction of the linter's rule map from the rules a user switched on
 * (`createJsonRuleMap`): every rule the linter knows gets an entry, enabled
 * exactly when the user chose it, carrying the user's value.
 */
module Helpers {
  import opened Wrappers

  /** A rule the user switched on, with the value they chose for it. */
  datatype RuleNameWithValue = RuleNameWithValue(ruleName: string, value: string)

  /** The linter's per-rule configuration. */
  datatype LinterConfig = LinterConfig(
    identifierFormat: string,
    restrictPrintlnToIdentifierOrLiteral: bool,
    restrictReadInputToIdentifierOrLiteral: bool)

  /** `userRules.find { it.ruleName == name }`: the first user rule with that name, if any. */
  function FindRule(userRules: seq<RuleNameWithValue>, name: string): (r: Option<RuleNameWithValue>)
    ensures r.None? <==> forall i :: 0 <= i < |userRules| ==> userRules[i].ruleName != name
    ensures r.Some? ==> r.value.ruleName == name
    ensures r.Some? ==> exists i :: 0 <= i < |userRules| && userRules[i] == r.value &&
                          forall j :: 0 <= j < i ==> userRules[j].ruleName != name
  {
    if userRules == [] then None
    else if userRules[0].ruleName == name then Some(userRules[0])
    else
      var r := FindRule(userRules[1..], name);
      assert r.Some? ==> (exists i :: 0 <= i < |userRules| && userRules[i] == r.value &&
                            forall j :: 0 <= j < i ==> userRules[j].ruleName != name) by {
        if r.Some? {
          var k :| 0 <= k < |userRules[1..]| && userRules[1..][k] == r.value &&
            forall j :: 0 <= j < k ==> userRules[1..][j].ruleName != name;
          assert userRules[k + 1] == r.value;
          assert forall j :: 0 <= j < k + 1 ==> userRules[j].ruleName != name by {
            forall j | 0 <= j < k + 1 ensures userRules[j].ruleName != name {
              if j > 0 { assert userRules[j] == userRules[1..][j - 1]; }
            }
          }
        }
      }
      r
  }

  /** The value `associateWith` computes for one rule name. */
  function ConfigFor(userRules: seq<RuleNameWithValue>, rule: string): (c: LinterConfig)
    ensures c.restrictReadInputToIdentifierOrLiteral == c.restrictPrintlnToIdentifierOrLiteral
    ensures c.restrictPrintlnToIdentifierOrLiteral <==>
              exists i :: 0 <= i < |userRules| && userRules[i].ruleName == rule
    ensures !c.restrictPrintlnToIdentifierOrLiteral ==> c.identifierFormat == ""
  {
    var userRule := FindRule(userRules, rule);
    var isEnabled := userRule.Some?;
    LinterConfig(
      if userRule.Some? then userRule.value.value else "",
      isEnabled,
      isEnabled)
  }

  /**
   * `defaultRules.associateWith { ... }`: the rules are visited in order and
   * each one's entry is (re)written, so a repeated name keeps one entry.
   */
  function CreateJsonRuleMap(userRules: seq<RuleNameWithValue>, defaultRules: seq<string>): (m: map<string, LinterConfig>)
    ensures m.Keys == set rule | rule in defaultRules
    ensures forall rule :: rule in m ==> m[rule] == ConfigFor(userRules, rule)
    decreases |defaultRules|
  {
    if defaultRules == [] then map[]
    else
      var earlier := defaultRules[..|defaultRules| - 1];
      var rule := defaultRules[|defaultRules| - 1];
      assert defaultRules == earlier + [rule];
      assert (set r | r in defaultRules) == (set r | r in earlier) + {rule};
      CreateJsonRuleMap(userRules, earlier)[rule := ConfigFor(userRules, rule)]
  }

  /** A user rule whose name the linter does not know never reaches the map. */
  lemma UnknownUserRulesDropped(userRules: seq<RuleNameWithValue>, defaultRules: seq<string>, i: nat)
    requires i < |userRules| && userRules[i].ruleName !in defaultRules
    ensures userRules[i].ruleName !in CreateJsonRuleMap(userRules, defaultRules)
  {
  }

  /** An entry is enabled iff some user rule carries its name, and both flags agree. */
  lemma RuleEnabledIffChosen(userRules: seq<RuleNameWithValue>, defaultRules: seq<string>, rule: string)
    requires rule in defaultRules
    ensures rule in CreateJsonRuleMap(userRules, defaultRules)
    ensures var c := CreateJsonRuleMap(userRules, defaultRules)[rule];
      && (c.restrictPrintlnToIdentifierOrLiteral <==> exists i :: 0 <= i < |userRules| && userRules[i].ruleName == rule)
      && c.restrictReadInputToIdentifierOrLiteral == c.restrictPrintlnToIdentifierOrLiteral
  {
  }

  /** The identifier format is the value of the FIRST user rule with the entry's name. */
  lemma IdentifierFormatFromFirstMatch(userRules: seq<RuleNameWithValue>, defaultRules: seq<string>, i: nat)
    requires i < |userRules| && userRules[i].ruleName in defaultRules
    requires forall j :: 0 <= j < i ==> userRules[j].ruleName != userRules[i].ruleName
    ensures CreateJsonRuleMap(userRules, defaultRules)[userRules[i].ruleName].identifierFormat == userRules[i].value
  {
    var name := userRules[i].ruleName;
    var r := FindRule(userRules, name);
    var k :| 0 <= k < |userRules| && userRules[k] == r.value &&
      forall j :: 0 <= j < k ==> userRules[j].ruleName != name;
    assert k == i;
  }

  /** With no user rules every known rule is present and disabled, with an empty format. */
  lemma NoUserRulesAllDisabled(defaultRules: seq<string>, rule: string)
    requires rule in defaultRules
    ensures CreateJsonRuleMap([], defaultRules)[rule] == LinterConfig("", false, false)
  {
  }

  /**
   * The map depends only on the SET of known rule names: reordering them or
   * repeating one does not change it.
   */
  lemma RuleMapDependsOnNamesOnly(userRules: seq<RuleNameWithValue>, rules1: seq<string>, rules2: seq<string>)
    requires forall rule :: rule in rules1 <==> rule in rules2
    ensures CreateJsonRuleMap(userRules, rules1) == CreateJsonRuleMap(userRules, rules2)
  {
    var m1 := CreateJsonRuleMap(userRules, rules1);
    var m2 := CreateJsonRuleMap(userRules, rules2);
    assert m1.Keys == m2.Keys;
  }

  /** The example the repository's tests check. */
  lemma TwoRulesOneChosen()
    ensures var m := CreateJsonRuleMap([RuleNameWithValue("rule1", "val1")], ["rule1", "rule2"]);
      && m.Keys == {"rule1", "rule2"}
      && m["rule1"] == LinterConfig("val1", true, true)
      && m["rule2"] == LinterConfig("", false, false)
  {
    var u := [RuleNameWithValue("rule1", "val1")];
    assert u[0].ruleName == "rule1";
    assert u[0].ruleName != "rule2";
  }
}
