/** `downgradeErrorsToWarnings` of the lint configuration: every rule set to
    severity `'error'` (alone or at the head of an options array) is set to
    `'warn'`; everything else is copied. */
module EslintConfig {
  import opened Common

  /** One entry of a config's `rules` object, in `Object.entries` order. */
  datatype Rule = Rule(id: string, value: Json)

  /** A flat config: its `rules` (`None` when absent or falsy) and every other
      field. */
  datatype Config = Config(rules: Option<seq<Rule>>, other: map<string, Json>)

  const Error := JStr("error")
  const Warn := JStr("warn")

  /** A rule value that turns the rule on as an error. */
  predicate IsErrorSeverity(v: Json) {
    v == Error || (v.JArr? && |v.elems| > 0 && v.elems[0] == Error)
  }

  /** The rewrite of one rule value (the branches of the loop body). */
  function DowngradeValue(v: Json): (r: Json)
    ensures !IsErrorSeverity(r)
    ensures !IsErrorSeverity(v) ==> r == v
    ensures v.JArr? <==> r.JArr?
    ensures v.JArr? && IsErrorSeverity(v) ==> |r.elems| == |v.elems| && r.elems[0] == Warn && r.elems[1..] == v.elems[1..]
    ensures v.JStr? && IsErrorSeverity(v) ==> r == Warn
  {
    if v == Error then Warn
    else if v.JArr? && |v.elems| > 0 && v.elems[0] == Error then JArr([Warn] + v.elems[1..])
    else v
  }

  /** The `for` loop that builds `newRules` key by key. */
  method DowngradeRules(rules: seq<Rule>) returns (newRules: seq<Rule>)
    ensures |newRules| == |rules|
    ensures forall k :: 0 <= k < |rules| ==> newRules[k].id == rules[k].id
    ensures forall k :: 0 <= k < |rules| ==> newRules[k].value == DowngradeValue(rules[k].value)
    ensures newRules == DowngradedRules(rules)
  {
    newRules := [];
    var i := 0;
    while i < |rules|
      invariant 0 <= i <= |rules|
      invariant |newRules| == i
      invariant forall k :: 0 <= k < i ==> newRules[k] == Rule(rules[k].id, DowngradeValue(rules[k].value))
    {
      var value := rules[i].value;
      var newValue: Json;
      if value == Error {
        newValue := Warn;
      } else if value.JArr? && |value.elems| > 0 && value.elems[0] == Error {
        newValue := JArr([Warn] + value.elems[1..]);
      } else {
        newValue := value;
      }
      newRules := newRules + [Rule(rules[i].id, newValue)];
      i := i + 1;
    }
  }

  /** The rules the loop builds, as a value. */
  function DowngradedRules(rules: seq<Rule>): seq<Rule> {
    seq(|rules|, k requires 0 <= k < |rules| => Rule(rules[k].id, DowngradeValue(rules[k].value)))
  }

  /** One config: returned as is without rules, otherwise spread with new rules. */
  function DowngradeConfig(c: Config): Config {
    if c.rules.None? then c else Config(Some(DowngradedRules(c.rules.value)), c.other)
  }

  /** `downgradeErrorsToWarnings`: the configs mapped one by one. */
  function DowngradeErrorsToWarnings(configs: seq<Config>): seq<Config> {
    seq(|configs|, i requires 0 <= i < |configs| => DowngradeConfig(configs[i]))
  }

  /** No rule of a config is on as an error. */
  predicate NoErrorRules(c: Config) {
    c.rules.Some? ==> forall k :: 0 <= k < |c.rules.value| ==> !IsErrorSeverity(c.rules.value[k].value)
  }

  /** Rule ids, in order. */
  function RuleIds(rules: seq<Rule>): seq<string> {
    seq(|rules|, k requires 0 <= k < |rules| => rules[k].id)
  }

  /** One output config per input config; a config without rules is kept as
      is; the other fields and the rule ids (in order) are kept; no rule is
      left at `'error'`; rules not at `'error'` keep their value, numeric
      severities included. */
  lemma DowngradeSpec(configs: seq<Config>)
    ensures |DowngradeErrorsToWarnings(configs)| == |configs|
    ensures forall i :: 0 <= i < |configs| ==>
              var c, d := configs[i], DowngradeErrorsToWarnings(configs)[i];
              && (c.rules.None? ==> d == c)
              && d.other == c.other
              && d.rules.Some? == c.rules.Some?
              && (c.rules.Some? ==> RuleIds(d.rules.value) == RuleIds(c.rules.value))
              && (c.rules.Some? ==> forall k :: 0 <= k < |c.rules.value| && !IsErrorSeverity(c.rules.value[k].value) ==>
                                      d.rules.value[k] == c.rules.value[k])
              && NoErrorRules(d)
  {
  }

  /** Downgrading twice is downgrading once. */
  lemma {:induction false} DowngradeIdempotent(configs: seq<Config>)
    ensures DowngradeErrorsToWarnings(DowngradeErrorsToWarnings(configs)) == DowngradeErrorsToWarnings(configs)
  {
    var once := DowngradeErrorsToWarnings(configs);
    forall i | 0 <= i < |configs|
      ensures DowngradeConfig(once[i]) == once[i]
    {
      var c := once[i];
      if c.rules.Some? {
        var rs := c.rules.value;
        assert DowngradedRules(rs) == rs;
      }
    }
  }
}
