/** Risk classes and policy presets of src/claim_plane/policy.py. Paths are normalised, and
    glob matching is an arbitrary relation. */
module Policy {

  datatype RiskLevel = Low | Medium | High | Critical {
    function Strength(): nat { match this case Low => 0 case Medium => 1 case High => 2 case Critical => 3 }
  }

  datatype Action = Allow | Report | ReviewRequired | Deny {
    function Strength(): nat { match this case Allow => 0 case Report => 1 case ReviewRequired => 2 case Deny => 3 }
  }

  datatype Preset = Observe | Guarded | Strict | HumanGated

  /** `PolicyPreset.named(...).risk_actions`; `HumanGated` is the preset called critical. */
  function ActionFor(p: Preset, level: RiskLevel): Action {
    match p
    case Observe => Report
    case Guarded => if level.Low? || level.Medium? then Allow else ReviewRequired
    case Strict => if level.Low? || level.Medium? then Allow else if level.High? then ReviewRequired else Deny
    case HumanGated => if level.Critical? then Deny else ReviewRequired
  }

  datatype Rule = Rule(pattern: string, level: RiskLevel)

  /** `_DEFAULT_RISK_RULES` */
  const BUILTIN := [
    Rule(".github/workflows/**", Critical), Rule("migrations/**", Critical), Rule("**/migrations/**", Critical),
    Rule(".env", Critical), Rule(".env.*", Critical), Rule("**/*.pem", Critical), Rule("**/*.key", Critical),
    Rule("CODEOWNERS", High), Rule(".github/CODEOWNERS", High), Rule("pyproject.toml", High),
    Rule("package.json", High), Rule("Cargo.toml", High), Rule("go.mod", High), Rule("Dockerfile", High),
    Rule("docker-compose*.yml", High), Rule("compose*.yaml", High)]

  datatype RiskPolicy = RiskPolicy(default: RiskLevel, rules: seq<Rule>, includeBuiltin: bool) {
    function AllRules(): seq<Rule> { (if includeBuiltin then BUILTIN else []) + rules }
  }

  type Glob = (string, string) -> bool

  function Matching(rules: seq<Rule>, path: string, glob: Glob): seq<Rule> {
    if rules == [] then []
    else (if glob(path, rules[0].pattern) then [rules[0]] else []) + Matching(rules[1..], path, glob)
  }

  function Strongest(rules: seq<Rule>): RiskLevel
    requires rules != []
  {
    if |rules| == 1 then rules[0].level
    else
      var rest := Strongest(rules[1..]);
      if rules[0].level.Strength() >= rest.Strength() then rules[0].level else rest
  }

  /** `EffectivePolicy.classify`: the level of a path. */
  function LevelOf(risk: RiskPolicy, path: string, glob: Glob): RiskLevel {
    var matches := Matching(risk.AllRules(), path, glob);
    if matches == [] then risk.default else Strongest(matches)
  }

  /** The final action of `classify_many`. The human gate comes first, even before DENY. */
  function FinalAction(p: Preset, actions: set<Action>): Action {
    if p == HumanGated then ReviewRequired
    else if Deny in actions then Deny
    else if ReviewRequired in actions then ReviewRequired
    else if Report in actions then Report
    else Allow
  }

  function ActionsOf(p: Preset, risk: RiskPolicy, paths: seq<string>, glob: Glob): set<Action> {
    set path | path in paths :: ActionFor(p, LevelOf(risk, path, glob))
  }

  function ClassifyMany(p: Preset, risk: RiskPolicy, paths: seq<string>, glob: Glob): Action {
    FinalAction(p, ActionsOf(p, risk, paths, glob))
  }

  // ----- what it means -----

  lemma {:induction false} MatchingIs(rules: seq<Rule>, path: string, glob: Glob)
    ensures forall r :: r in Matching(rules, path, glob) <==> r in rules && glob(path, r.pattern)
  {
    if rules != [] {
      MatchingIs(rules[1..], path, glob);
      assert rules == [rules[0]] + rules[1..];
    }
  }

  lemma {:induction false} StrongestIs(rules: seq<Rule>)
    requires rules != []
    ensures forall r :: r in rules ==> r.level.Strength() <= Strongest(rules).Strength()
    ensures exists r :: r in rules && r.level == Strongest(rules)
  {
    assert rules == [rules[0]] + rules[1..];
    if |rules| > 1 { StrongestIs(rules[1..]); } else { assert rules[0] in rules; }
  }

  /** A path has the level of its strongest matching rule; only without any match does the
      default count, so a project rule can also lower a path below the default. */
  lemma LevelIsStrongestMatch(risk: RiskPolicy, path: string, glob: Glob)
    ensures var level, rules := LevelOf(risk, path, glob), risk.AllRules();
            && (forall r :: r in rules && glob(path, r.pattern) ==> r.level.Strength() <= level.Strength())
            && ((exists r :: r in rules && glob(path, r.pattern) && r.level == level)
                || (level == risk.default && forall r :: r in rules ==> !glob(path, r.pattern)))
  {
    var rules := risk.AllRules();
    var matches := Matching(rules, path, glob);
    MatchingIs(rules, path, glob);
    if matches != [] { StrongestIs(matches); }
    assert matches == [] ==> forall r :: r in rules ==> !glob(path, r.pattern);
  }

  /** No project rule takes a path below a built-in rule that matches it. */
  lemma BuiltinIsFloor(risk: RiskPolicy, path: string, glob: Glob, r: Rule)
    requires risk.includeBuiltin && r in BUILTIN && glob(path, r.pattern)
    ensures r.level.Strength() <= LevelOf(risk, path, glob).Strength()
  {
    LevelIsStrongestMatch(risk, path, glob);
    assert r in risk.AllRules();
  }

  /** Without the human gate the final action is the strongest of all. */
  lemma FinalActionIsStrongest(p: Preset, actions: set<Action>)
    requires p != HumanGated
    ensures forall a :: a in actions ==> a.Strength() <= FinalAction(p, actions).Strength()
    ensures FinalAction(p, actions) in actions + {Allow}
  {
  }

  predicate Clears(a: Action) { a != Deny && a != ReviewRequired }

  /** When a change may count as delivered: never under the human gate, always in observe mode,
      and otherwise exactly when no changed path is of high or critical risk. */
  lemma ClearedExactlyWhen(p: Preset, risk: RiskPolicy, paths: seq<string>, glob: Glob)
    ensures Clears(ClassifyMany(p, risk, paths, glob)) <==>
              match p
              case Observe => true
              case HumanGated => false
              case _ => forall path :: path in paths ==> LevelOf(risk, path, glob).Strength() < High.Strength()
  {
    hide LevelOf;
    forall path | path in paths ensures ActionFor(p, LevelOf(risk, path, glob)) in ActionsOf(p, risk, paths, glob) {
    }
  }
}
