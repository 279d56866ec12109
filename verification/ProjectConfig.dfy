/** The normaliser of the project configuration, `_project_config` in src/claim_plane/project.py. */
module ProjectConfig {
  import opened Wrappers
  import opened Json
  import ConfigText

  const CURRENT := "claim-plane.project-config.v1"
  const LEGACY := "claim-plane.project-config.v0"
  const POLICY_NAMES := {"observe", "guarded", "strict", "critical"}
  const LEVELS := {"low", "medium", "high", "critical"}

  /** What the repository and Python say: identity, default branch with its source, detected
      commands, a random id, `str` and `repr` of values that are not strings, truth of float
      literals, and `casefold`. */
  datatype Env = Env(identity: string, branch: string, source: string, detected: seq<string>, randomId: string,
                     text: Value -> string, repr: Value -> string, truth: string -> bool, fold: string -> string)

  /** `cp_[0-9a-f]{24}` */
  predicate IsProjectId(s: string) {
    |s| == 27 && s[..3] == "cp_" && forall i :: 3 <= i < 27 ==> '0' <= s[i] <= '9' || 'a' <= s[i] <= 'f'
  }

  ghost predicate Sound(env: Env) {
    && env.branch != "" && env.source != "" && IsProjectId(env.randomId)
    && (forall v :: env.text(v) != "")
    && forall name :: name in POLICY_NAMES ==> env.fold(name) == name
  }

  // ----- reading a mapping -----

  function Get(fields: seq<Field<Value>>, key: string): Option<Value> {
    if fields == [] then None
    else if fields[0].key == key then Some(fields[0].value)
    else Get(fields[1..], key)
  }

  function Without(fields: seq<Field<Value>>, key: string): seq<Field<Value>> {
    if fields == [] then []
    else (if fields[0].key == key then [] else [fields[0]]) + Without(fields[1..], key)
  }

  /** `bool(value)`, a missing value being None. */
  predicate Truthy(env: Env, v: Option<Value>) {
    v.Some? &&
    match v.value
    case Null => false
    case Bool(b) => b
    case Int(n) => n != 0
    case Float(literal) => env.truth(literal)
    case Str(s) => s != ""
    case List(items) => items != []
    case Obj(fields) => fields != []
  }

  /** `str(value or default)` */
  function TextOr(env: Env, v: Option<Value>, default: string): string {
    if !Truthy(env, v) then default
    else if v.value.Str? then v.value.s
    else env.text(v.value)
  }

  /** `dict(value or {})`; None for a value that is no mapping. */
  function Section(env: Env, fields: seq<Field<Value>>, key: string): Option<seq<Field<Value>>> {
    var v := Get(fields, key);
    if !Truthy(env, v) then Some([])
    else if v.value.Obj? then Some(v.value.fields)
    else None
  }

  // ----- the parts -----

  predicate AllTexts(items: seq<Value>) { forall i :: 0 <= i < |items| ==> items[i].Str? }

  function Texts(items: seq<string>): (r: seq<Value>)
    ensures AllTexts(r)
  {
    seq(|items|, i requires 0 <= i < |items| => Str(items[i]))
  }

  function Commands(env: Env, acceptance: seq<Field<Value>>): seq<Value> {
    var v := Get(acceptance, "commands");
    if v.Some? && v.value.List? && AllTexts(v.value.items) then v.value.items else Texts(env.detected)
  }

  function ProjectId(env: Env, project: seq<Field<Value>>): string {
    var v := Get(project, "id");
    if v.Some? && v.value.Str? && IsProjectId(v.value.s) then v.value.s else env.randomId
  }

  /** `RiskRule.from_dict`, as it is stored again; None for a blank text or an unknown level. */
  function Rule(env: Env, item: Value): Option<Value> {
    if !item.Obj? then None
    else
      var pattern := ConfigText.Strip(TextOr(env, Get(item.fields, "match"), ""));
      var level := TextOr(env, Get(item.fields, "level"), "");
      var shown := match Get(item.fields, "match") case None => env.repr(Null) case Some(v) => env.repr(v);
      var reason := ConfigText.Strip(TextOr(env, Get(item.fields, "reason"), "matched " + shown));
      var source := ConfigText.Strip(TextOr(env, Get(item.fields, "source"), "project"));
      if pattern == "" || level !in LEVELS || reason == "" || source == "" then None
      else Some(RuleObject(pattern, level, reason))
  }

  function RuleObject(pattern: string, level: string, reason: string): Value {
    Obj([Field("match", Str(pattern)), Field("level", Str(level)), Field("reason", Str(reason))])
  }

  function Rules(env: Env, items: seq<Value>): Option<seq<Value>> {
    if items == [] then Some([])
    else
      match (Rule(env, items[0]), Rules(env, items[1..]))
      case (Some(r), Some(rest)) => Some([r] + rest)
      case _ => None
  }

  /** `RiskPolicy.from_config`, as it is stored again. */
  function Risk(env: Env, risk: seq<Field<Value>>): Option<seq<Field<Value>>> {
    var raw := Get(risk, "rules");
    var items := if !Truthy(env, raw) then Some([]) else if raw.value.List? then Some(raw.value.items) else None;
    var default := TextOr(env, Get(risk, "default"), "medium");
    var builtin := Get(risk, "include_builtin_rules");
    if items.None? || Rules(env, items.value).None? || default !in LEVELS then None
    else Some(RiskFields(default, builtin.None? || Truthy(env, builtin), Rules(env, items.value).value))
  }

  function RiskFields(default: string, builtin: bool, rules: seq<Value>): seq<Field<Value>> {
    [Field("default", Str(default)), Field("include_builtin_rules", Bool(builtin)), Field("rules", List(rules))]
  }

  function Codex(enabled: bool, policy: string): Value {
    Obj([Field("enabled", Bool(enabled)), Field("policy", Str(policy))])
  }

  datatype Parts = Parts(id: string, branch: string, source: string, commands: seq<Value>, others: seq<Field<Value>>,
                         enabled: bool, policy: string, risk: seq<Field<Value>>)

  function PartsOf(env: Env, existing: seq<Field<Value>>): Option<Parts> {
    match (Section(env, existing, "project"), Section(env, existing, "repository"),
           Section(env, existing, "acceptance"),
           Section(env, existing, "adapters"), Section(env, existing, "risk"))
    case (Some(project), Some(repository), Some(acceptance), Some(adapters), Some(risk)) =>
      var codex := Section(env, adapters, "codex");
      if codex.None? then None
      else
        var policy := env.fold(TextOr(env, Get(codex.value, "policy"), "guarded"));
        var rules := Risk(env, risk);
        if policy !in POLICY_NAMES || rules.None? then None
        else Some(Parts(ProjectId(env, project), TextOr(env, Get(repository, "default_branch"), env.branch),
                        TextOr(env, Get(repository, "default_branch_source"), env.source), Commands(env, acceptance),
                        Without(adapters, "codex"), Truthy(env, Get(codex.value, "enabled")), policy, rules.value))
    case _ => None
  }

  function RepositoryFields(identity: string, p: Parts): seq<Field<Value>> {
    [Field("identity", Str(identity)), Field("default_branch", Str(p.branch)),
     Field("default_branch_source", Str(p.source))]
  }

  function AcceptanceFields(p: Parts): seq<Field<Value>> {
    [Field("commands", List(p.commands)), Field("detected", Bool(p.commands != []))]
  }

  function ConfigOf(identity: string, p: Parts): seq<Field<Value>> {
    [Field("protocol", Str(CURRENT)), Field("project", Obj([Field("id", Str(p.id))])),
     Field("repository", Obj(RepositoryFields(identity, p))), Field("acceptance", Obj(AcceptanceFields(p))),
     Field("adapters", Obj(p.others + [Field("codex", Codex(p.enabled, p.policy))])), Field("risk", Obj(p.risk))]
  }

  /** `_project_config`; None where it raises. */
  function Normalise(env: Env, existing: seq<Field<Value>>): Option<seq<Field<Value>>> {
    match PartsOf(env, existing)
    case None => None
    case Some(p) => Some(ConfigOf(env.identity, p))
  }

  /** `_legacy_config_to_current` */
  function FromLegacy(env: Env, payload: seq<Field<Value>>): Option<seq<Field<Value>>> {
    match (Section(env, payload, "project"), Section(env, payload, "repository"), Section(env, payload, "acceptance"),
           Section(env, payload, "codex"), Section(env, payload, "risk"))
    case (Some(project), Some(repository), Some(acceptance), Some(codex), Some(risk)) =>
      Normalise(env, [Field("project", Obj(project)), Field("repository", Obj(repository)),
                      Field("acceptance", Obj(acceptance)),
                      Field("adapters", Obj([Field("codex", Obj(codex))])), Field("risk", Obj(risk))])
    case _ => None
  }

  // ----- normal configurations stay as they are -----

  lemma {:induction false} GetAt(fields: seq<Field<Value>>, k: nat)
    requires k < |fields| && forall i :: 0 <= i < k ==> fields[i].key != fields[k].key
    ensures Get(fields, fields[k].key) == Some(fields[k].value)
  {
    if k > 0 { GetAt(fields[1..], k - 1); }
  }

  lemma {:induction false} GetMissing(fields: seq<Field<Value>>, key: string)
    requires forall i :: 0 <= i < |fields| ==> fields[i].key != key
    ensures Get(fields, key) == None
  {
    if fields != [] { GetMissing(fields[1..], key); }
  }

  lemma {:induction false} WithoutIs(fields: seq<Field<Value>>, key: string, last: Field<Value>)
    requires last.key == key
    ensures Get(Without(fields, key) + [last], key) == Some(last.value)
    ensures Without(Without(fields, key) + [last], key) == Without(fields, key)
  {
    if fields != [] {
      WithoutIs(fields[1..], key, last);
      var rest := Without(fields[1..], key);
      if fields[0].key != key { assert (Without(fields, key) + [last])[1..] == rest + [last]; }
      else { assert Without(fields, key) == rest; }
    } else {
      assert [last][1..] == [];
      assert Without(fields, key) + [last] == [last];
    }
  }

  lemma StoredRule(env: Env, other: Env, item: Value)
    requires Rule(env, item).Some?
    ensures Rule(other, Rule(env, item).value) == Rule(env, item)
  {
    hide ConfigText.Strip;
    var r := Rule(env, item).value;
    GetAt(r.fields, 0);
    GetAt(r.fields, 1);
    GetAt(r.fields, 2);
    GetMissing(r.fields, "source");
    ConfigText.StripTwice(TextOr(env, Get(item.fields, "match"), ""));
    ConfigText.StripTwice(r.fields[2].value.s);
    var shown := match Get(item.fields, "match") case None => env.repr(Null) case Some(v) => env.repr(v);
    ConfigText.StripTwice(TextOr(env, Get(item.fields, "reason"), "matched " + shown));
    PlainProject();
  }

  lemma PlainProject()
    ensures ConfigText.Strip("project") == "project"
  {
  }

  lemma {:induction false} StoredRules(env: Env, other: Env, items: seq<Value>)
    requires Rules(env, items).Some?
    ensures Rules(other, Rules(env, items).value) == Rules(env, items)
  {
    hide Rule;
    if items != [] {
      StoredRule(env, other, items[0]);
      StoredRules(env, other, items[1..]);
    }
  }

  lemma StoredRiskFields(env: Env, default: string, builtin: bool, rules: seq<Value>)
    requires default in LEVELS && Rules(env, rules) == Some(rules)
    ensures Risk(env, RiskFields(default, builtin, rules)) == Some(RiskFields(default, builtin, rules))
  {
    hide Rules, Get;
    var stored := RiskFields(default, builtin, rules);
    GetAt(stored, 0);
    GetAt(stored, 1);
    GetAt(stored, 2);
  }

  lemma StoredRisk(env: Env, other: Env, risk: seq<Field<Value>>)
    requires Risk(env, risk).Some?
    ensures Risk(other, Risk(env, risk).value) == Risk(env, risk) && Risk(env, risk).value != []
  {
    hide Rules, Get;
    var raw := Get(risk, "rules");
    var items := if !Truthy(env, raw) then [] else raw.value.items;
    StoredRules(env, other, items);
    StoredRiskFields(other, TextOr(env, Get(risk, "default"), "medium"),
                     Get(risk, "include_builtin_rules").None? || Truthy(env, Get(risk, "include_builtin_rules")),
                     Rules(env, items).value);
  }

  /** Normalising is stable: a normal configuration is normal for every environment of the same
      repository, whatever its branch, its detected commands and the next random id. */
  lemma NormaliseIsStable(env: Env, other: Env, existing: seq<Field<Value>>)
    requires Sound(env) && Sound(other) && env.identity == other.identity && Normalise(env, existing).Some?
    ensures Normalise(other, Normalise(env, existing).value) == Normalise(env, existing)
  {
    hide PartsOf, ConfigOf;
    PartsAreStable(env, other, existing);
  }

  lemma PartsAreStable(env: Env, other: Env, existing: seq<Field<Value>>)
    requires Sound(env) && Sound(other) && PartsOf(env, existing).Some?
    ensures PartsOf(other, ConfigOf(env.identity, PartsOf(env, existing).value)) == PartsOf(env, existing)
  {
    hide PartsOf, NormalPartsOf, ConfigOf;
    PartsAreNormal(env, other, existing);
    NormalConfig(other, env.identity, PartsOf(env, existing).value);
  }

  /** What holds of the parts of every normal configuration. */
  ghost predicate NormalPartsOf(env: Env, p: Parts) {
    && IsProjectId(p.id) && p.branch != "" && p.source != "" && AllTexts(p.commands)
    && Without(p.others + [Field("codex", Codex(p.enabled, p.policy))], "codex") == p.others
    && Get(p.others + [Field("codex", Codex(p.enabled, p.policy))], "codex") == Some(Codex(p.enabled, p.policy))
    && p.policy in POLICY_NAMES && env.fold(p.policy) == p.policy
    && p.risk != [] && Risk(env, p.risk) == Some(p.risk)
  }

  lemma PartsAreNormal(env: Env, other: Env, existing: seq<Field<Value>>)
    requires Sound(env) && Sound(other) && PartsOf(env, existing).Some?
    ensures NormalPartsOf(other, PartsOf(env, existing).value)
  {
    hide Without, Rules;
    var p := PartsOf(env, existing).value;
    StoredRisk(env, other, Section(env, existing, "risk").value);
    WithoutIs(Section(env, existing, "adapters").value, "codex", Field("codex", Codex(p.enabled, p.policy)));
  }

  lemma NormalConfig(env: Env, identity: string, p: Parts)
    requires NormalPartsOf(env, p)
    ensures PartsOf(env, ConfigOf(identity, p)) == Some(p)
  {
    hide Risk, Without, Get, ConfigOf, ProjectId, Commands, TextOr, Truthy, IsProjectId, AllTexts;
    NormalSections(env, identity, p);
    NormalCodex(env, p);
    NormalParts(env, p);
  }

  lemma NormalCodex(env: Env, p: Parts)
    requires NormalPartsOf(env, p)
    ensures Section(env, p.others + [Field("codex", Codex(p.enabled, p.policy))], "codex")
        == Some(Codex(p.enabled, p.policy).fields)
  {
    hide Risk, Without, Get;
  }

  lemma NormalSections(env: Env, identity: string, p: Parts)
    requires p.risk != []
    ensures var c := ConfigOf(identity, p);
            && Section(env, c, "project") == Some([Field("id", Str(p.id))])
            && Section(env, c, "repository") == Some(RepositoryFields(identity, p))
            && Section(env, c, "acceptance") == Some(AcceptanceFields(p))
            && Section(env, c, "adapters") == Some(p.others + [Field("codex", Codex(p.enabled, p.policy))])
            && Section(env, c, "risk") == Some(p.risk)
  {
    var c := ConfigOf(identity, p);
    GetAt(c, 1);
    GetAt(c, 2);
    GetAt(c, 3);
    GetAt(c, 4);
    GetAt(c, 5);
  }

  lemma NormalParts(env: Env, p: Parts)
    requires IsProjectId(p.id) && p.branch != "" && p.source != "" && AllTexts(p.commands) && p.policy != ""
    ensures ProjectId(env, [Field("id", Str(p.id))]) == p.id
    ensures forall identity :: TextOr(env, Get(RepositoryFields(identity, p), "default_branch"), env.branch) == p.branch
                            && TextOr(env, Get(RepositoryFields(identity, p), "default_branch_source"), env.source)
                               == p.source
    ensures Commands(env, AcceptanceFields(p)) == p.commands
    ensures var codex := Codex(p.enabled, p.policy).fields;
            Truthy(env, Get(codex, "enabled")) == p.enabled && TextOr(env, Get(codex, "policy"), "guarded") == p.policy
  {
    forall identity ensures TextOr(env, Get(RepositoryFields(identity, p), "default_branch"), env.branch) == p.branch
                         && TextOr(env, Get(RepositoryFields(identity, p), "default_branch_source"), env.source)
                            == p.source {
      GetAt(RepositoryFields(identity, p), 1);
      GetAt(RepositoryFields(identity, p), 2);
    }
    GetAt([Field("id", Str(p.id))], 0);
    GetAt(AcceptanceFields(p), 0);
    GetAt(Codex(p.enabled, p.policy).fields, 0);
    GetAt(Codex(p.enabled, p.policy).fields, 1);
  }
}
