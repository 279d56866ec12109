/** Enrolment of a project on disk: `migrate_project_config` and `init_project` of
    src/claim_plane/project.py. Each file is replaced whole; the process may die before any
    write. */
module Project {
  import opened Wrappers
  import opened Json
  import ConfigText
  import JsonRoundTrip
  import ConfigRoundTrip
  import opened ProjectConfig

  const STATE_PROTOCOL := "claim-plane.project.v1"

  /** `.claim-plane/project.json` */
  datatype State = State(protocol: string, initializedAt: string, updatedAt: string, projectId: string,
                         configProtocol: string, configDigest: string)

  /** The configuration, its backup and the state. */
  datatype Files = Files(config: Option<string>, backup: Option<string>, state: Option<State>)

  datatype End = Finished(changed: bool) | Refused | Died

  datatype World = World(env: Env, now: string, digest: string -> string)

  /** The files after a call, how many writes the process had left, and how the call ended. */
  datatype After = After(files: Files, lives: nat, end: End)

  // ----- what the calls compute -----

  predicate Readable(f: Files) { f.config.Some? && ConfigText.Read(f.config.value).Ok? }

  function Payload(f: Files): seq<Field<Value>>
    requires Readable(f)
  {
    ConfigText.Read(f.config.value).value
  }

  predicate Uses(f: Files, protocol: string) { Readable(f) && Get(Payload(f), "protocol") == Some(Str(protocol)) }

  /** The text a legacy configuration is migrated to. */
  function Migrated(w: World, f: Files): Option<string>
    requires Readable(f)
  {
    match FromLegacy(w.env, Payload(f))
    case None => None
    case Some(c) => Some(ConfigText.Dump(c))
  }

  predicate Migratable(w: World, f: Files) {
    Uses(f, LEGACY) && Migrated(w, f).Some? && (f.backup == None || f.backup == f.config)
  }

  function Touched(s: State, w: World, text: string): State {
    s.(updatedAt := w.now, configProtocol := CURRENT, configDigest := w.digest(text))
  }

  /** Backup, configuration, state: a write needs a life. */
  function Rewrite(w: World, f: Files, text: string, lives: nat): After {
    var first := if f.backup.None? then 1 else 0;
    var backed := f.(backup := f.config);
    var written := backed.(config := Some(text));
    if lives < first then After(f, lives, Died)
    else if lives < first + 1 then After(backed, lives - first, Died)
    else if f.state.None? then After(written, lives - first - 1, Finished(true))
    else if lives < first + 2 then After(written, lives - first - 1, Died)
    else After(written.(state := Some(Touched(f.state.value, w, text))), lives - first - 2, Finished(true))
  }

  function Migrate(w: World, f: Files, lives: nat): After {
    if Uses(f, CURRENT) then After(f, lives, Finished(false))
    else if !Migratable(w, f) then After(f, lives, Refused)
    else Rewrite(w, f, Migrated(w, f).value, lives)
  }

  function OrElse(s: string, default: string): string { if s == "" then default else s }

  function NextState(w: World, prior: Option<State>, configChanged: bool, c: Parts, text: string): State {
    State(STATE_PROTOCOL, if prior.Some? then OrElse(prior.value.initializedAt, w.now) else w.now,
          if prior.None? || configChanged then w.now else OrElse(prior.value.updatedAt, w.now),
          c.id, CURRENT, w.digest(text))
  }

  /** Writing the normal configuration and then the state, each only if it differs. */
  function Settle(w: World, f: Files, c: Parts, lives: nat): After {
    var text := ConfigText.Dump(ConfigOf(w.env.identity, c));
    var changed := f.config != Some(text);
    var state := NextState(w, f.state, changed, c, text);
    if changed && lives < 1 then After(f, lives, Died)
    else
      var g, left := f.(config := Some(text)), if changed then lives - 1 else lives;
      if f.state == Some(state) then After(g, left, Finished(changed))
      else if left < 1 then After(g, left, Died)
      else After(g.(state := Some(state)), left - 1, Finished(true))
  }

  /** What an initialisation settles: the parts of the configuration, once a legacy one is migrated. */
  datatype Prepared = Prepared(after: After, parts: Option<Parts>)

  function Prepare(w: World, f: Files, lives: nat): Prepared {
    var same := After(f, lives, Finished(false));
    if f.state.Some? && f.state.value.protocol != STATE_PROTOCOL then Prepared(same, None)
    else if f.config.None? then Prepared(same, PartsOf(w.env, []))
    else
      var migration := if Uses(f, LEGACY) then Migrate(w, f, lives) else same;
      if migration.end.Finished? && Uses(migration.files, CURRENT)
      then Prepared(migration, PartsOf(w.env, Payload(migration.files)))
      else Prepared(migration, None)
  }

  function Init(w: World, f: Files, lives: nat): After {
    var p := Prepare(w, f, lives);
    if p.parts.None? then p.after.(end := if p.after.end.Finished? then Refused else p.after.end)
    else
      var r := Settle(w, p.after.files, p.parts.value, p.after.lives);
      if r.end.Finished? then r.(end := Finished(r.end.changed || p.after.end.changed)) else r
  }

  // ----- the project on disk -----

  class Disk {
    var files: Files
    var lives: nat

    constructor (files: Files, lives: nat)
      ensures this.files == files && this.lives == lives
    {
      this.files, this.lives := files, lives;
    }

    method WriteBackup(text: Option<string>) returns (alive: bool)
      modifies this
      ensures alive == (old(lives) > 0)
      ensures files == (if alive then old(files).(backup := text) else old(files))
      ensures lives == old(lives) - (if alive then 1 else 0)
    {
      alive := lives > 0;
      if alive { files, lives := files.(backup := text), lives - 1; }
    }

    method WriteConfig(text: string) returns (alive: bool)
      modifies this
      ensures alive == (old(lives) > 0)
      ensures files == (if alive then old(files).(config := Some(text)) else old(files))
      ensures lives == old(lives) - (if alive then 1 else 0)
    {
      alive := lives > 0;
      if alive { files, lives := files.(config := Some(text)), lives - 1; }
    }

    method WriteState(state: State) returns (alive: bool)
      modifies this
      ensures alive == (old(lives) > 0)
      ensures files == (if alive then old(files).(state := Some(state)) else old(files))
      ensures lives == old(lives) - (if alive then 1 else 0)
    {
      alive := lives > 0;
      if alive { files, lives := files.(state := Some(state)), lives - 1; }
    }

    method MigrateConfig(w: World) returns (end: End)
      modifies this
      ensures After(files, lives, end) == Migrate(w, old(files), old(lives))
    {
      hide Migrated;
      if !Readable(files) { return Refused; }
      if Uses(files, CURRENT) { return Finished(false); }
      if !Uses(files, LEGACY) { return Refused; }
      var text := Migrated(w, files);
      if text.None? { return Refused; }
      if files.backup.Some? && files.backup != files.config { return Refused; }
      if files.backup.None? {
        var backed := WriteBackup(files.config);
        if !backed { return Died; }
      }
      var written := WriteConfig(text.value);
      if !written { return Died; }
      if files.state.Some? {
        var touched := WriteState(Touched(files.state.value, w, text.value));
        if !touched { return Died; }
      }
      end := Finished(true);
    }

    method InitProject(w: World) returns (end: End)
      modifies this
      ensures After(files, lives, end) == Init(w, old(files), old(lives))
    {
      hide Uses, Migrate, PartsOf, Payload, ConfigOf, NextState, ConfigText.Dump;
      if files.state.Some? && files.state.value.protocol != STATE_PROTOCOL { return Refused; }
      var migrated, existing := false, [];
      if files.config.Some? {
        if Uses(files, LEGACY) {
          var migration := MigrateConfig(w);
          if !migration.Finished? { return migration; }
          migrated := migration.changed;
        }
        if !Uses(files, CURRENT) { return Refused; }
        UsesReads(files, CURRENT);
        existing := Payload(files);
      }
      var parts := PartsOf(w.env, existing);
      if parts.None? { return Refused; }
      assert Prepare(w, old(files), old(lives)) == Prepared(After(files, lives, Finished(migrated)), parts);
      var text := ConfigText.Dump(ConfigOf(w.env.identity, parts.value));
      var configChanged := files.config != Some(text);
      if configChanged {
        var written := WriteConfig(text);
        if !written { return Died; }
      }
      var state := NextState(w, files.state, configChanged, parts.value, text);
      var stateChanged := files.state != Some(state);
      if stateChanged {
        var stored := WriteState(state);
        if !stored { return Died; }
      }
      end := Finished(configChanged || stateChanged || migrated);
    }
  }

  lemma UsesReads(f: Files, protocol: string)
    requires Uses(f, protocol)
    ensures Readable(f)
  {
  }

  // ----- nothing is lost -----

  /** Wherever the process dies, the configuration is the old text or all of the new one, and the
      old text is still there, in the configuration or in the backup. */
  lemma OriginalIsKept(w: World, f: Files, lives: nat)
    requires f.config.Some?
    ensures var after := Migrate(w, f, lives).files;
            && (after.config == f.config || (Migratable(w, f) && after.config == Migrated(w, f)))
            && (after.config == f.config || after.backup == f.config)
            && (after.backup == f.backup || (f.backup == None && after.backup == f.config))
            && (after.state != f.state ==> after.config == Migrated(w, f))
  {
    hide Uses, Migrated;
  }

  /** A state that names the configuration beside it. */
  predicate InSync(w: World, f: Files) {
    f.config.Some? && f.state.Some? && f.state.value.configProtocol == CURRENT
        && f.state.value.configDigest == w.digest(f.config.value)
  }

  lemma OnlyTheConfigCounts(w: World, f: Files, g: Files)
    requires f.config == g.config
    ensures Uses(f, CURRENT) == Uses(g, CURRENT) && Uses(f, LEGACY) == Uses(g, LEGACY)
    ensures Readable(f) == Readable(g) && (Readable(f) ==> Migrated(w, f) == Migrated(w, g))
  {
  }

  /** The configuration a legacy one is migrated to holds no Unicode line boundary. */
  predicate MigratesClean(w: World, f: Files) {
    Migratable(w, f) && ConfigRoundTrip.CleanFields(FromLegacy(w.env, Payload(f)).value)
  }

  /** The process dies with the backup made or found and the configuration replaced, before the state. */
  predicate DiesBeforeState(f: Files, lives: nat) { f.state.Some? && lives == (if f.backup.None? then 2 else 1) }

  /** Exactly when migrating again makes good for a death. The second call may come at any later time, with
      another random id, branch and detected commands. It ends with the files that it would have made of
      the legacy project itself, unless the death came between the configuration and the state; in that
      case it changes nothing, whatever the new text reads as, and the state stays as it was. */
  lemma MigrationResumesExactly(w: World, f: Files, lives: nat, again: World, enough: nat)
    requires Migratable(w, f) && Migratable(again, f) && Migrate(w, f, lives).end == Died && enough >= 3
    requires f.state.Some? ==> again.now != f.state.value.updatedAt
    ensures var left := Migrate(w, f, lives).files;
            && (Migrate(again, left, enough).files == Migrate(again, f, enough).files
                <==> !(DiesBeforeState(f, lives) && Migrated(w, f) != f.config))
            && (DiesBeforeState(f, lives) && Migrated(w, f) != f.config ==>
                  Migrate(again, left, enough).files == left && left.config == Migrated(w, f) && left.state == f.state)
  {
    hide Uses, Migrated, Readable;
    UsesReads(f, LEGACY);
    var left := Migrate(w, f, lives).files;
    if left.config == f.config { OnlyTheConfigCounts(again, f, left); }
    UsesOne(f);
    UsesOne(left);
  }

  /** The same for what a state is for: after the second call it names the configuration beside it if and
      only if the first did not die between the two. The state at the start names another text. */
  lemma ResumedStateIsInSync(w: World, f: Files, lives: nat, again: World, enough: nat)
    requires MigratesClean(w, f) && Migratable(again, f) && Migrate(w, f, lives).end == Died && enough >= 3
    requires f.state.Some? && w.digest == again.digest && f.state.value.configDigest != w.digest(Migrated(w, f).value)
    ensures InSync(again, Migrate(again, Migrate(w, f, lives).files, enough).files) <==> !DiesBeforeState(f, lives)
  {
    hide Uses, Migrated, Readable, FromLegacy, ConfigText.Dump, ConfigRoundTrip.CleanFields;
    UsesReads(f, LEGACY);
    var left := Migrate(w, f, lives).files;
    MigratedIsCurrent(w, f, left);
    if left.config == f.config { OnlyTheConfigCounts(again, f, left); }
    UsesOne(f);
    UsesOne(left);
  }

  const ONE_LINE := [Field("protocol", Str(LEGACY))]

  /** The stale state, on a legacy project of one line without a backup: the call dies after its second
      write, and no later call makes good for it. */
  lemma StateStaysStale(w: World, again: World, state: State)
    requires Sound(w.env) && Sound(again.env) && again.now != state.updatedAt
    ensures var f := Files(Some(ConfigText.Dump(ONE_LINE)), None, Some(state));
            var left := Migrate(w, f, 2).files;
            && Migrate(w, f, 2).end == Died && left.config != f.config && left.backup == f.config
            && left.state == Some(state) && Migrate(again, left, 3).files == left
            && Migrate(again, left, 3).files != Migrate(again, f, 3).files
  {
    hide Uses, Migrated, ConfigText.Dump, Migrate;
    var f := Files(Some(ConfigText.Dump(ONE_LINE)), None, Some(state));
    OneLineMigrates(w, f);
    OneLineMigrates(again, f);
    DiesAfterTwo(w, f);
    MigrationResumesExactly(w, f, 2, again, 3);
  }

  lemma DiesAfterTwo(w: World, f: Files)
    requires Migratable(w, f) && f.backup.None? && f.state.Some?
    ensures Migrate(w, f, 2).end == Died && Migrate(w, f, 2).files == f.(backup := f.config, config := Migrated(w, f))
  {
    hide Uses, Migrated;
    UsesOne(f);
  }

  lemma OneLineMigrates(w: World, f: Files)
    requires Sound(w.env) && f == Files(Some(ConfigText.Dump(ONE_LINE)), None, f.state)
    ensures Migratable(w, f) && Migrated(w, f) != f.config
  {
    hide ConfigText.Dump, ConfigOf, PartsOf;
    OneLineIsConfig();
    WrittenReadsBack(w, f, ONE_LINE);
    assert Get(ONE_LINE, "protocol") == Some(Str(LEGACY));
    OneLineParts(w.env);
    var p := LegacyParts(w.env, ONE_LINE);
    NewTextDiffers(w.env.identity, p);
  }

  lemma OneLineIsConfig()
    ensures ConfigRoundTrip.IsConfig(ONE_LINE) && ConfigRoundTrip.CleanFields(ONE_LINE)
  {
    TopKeys();
  }

  lemma OneLineParts(env: Env)
    requires Sound(env)
    ensures FromLegacy(env, ONE_LINE).Some?
  {
    GetMissing(ONE_LINE, "project");
    GetMissing(ONE_LINE, "repository");
    GetMissing(ONE_LINE, "acceptance");
    GetMissing(ONE_LINE, "codex");
    GetMissing(ONE_LINE, "risk");
    var adapters := [Field("codex", Obj([]))];
    var existing := [Field("project", Obj([])), Field("repository", Obj([])), Field("acceptance", Obj([])),
                     Field("adapters", Obj(adapters)), Field("risk", Obj([]))];
    assert FromLegacy(env, ONE_LINE) == Normalise(env, existing);
    GetAt(existing, 0);
    GetAt(existing, 1);
    GetAt(existing, 2);
    GetAt(existing, 3);
    GetAt(existing, 4);
    EmptyPartsExist(env);
  }

  lemma EmptyPartsExist(env: Env)
    requires Sound(env)
    ensures Section(env, [Field("codex", Obj([]))], "codex") == Some([]) && Risk(env, []).Some?
    ensures env.fold(TextOr(env, Get([], "policy"), "guarded")) in POLICY_NAMES
  {
    GetAt([Field("codex", Obj([]))], 0);
    assert Rules(env, []) == Some([]);
  }

  lemma {:induction false} PlainChars(s: string)
    requires forall i :: 0 <= i < |s| ==> s[i] >= ' ' && s[i] != '\"' && s[i] != '\\'
    ensures EncodeChars(s) == s
  {
    if s != "" {
      PlainChars(s[1..]);
      assert s == [s[0]] + s[1..];
    }
  }

  /** The printed text starts with its first entry. */
  lemma StartsWithProtocol(config: seq<Field<Value>>, protocol: string)
    requires config != [] && config[0] == Field("protocol", Str(protocol))
    requires forall i :: 0 <= i < |protocol| ==> protocol[i] >= ' ' && protocol[i] != '\"' && protocol[i] != '\\'
    ensures var text := ConfigText.Dump(config); |text| >= 11 + |protocol| && text[11..11 + |protocol|] == protocol
  {
    hide EncodeChars;
    PlainChars(protocol);
    var first := "protocol: " + ("\"" + protocol + "\"");
    var lines := ConfigText.DumpMapping(config, 0);
    assert Encode(Str(protocol)) == "\"" + protocol + "\"";
    assert ConfigText.Spaces(0) + "protocol" + ": " + Encode(Str(protocol)) == first;
    assert ConfigText.FieldLines(config[0], 0) == [first];
    assert lines[0] == first;
    assert ConfigText.Dump(config)[..|first|] == first;
    assert first[11..11 + |protocol|] == protocol;
  }

  lemma NewTextDiffers(identity: string, p: Parts)
    ensures ConfigText.Dump(ConfigOf(identity, p)) != ConfigText.Dump(ONE_LINE)
  {
    hide ConfigText.Dump;
    StartsWithProtocol(ConfigOf(identity, p), CURRENT);
    StartsWithProtocol(ONE_LINE, LEGACY);
    CurrentIsNotLegacy();
    assert |CURRENT| == |LEGACY|;
  }

  /** What a clean migration writes is read as current. */
  lemma MigratedIsCurrent(w: World, f: Files, g: Files)
    requires MigratesClean(w, f)
    ensures g.config == Migrated(w, f) ==> Uses(g, CURRENT)
  {
    hide ConfigText.Dump, FromLegacy, ConfigRoundTrip.IsConfig, ConfigRoundTrip.CleanFields;
    var config := FromLegacy(w.env, Payload(f)).value;
    LegacyIsConfig(w.env, Payload(f));
    if g.config == Some(ConfigText.Dump(config)) { WrittenReadsBack(w, g, config); }
  }

  lemma UsesOne(f: Files)
    ensures !(Uses(f, CURRENT) && Uses(f, LEGACY))
  {
    CurrentIsNotLegacy();
  }

  // ----- a migrated configuration is well-formed -----

  /** Migrating always gives a configuration of the current protocol with well-formed keys. */
  lemma LegacyIsConfig(env: Env, payload: seq<Field<Value>>)
    requires FromLegacy(env, payload).Some?
    ensures var config := FromLegacy(env, payload).value;
            ConfigRoundTrip.IsConfig(config) && Get(config, "protocol") == Some(Str(CURRENT))
  {
    hide ConfigOf, ConfigRoundTrip.IsConfig;
    var p := LegacyParts(env, payload);
    ConfigIsConfig(env.identity, p);
  }

  lemma LegacyParts(env: Env, payload: seq<Field<Value>>) returns (p: Parts)
    requires FromLegacy(env, payload).Some?
    ensures FromLegacy(env, payload) == Some(ConfigOf(env.identity, p)) && p.others == [] && AllTexts(p.commands)
    ensures exists default, builtin, rules :: p.risk == RiskFields(default, builtin, rules) && AllRules(rules)
  {
    hide ConfigOf, Rules, Commands, ProjectId, TextOr, Truthy;
    var codex := Section(env, payload, "codex").value;
    var existing := [Field("project", Obj(Section(env, payload, "project").value)),
                     Field("repository", Obj(Section(env, payload, "repository").value)),
                     Field("acceptance", Obj(Section(env, payload, "acceptance").value)),
                     Field("adapters", Obj([Field("codex", Obj(codex))])),
                     Field("risk", Obj(Section(env, payload, "risk").value))];
    assert FromLegacy(env, payload) == Normalise(env, existing);
    p := PartsOf(env, existing).value;
    LegacyAdapters(env, existing, codex);
    CommandsAreTexts(env, Section(env, existing, "acceptance").value);
    RiskIsRules(env, Section(env, existing, "risk").value);
  }

  lemma LegacyAdapters(env: Env, existing: seq<Field<Value>>, codex: seq<Field<Value>>)
    requires |existing| == 5 && existing[3] == Field("adapters", Obj([Field("codex", Obj(codex))]))
    requires existing[0].key == "project" && existing[1].key == "repository" && existing[2].key == "acceptance"
    ensures Section(env, existing, "adapters") == Some([Field("codex", Obj(codex))])
    ensures Without([Field("codex", Obj(codex))], "codex") == []
  {
    GetAt(existing, 3);
    assert [Field("codex", Obj(codex))][1..] == [];
    assert Without([], "codex") == [];
  }

  lemma CommandsAreTexts(env: Env, acceptance: seq<Field<Value>>)
    ensures AllTexts(Commands(env, acceptance))
  {
  }

  predicate IsRule(v: Value) {
    v.Obj? && |v.fields| == 3 && v.fields[0].value.Str? && v.fields[1].value.Str? && v.fields[2].value.Str?
    && v == RuleObject(v.fields[0].value.s, v.fields[1].value.s, v.fields[2].value.s)
  }

  predicate AllRules(items: seq<Value>) { forall i :: 0 <= i < |items| ==> IsRule(items[i]) }

  lemma {:induction false} RulesAreRules(env: Env, items: seq<Value>)
    requires Rules(env, items).Some?
    ensures AllRules(Rules(env, items).value)
  {
    hide IsRule;
    if items != [] {
      RulesAreRules(env, items[1..]);
      RuleIsRule(env, items[0]);
    }
  }

  lemma RuleIsRule(env: Env, item: Value)
    requires Rule(env, item).Some?
    ensures IsRule(Rule(env, item).value)
  {
    hide ConfigText.Strip;
  }

  lemma RiskIsRules(env: Env, risk: seq<Field<Value>>)
    requires Risk(env, risk).Some?
    ensures exists default, builtin, rules ::
              Risk(env, risk).value == RiskFields(default, builtin, rules) && AllRules(rules)
  {
    hide Rules, Get, IsRule;
    var raw := Get(risk, "rules");
    var items := if !Truthy(env, raw) then [] else raw.value.items;
    RulesAreRules(env, items);
    assert Risk(env, risk).value == RiskFields(TextOr(env, Get(risk, "default"), "medium"),
      Get(risk, "include_builtin_rules").None? || Truthy(env, Get(risk, "include_builtin_rules")),
      Rules(env, items).value);
  }

  lemma ConfigIsConfig(identity: string, p: Parts)
    requires p.others == [] && AllTexts(p.commands)
    requires exists default, builtin, rules :: p.risk == RiskFields(default, builtin, rules) && AllRules(rules)
    ensures ConfigRoundTrip.IsConfig(ConfigOf(identity, p))
    ensures Get(ConfigOf(identity, p), "protocol") == Some(Str(CURRENT))
  {
    var config := ConfigOf(identity, p);
    GetAt(config, 0);
    TopKeys();
    ProjectIsConfig(p.id);
    RepositoryIsConfig(identity, p);
    AcceptanceIsConfig(p);
    AdaptersAreConfig(p);
    var default, builtin, rules :| p.risk == RiskFields(default, builtin, rules) && AllRules(rules);
    RiskIsConfig(default, builtin, rules);
    hide ConfigText.IsKey, AllRules, AllTexts, RiskFields;
    assert [] + [Field("codex", Codex(p.enabled, p.policy))] == [Field("codex", Codex(p.enabled, p.policy))];
  }

  lemma TopKeys()
    ensures ConfigText.IsKey("protocol") && ConfigText.IsKey("project") && ConfigText.IsKey("repository")
    ensures ConfigText.IsKey("acceptance") && ConfigText.IsKey("adapters") && ConfigText.IsKey("risk")
  {
  }

  lemma ProjectIsConfig(id: string)
    ensures ConfigRoundTrip.IsConfig([Field("id", Str(id))])
  {
    assert ConfigText.IsKey("id");
  }

  lemma RepositoryIsConfig(identity: string, p: Parts)
    ensures ConfigRoundTrip.IsConfig(RepositoryFields(identity, p))
  {
    assert ConfigText.IsKey("identity") && ConfigText.IsKey("default_branch")
        && ConfigText.IsKey("default_branch_source");
    assert "identity"[0] != "default_branch"[0] && |"default_branch"| != |"default_branch_source"|;
  }

  lemma AcceptanceIsConfig(p: Parts)
    requires AllTexts(p.commands)
    ensures ConfigRoundTrip.IsConfig(AcceptanceFields(p))
  {
    assert ConfigText.IsKey("commands") && ConfigText.IsKey("detected");
    assert "commands"[0] != "detected"[0];
  }

  lemma AdaptersAreConfig(p: Parts)
    ensures ConfigRoundTrip.IsConfig([Field("codex", Codex(p.enabled, p.policy))])
  {
    assert ConfigText.IsKey("codex") && ConfigText.IsKey("enabled") && ConfigText.IsKey("policy");
    assert "enabled"[0] != "policy"[0];
    assert ConfigRoundTrip.IsConfig(Codex(p.enabled, p.policy).fields);
  }

  lemma RiskIsConfig(default: string, builtin: bool, rules: seq<Value>)
    requires AllRules(rules)
    ensures ConfigRoundTrip.IsConfig(RiskFields(default, builtin, rules))
  {
    hide IsRule;
    assert ConfigText.IsKey("default") && ConfigText.IsKey("include_builtin_rules") && ConfigText.IsKey("rules");
    assert "default"[0] == 'd' && "include_builtin_rules"[0] == 'i' && "rules"[0] == 'r';
    forall i | 0 <= i < |rules| ensures JsonRoundTrip.Printable(rules[i]) { RuleIsPrintable(rules[i]); }
  }

  lemma RuleIsPrintable(v: Value)
    requires IsRule(v)
    ensures JsonRoundTrip.Printable(v)
  {
    assert "match"[0] == 'm' && "level"[0] == 'l' && "reason"[0] == 'r';
  }

  /** What is written reads back, if it holds no Unicode line boundary. */
  lemma WrittenReadsBack(w: World, f: Files, config: seq<Field<Value>>)
    requires f.config == Some(ConfigText.Dump(config)) && ConfigRoundTrip.IsConfig(config)
    requires ConfigRoundTrip.CleanFields(config)
    ensures Readable(f) && Payload(f) == config
    ensures Uses(f, CURRENT) <==> Get(config, "protocol") == Some(Str(CURRENT))
  {
    ConfigRoundTrip.ReadOfDump(config);
    CurrentIsNotLegacy();
  }

  lemma CurrentIsNotLegacy()
    ensures CURRENT != LEGACY
  {
    assert CURRENT[|CURRENT| - 1] != LEGACY[|LEGACY| - 1];
  }

  /** A finished initialisation leaves a normal configuration and a state in step with it, whatever an
      earlier process left behind; this also repairs a stale state. */
  lemma InitSynchronises(w: World, f: Files, lives: nat)
    requires Init(w, f, lives).end.Finished?
    ensures Prepare(w, f, lives).parts.Some?
    ensures var after, c := Init(w, f, lives).files, Prepare(w, f, lives).parts.value;
            InSync(w, after) && after.config == Some(ConfigText.Dump(ConfigOf(w.env.identity, c)))
            && after.state.value.projectId == c.id && after.state.value.protocol == STATE_PROTOCOL
            && (w.now != "" ==> after.state.value.initializedAt != "" && after.state.value.updatedAt != "")
  {
    hide Prepare, ConfigOf, ConfigText.Dump;
  }

  /** The next initialisation of the same repository, at any later time and with any branch, detected
      commands and random id, writes nothing. */
  lemma InitIsIdempotent(w: World, f: Files, lives: nat, again: World, enough: nat)
    requires Sound(w.env) && Sound(again.env) && w.env.identity == again.env.identity && w.digest == again.digest
    requires w.now != ""
    requires Init(w, f, lives).end.Finished?
    requires Prepare(w, f, lives).parts.Some? ==>
               var config := ConfigOf(w.env.identity, Prepare(w, f, lives).parts.value);
               ConfigRoundTrip.IsConfig(config) && ConfigRoundTrip.CleanFields(config)
    ensures Init(again, Init(w, f, lives).files, enough) == After(Init(w, f, lives).files, enough, Finished(false))
  {
    hide Init, Prepare, PartsOf, ConfigOf, ConfigText.Dump, Uses, Payload, Settle, ConfigRoundTrip.IsConfig,
      ConfigRoundTrip.CleanFields, Sound;
    InitSynchronises(w, f, lives);
    var after, c := Init(w, f, lives).files, Prepare(w, f, lives).parts.value;
    PreparedParts(w, f, lives, again);
    WrittenReadsBack(w, after, ConfigOf(w.env.identity, c));
    SettledAgain(again, after, c, enough);
  }

  lemma PreparedParts(w: World, f: Files, lives: nat, again: World)
    requires Sound(w.env) && Sound(again.env) && Prepare(w, f, lives).parts.Some?
    ensures var c := Prepare(w, f, lives).parts.value;
            PartsOf(again.env, ConfigOf(w.env.identity, c)) == Some(c)
            && Get(ConfigOf(w.env.identity, c), "protocol") == Some(Str(CURRENT))
  {
    hide PartsOf, Sound, Uses, Migrate, Payload;
    var files := Prepare(w, f, lives).after.files;
    if f.config.Some? { UsesReads(files, CURRENT); }
    var existing := if f.config.None? then [] else Payload(files);
    PartsAreStable(w.env, again.env, existing);
    GetAt(ConfigOf(w.env.identity, Prepare(w, f, lives).parts.value), 0);
  }

  lemma SettledAgain(w: World, f: Files, c: Parts, lives: nat)
    requires f.config == Some(ConfigText.Dump(ConfigOf(w.env.identity, c))) && InSync(w, f) && Uses(f, CURRENT)
    requires f.state.value.protocol == STATE_PROTOCOL && f.state.value.projectId == c.id
    requires f.state.value.initializedAt != "" && f.state.value.updatedAt != ""
    requires Readable(f) && PartsOf(w.env, Payload(f)) == Some(c)
    ensures Init(w, f, lives) == After(f, lives, Finished(false))
  {
    hide PartsOf, ConfigOf, ConfigText.Dump, Payload, Migrate;
    CurrentIsNotLegacy();
  }
}
