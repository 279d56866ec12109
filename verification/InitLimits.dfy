/** Exactly when initialising a project twice is initialising it once, src/claim_plane/project.py. */
module InitLimits {
  import opened Wrappers
  import opened Json
  import ConfigText
  import opened ConfigRoundTrip
  import ConfigLimits
  import opened ProjectConfig
  import opened Project

  // ----- printing hides no line boundary -----

  lemma CleanSum(a: string, b: string)
    ensures CleanText(a + b) <==> CleanText(a) && CleanText(b)
  {
    var s := a + b;
    assert forall i :: 0 <= i < |a| ==> s[i] == a[i];
    assert forall i :: 0 <= i < |b| ==> s[|a| + i] == b[i];
  }

  lemma CleanChar(c: char)
    ensures CleanText(EncodeChar(c)) <==> !ConfigText.IsUnicodeBreak(c)
  {
    if c < ' ' {
      assert !ConfigText.IsUnicodeBreak(HexDigit(c as int / 16)) && !ConfigText.IsUnicodeBreak(HexDigit(c as int % 16));
    } else if EncodeChar(c) == [c] {
      assert [c][0] == c;
    }
  }

  lemma {:induction false} CleanChars(s: string)
    ensures CleanText(EncodeChars(s)) <==> CleanText(s)
  {
    hide EncodeChar;
    if s != "" {
      CleanChar(s[0]);
      CleanChars(s[1..]);
      CleanSum(EncodeChar(s[0]), EncodeChars(s[1..]));
      CleanSum([s[0]], s[1..]);
      assert s == [s[0]] + s[1..] && [s[0]][0] == s[0];
    }
  }

  lemma CleanQuoted(s: string)
    ensures CleanText(EncodeString(s)) <==> CleanText(s)
  {
    CleanChars(s);
    CleanSum("\"", EncodeChars(s));
    CleanSum("\"" + EncodeChars(s), "\"");
  }

  lemma CleanNumber(n: int)
    ensures CleanText(IntText(n))
  {
    assert forall c :: IsDigit(c) ==> !ConfigText.IsUnicodeBreak(c);
  }

  /** A value prints without Unicode line boundaries exactly when it holds none. */
  lemma {:induction false} CleanValue(v: Value)
    ensures CleanText(Encode(v)) <==> Clean(v)
    decreases v
  {
    hide EncodeString, IntText, CleanText;
    Marks();
    match v
    case Str(s) => CleanQuoted(s);
    case Int(n) => CleanNumber(n);
    case List(items) => if items != [] { CleanItems(items); CleanSum("[", EncodeItems(items)); }
    case Obj(fields) => if fields != [] { CleanEntries(fields); CleanSum("{", EncodeFields(fields)); }
    case _ =>
  }

  lemma Marks()
    ensures CleanText("[") && CleanText("]") && CleanText("{") && CleanText("}") && CleanText(", ") && CleanText(": ")
    ensures CleanText(":")
    ensures CleanText("[]") && CleanText("{}") && CleanText("null") && CleanText("true") && CleanText("false")
    ensures CleanText("\n")
  {
  }

  predicate CleanList(items: seq<Value>) { forall i :: 0 <= i < |items| ==> Clean(items[i]) }

  lemma {:induction false} CleanItems(items: seq<Value>)
    requires items != []
    ensures CleanText(EncodeItems(items)) <==> CleanList(items)
    decreases items
  {
    hide CleanText, Clean, Encode;
    Marks();
    var head := Encode(items[0]);
    CleanValue(items[0]);
    assert items == [items[0]] + items[1..];
    if |items| == 1 {
      CleanSum(head, "]");
    } else {
      CleanItems(items[1..]);
      CleanSum(", ", EncodeItems(items[1..]));
      CleanSum(head, ", " + EncodeItems(items[1..]));
      assert CleanList(items) <==> Clean(items[0]) && CleanList(items[1..]) by { CleanListStep(items); }
    }
  }

  lemma CleanListStep(items: seq<Value>)
    requires items != []
    ensures CleanList(items) <==> Clean(items[0]) && CleanList(items[1..])
  {
    hide Clean;
    assert forall i :: 1 <= i < |items| ==> items[i] == items[1..][i - 1];
  }

  lemma CleanFieldsStep(fields: seq<Field<Value>>)
    requires fields != []
    ensures CleanFields(fields) <==> CleanText(fields[0].key) && Clean(fields[0].value) && CleanFields(fields[1..])
  {
    hide Clean, CleanText;
    assert forall i :: 1 <= i < |fields| ==> fields[i] == fields[1..][i - 1];
  }

  lemma {:induction false} CleanEntries(fields: seq<Field<Value>>)
    requires fields != []
    ensures CleanText(EncodeFields(fields)) <==> CleanFields(fields)
    decreases fields
  {
    hide CleanText, Clean, CleanFields, Encode, EncodeString;
    Marks();
    var f, rest := fields[0], fields[1..];
    CleanQuoted(f.key);
    CleanValue(f.value);
    CleanFieldsStep(fields);
    var head := EncodeString(f.key) + ": " + Encode(f.value);
    CleanSum(EncodeString(f.key), ": ");
    CleanSum(EncodeString(f.key) + ": ", Encode(f.value));
    if |fields| == 1 {
      CleanSum(head, "}");
      NothingIsClean(rest);
    } else {
      CleanEntries(rest);
      CleanSum(", ", EncodeFields(rest));
      CleanSum(head, ", " + EncodeFields(rest));
    }
  }

  lemma NothingIsClean(fields: seq<Field<Value>>)
    ensures fields == [] ==> CleanFields(fields)
  {
  }

  predicate CleanLines(lines: seq<string>) { forall i :: 0 <= i < |lines| ==> CleanText(lines[i]) }

  lemma CleanConcat(a: seq<string>, b: seq<string>)
    ensures CleanLines(a + b) <==> CleanLines(a) && CleanLines(b)
  {
    hide CleanText;
    var c := a + b;
    assert forall i :: 0 <= i < |a| ==> c[i] == a[i];
    assert forall i :: 0 <= i < |b| ==> c[|a| + i] == b[i];
  }

  lemma SpacesAreClean(n: nat)
    ensures CleanText(ConfigText.Spaces(n))
  {
  }

  lemma OneLine(line: string)
    ensures CleanLines([line]) <==> CleanText(line)
  {
    hide CleanText;
    assert [line][0] == line;
  }

  lemma CleanObject(fields: seq<Field<Value>>)
    ensures Clean(Obj(fields)) <==> CleanFields(fields)
  {
  }

  lemma {:induction false} CleanField(f: Field<Value>, indent: nat)
    ensures CleanLines(ConfigText.FieldLines(f, indent)) <==> CleanText(f.key) && Clean(f.value)
    decreases f, 1
  {
    hide CleanText, ConfigText.DumpMapping, Encode, CleanFields;
    Marks();
    var start := ConfigText.Spaces(indent) + f.key;
    SpacesAreClean(indent);
    CleanSum(ConfigText.Spaces(indent), f.key);
    if f.value.Obj? {
      CleanSum(start, ":");
      CleanMapping(f.value.fields, indent + 2);
      OneLine(start + ":");
      CleanConcat([start + ":"], ConfigText.DumpMapping(f.value.fields, indent + 2));
      CleanObject(f.value.fields);
      assert f.value == Obj(f.value.fields);
    } else {
      CleanValue(f.value);
      CleanSum(start, ": ");
      CleanSum(start + ": ", Encode(f.value));
      OneLine(start + ": " + Encode(f.value));
    }
  }

  lemma {:induction false} CleanMapping(fields: seq<Field<Value>>, indent: nat)
    ensures CleanLines(ConfigText.DumpMapping(fields, indent)) <==> CleanFields(fields)
    decreases fields, 0
  {
    hide CleanText, ConfigText.FieldLines, CleanLines, CleanFields, Clean;
    if fields == [] {
      NothingIsClean(fields);
      assert CleanLines([]) by { NoLines(); }
    } else {
      CleanField(fields[0], indent);
      CleanMapping(fields[1..], indent);
      CleanConcat(ConfigText.FieldLines(fields[0], indent), ConfigText.DumpMapping(fields[1..], indent));
      CleanFieldsStep(fields);
    }
  }

  lemma NoLines()
    ensures CleanLines([])
  {
  }

  lemma {:induction false} CleanJoin(lines: seq<string>)
    ensures CleanText(ConfigText.Join(lines)) <==> CleanLines(lines)
  {
    hide CleanText;
    if lines == [] {
      assert CleanText("") by { CleanSum("", ""); EmptyIsClean(); }
    } else if |lines| > 1 {
      Marks();
      CleanJoin(lines[1..]);
      CleanSum(lines[0], "\n");
      CleanSum(lines[0] + "\n", ConfigText.Join(lines[1..]));
      CleanConcat([lines[0]], lines[1..]);
      assert lines == [lines[0]] + lines[1..];
    }
  }

  lemma EmptyIsClean()
    ensures CleanText("")
  {
  }

  /** A configuration prints without Unicode line boundaries exactly when it holds none. */
  lemma CleanDump(config: seq<Field<Value>>)
    ensures CleanText(ConfigText.Dump(config)) <==> CleanFields(config)
  {
    hide CleanText, CleanFields, ConfigText.DumpMapping, ConfigText.Join;
    Marks();
    CleanMapping(config, 0);
    CleanJoin(ConfigText.DumpMapping(config, 0));
    CleanSum(ConfigText.Join(ConfigText.DumpMapping(config, 0)), "\n");
  }

  // ----- normalising adds no line boundary -----

  /** Nothing the repository says holds a Unicode line boundary, and `str` and `repr` add none. */
  ghost predicate CleanEnv(env: Env) {
    && CleanText(env.identity) && CleanText(env.branch) && CleanText(env.source)
    && (forall i :: 0 <= i < |env.detected| ==> CleanText(env.detected[i]))
    && forall v :: Clean(v) ==> CleanText(env.text(v)) && CleanText(env.repr(v))
  }

  lemma {:induction false} CleanGet(fields: seq<Field<Value>>, key: string)
    requires CleanFields(fields)
    ensures Get(fields, key).Some? ==> Clean(Get(fields, key).value)
  {
    hide Clean;
    if fields != [] {
      CleanFieldsStep(fields);
      if fields[0].key != key { CleanGet(fields[1..], key); }
    }
  }

  lemma CleanSection(env: Env, fields: seq<Field<Value>>, key: string)
    requires CleanFields(fields)
    ensures Section(env, fields, key).Some? ==> CleanFields(Section(env, fields, key).value)
  {
    hide CleanFields, Get;
    CleanGet(fields, key);
    NothingIsClean([]);
    var v := Get(fields, key);
    if v.Some? && v.value.Obj? {
      CleanObject(v.value.fields);
      assert v.value == Obj(v.value.fields);
    }
  }

  lemma CleanTextOr(env: Env, fields: seq<Field<Value>>, key: string, default: string)
    requires CleanEnv(env) && CleanFields(fields) && CleanText(default)
    ensures CleanText(TextOr(env, Get(fields, key), default))
  {
    hide CleanFields, CleanText, Get;
    CleanGet(fields, key);
  }

  lemma {:induction false} CleanStrip(s: string)
    requires CleanText(s)
    ensures CleanText(ConfigText.Strip(s))
  {
    CleanLStrip(s);
    CleanRStrip(ConfigText.LStrip(s));
  }

  lemma {:induction false} CleanLStrip(s: string)
    requires CleanText(s)
    ensures CleanText(ConfigText.LStrip(s))
  {
    if s != "" && ConfigText.IsSpace(s[0]) { CleanLStrip(s[1..]); }
  }

  lemma {:induction false} CleanRStrip(s: string)
    requires CleanText(s)
    ensures CleanText(ConfigText.RStrip(s))
  {
    if s != "" && ConfigText.IsSpace(s[|s| - 1]) { CleanRStrip(s[..|s| - 1]); }
  }

  lemma CleanRule(env: Env, item: Value)
    requires CleanEnv(env) && Clean(item) && Rule(env, item).Some?
    ensures Clean(Rule(env, item).value)
  {
    hide CleanText, Get, TextOr, ConfigText.Strip, CleanFields;
    var fields := item.fields;
    assert CleanFields(fields);
    LiteralsAreClean();
    CleanTextOr(env, fields, "match", "");
    CleanTextOr(env, fields, "level", "");
    CleanGet(fields, "match");
    var shown := match Get(fields, "match") case None => env.repr(Null) case Some(v) => env.repr(v);
    assert Clean(Null);
    CleanSum("matched ", shown);
    CleanTextOr(env, fields, "reason", "matched " + shown);
    CleanStrip(TextOr(env, Get(fields, "match"), ""));
    CleanStrip(TextOr(env, Get(fields, "reason"), "matched " + shown));
    CleanRuleObject(ConfigText.Strip(TextOr(env, Get(fields, "match"), "")), TextOr(env, Get(fields, "level"), ""),
                    ConfigText.Strip(TextOr(env, Get(fields, "reason"), "matched " + shown)));
  }

  lemma LiteralsAreClean()
    ensures CleanText("") && CleanText("matched ") && CleanText("medium") && CleanText("guarded")
    ensures forall name :: name in POLICY_NAMES || name in LEVELS ==> CleanText(name)
  {
  }

  lemma CleanRuleObject(pattern: string, level: string, reason: string)
    requires CleanText(pattern) && CleanText(level) && CleanText(reason)
    ensures Clean(RuleObject(pattern, level, reason))
  {
    assert CleanText("match") && CleanText("level") && CleanText("reason");
  }

  lemma {:induction false} CleanRules(env: Env, items: seq<Value>)
    requires CleanEnv(env) && CleanList(items) && Rules(env, items).Some?
    ensures CleanList(Rules(env, items).value)
  {
    hide Clean, Rule, CleanEnv;
    if items != [] {
      CleanListStep(items);
      CleanRule(env, items[0]);
      CleanRules(env, items[1..]);
    }
  }

  lemma CleanRisk(env: Env, risk: seq<Field<Value>>)
    requires CleanEnv(env) && CleanFields(risk) && Risk(env, risk).Some?
    ensures CleanFields(Risk(env, risk).value)
  {
    hide CleanFields, CleanText, Get, TextOr, Rules, CleanEnv;
    var raw := Get(risk, "rules");
    CleanGet(risk, "rules");
    var items := if !Truthy(env, raw) then [] else raw.value.items;
    CleanRules(env, items);
    LiteralsAreClean();
    CleanTextOr(env, risk, "default", "medium");
    CleanRiskFields(TextOr(env, Get(risk, "default"), "medium"),
                    Get(risk, "include_builtin_rules").None? || Truthy(env, Get(risk, "include_builtin_rules")),
                    Rules(env, items).value);
  }

  lemma CleanRiskFields(default: string, builtin: bool, rules: seq<Value>)
    requires CleanText(default) && CleanList(rules)
    ensures CleanFields(RiskFields(default, builtin, rules))
  {
    assert CleanText("default") && CleanText("include_builtin_rules") && CleanText("rules");
  }

  lemma {:induction false} CleanWithout(fields: seq<Field<Value>>, key: string)
    requires CleanFields(fields)
    ensures CleanFields(Without(fields, key))
  {
    hide Clean, CleanText;
    if fields != [] {
      CleanFieldsStep(fields);
      CleanWithout(fields[1..], key);
    }
  }

  lemma CleanCommands(env: Env, acceptance: seq<Field<Value>>)
    requires CleanEnv(env) && CleanFields(acceptance)
    ensures CleanList(Commands(env, acceptance))
  {
    hide CleanFields, Get;
    CleanGet(acceptance, "commands");
  }

  lemma CleanId(env: Env, project: seq<Field<Value>>)
    requires Sound(env)
    ensures CleanText(ProjectId(env, project))
  {
    var id := ProjectId(env, project);
    assert IsProjectId(id);
    assert id[..3][0] == id[0] && id[..3][1] == id[1] && id[..3][2] == id[2];
    assert id[0] == 'c' && id[1] == 'p' && id[2] == '_';
  }

  /** The parts of a clean configuration are clean. */
  ghost predicate CleanParts(p: Parts) {
    && CleanText(p.id) && CleanText(p.branch) && CleanText(p.source) && CleanList(p.commands) && CleanFields(p.others)
    && CleanText(p.policy) && CleanFields(p.risk)
  }

  lemma PartsAreClean(env: Env, existing: seq<Field<Value>>)
    requires Sound(env) && CleanEnv(env) && CleanFields(existing) && PartsOf(env, existing).Some?
    ensures CleanParts(PartsOf(env, existing).value)
  {
    hide CleanFields, CleanText, CleanList, Get, TextOr, Truthy, Risk, Without, Commands, ProjectId, Section, Sound,
        CleanEnv;
    CleanSection(env, existing, "project");
    CleanSection(env, existing, "repository");
    CleanSection(env, existing, "acceptance");
    CleanSection(env, existing, "adapters");
    CleanSection(env, existing, "risk");
    EnvTexts(env);
    LiteralsAreClean();
    CleanId(env, Section(env, existing, "project").value);
    CleanTextOr(env, Section(env, existing, "repository").value, "default_branch", env.branch);
    CleanTextOr(env, Section(env, existing, "repository").value, "default_branch_source", env.source);
    CleanCommands(env, Section(env, existing, "acceptance").value);
    CleanWithout(Section(env, existing, "adapters").value, "codex");
    CleanRisk(env, Section(env, existing, "risk").value);
  }

  lemma EnvTexts(env: Env)
    requires CleanEnv(env)
    ensures CleanText(env.branch) && CleanText(env.source) && CleanText(env.identity)
  {
  }

  lemma CleanFieldsConcat(a: seq<Field<Value>>, b: seq<Field<Value>>)
    requires CleanFields(a) && CleanFields(b)
    ensures CleanFields(a + b)
  {
    hide Clean, CleanText;
  }

  lemma CleanConfig(identity: string, p: Parts)
    requires CleanText(identity) && CleanParts(p)
    ensures CleanFields(ConfigOf(identity, p))
  {
    hide CleanList;
    KeysAreClean();
    InnerKeysAreClean();
    var codex := Codex(p.enabled, p.policy);
    assert CleanFields(codex.fields);
    assert CleanFields([Field("codex", codex)]);
    CleanFieldsConcat(p.others, [Field("codex", codex)]);
    ListIsClean(p.commands);
    CleanAcceptance(p);
    assert CleanFields(RepositoryFields(identity, p));
    assert CleanFields([Field("id", Str(p.id))]);
  }

  lemma CleanAcceptance(p: Parts)
    requires CleanList(p.commands)
    ensures CleanFields(AcceptanceFields(p))
  {
    assert CleanText("commands") && CleanText("detected");
    ListIsClean(p.commands);
    assert Clean(Bool(p.commands != []));
  }

  lemma ListIsClean(items: seq<Value>)
    requires CleanList(items)
    ensures Clean(List(items))
  {
  }

  lemma KeysAreClean()
    ensures CleanText("protocol") && CleanText("project") && CleanText("repository") && CleanText("acceptance")
    ensures CleanText("adapters") && CleanText("risk") && CleanText(CURRENT)
  {
  }

  lemma InnerKeysAreClean()
    ensures CleanText("id") && CleanText("identity") && CleanText("default_branch")
    ensures CleanText("default_branch_source")
    ensures CleanText("codex") && CleanText("enabled") && CleanText("policy")
  {
  }

  // ----- the second initialisation -----

  /** For configurations with well-formed keys, in an environment that adds no Unicode line boundary: the
      next initialisation of the repository writes nothing if and only if the configuration holds none. */
  lemma InitIsIdempotentExactly(w: World, f: Files, lives: nat, again: World, enough: nat)
    requires Sound(w.env) && Sound(again.env) && w.env.identity == again.env.identity && w.digest == again.digest
    requires w.now != ""
    requires CleanEnv(again.env) && Init(w, f, lives).end.Finished?
    requires Prepare(w, f, lives).parts.Some? ==> IsConfig(ConfigOf(w.env.identity, Prepare(w, f, lives).parts.value))
    ensures Prepare(w, f, lives).parts.Some?
    ensures var after := Init(w, f, lives).files;
            Init(again, after, enough) == After(after, enough, Finished(false))
            <==> CleanFields(ConfigOf(w.env.identity, Prepare(w, f, lives).parts.value))
  {
    hide Init, Prepare, ConfigOf, ConfigText.Dump, IsConfig, CleanFields, CleanText, Sound, CleanEnv, InSync;
    InitSynchronises(w, f, lives);
    var after, config := Init(w, f, lives).files, ConfigOf(w.env.identity, Prepare(w, f, lives).parts.value);
    if CleanFields(config) {
      InitIsIdempotent(w, f, lives, again, enough);
    } else if Init(again, after, enough) == After(after, enough, Finished(false)) {
      QuietInitIsClean(again, after, enough, config);
      assert false;
    }
  }

  /** A second initialisation that finds nothing to write has read, and would print, clean text. */
  lemma QuietInitIsClean(w: World, f: Files, lives: nat, config: seq<Field<Value>>)
    requires Sound(w.env) && CleanEnv(w.env) && IsConfig(config) && f.config == Some(ConfigText.Dump(config))
    requires Init(w, f, lives) == After(f, lives, Finished(false))
    ensures CleanFields(config)
  {
    hide ConfigOf, ConfigText.Dump, IsConfig, CleanFields, CleanText, Sound, CleanEnv, InSync, PartsOf, CleanParts,
        Init, Prepare;
    InitSynchronises(w, f, lives);
    var c := Prepare(w, f, lives).parts.value;
    QuietPrepare(w, f, lives);
    ConfigLimits.ReadIsClean(config);
    PartsAreClean(w.env, Payload(f));
    EnvTexts(w.env);
    CleanConfig(w.env.identity, c);
    CleanDump(ConfigOf(w.env.identity, c));
    CleanDump(config);
  }

  lemma QuietPrepare(w: World, f: Files, lives: nat)
    requires f.config.Some? && Init(w, f, lives) == After(f, lives, Finished(false))
    ensures Readable(f) && Prepare(w, f, lives).parts == PartsOf(w.env, Payload(f))
  {
    hide PartsOf, ConfigOf, ConfigText.Dump, Migrated, NextState;
    UsesOne(f);
  }

  /** A new project on a branch whose name holds such a character: the first initialisation is finished, and
      the next one in the same repository is not a quiet one, wherever it is called from. */
  lemma DirtyBranchIsNotQuiet(w: World, again: World, enough: nat)
    requires Sound(w.env) && Sound(again.env) && w.env.identity == again.env.identity && w.digest == again.digest
    requires w.now != ""
    requires w.env.branch == "a\U{2028}b" && CleanEnv(again.env)
    ensures var after := Init(w, Files(None, None, None), 2);
            after.end == Finished(true)
                && Init(again, after.files, enough) != After(after.files, enough, Finished(false))
  {
    hide ConfigOf, ConfigText.Dump, IsConfig, CleanFields, CleanEnv, PartsOf, CleanText, Sound;
    var f := Files(None, None, None);
    NewParts(w.env);
    assert Prepare(w, f, 2).parts == PartsOf(w.env, []);
    InitIsIdempotentExactly(w, f, 2, again, enough);
  }

  lemma NewParts(env: Env)
    requires Sound(env)
    ensures PartsOf(env, []).Some?
    ensures var config := ConfigOf(env.identity, PartsOf(env, []).value);
            IsConfig(config) && (env.branch == "a\U{2028}b" ==> !CleanFields(config))
  {
    hide IsConfig, CleanFields, ConfigOf;
    assert Rules(env, []) == Some([]);
    var p := PartsOf(env, []).value;
    CommandsAreTexts(env, []);
    RiskIsRules(env, []);
    ConfigIsConfig(env.identity, p);
    if env.branch == "a\U{2028}b" { DirtyBranch(env.identity, p); }
  }

  lemma DirtyBranch(identity: string, p: Parts)
    requires p.branch == "a\U{2028}b"
    ensures !CleanFields(ConfigOf(identity, p))
  {
    var repository := RepositoryFields(identity, p);
    assert ConfigText.IsUnicodeBreak(p.branch[1]);
    assert repository[1].value == Str(p.branch) && !Clean(repository[1].value);
    assert !CleanFields(repository);
    CleanObject(repository);
    assert ConfigOf(identity, p)[2].value == Obj(repository);
  }
}
