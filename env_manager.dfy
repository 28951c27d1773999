/** The `.env` file rewrite of lib/auth/env_manager.js: parse the current file,
    apply the updates, and write back a fixed ten-line layout. The file system
    is the `file` field of `EnvManager`; a missing file is `None`. */
module EnvFile {
  import opened Wrappers
  import opened Strings

  /** The variables being rebuilt. A parsed value is always a string; an update
      may carry `null`/`undefined`, modelled as `None`. */
  type EnvVars = map<string, Option<string>>

  /** The definition carried by one line, if any: blank lines and `#` comments
      carry none, nor does a line whose text before the first `=` is empty. */
  function ParseLine(line: string): (r: Option<(string, string)>)
    ensures Trim(line) != "" && Trim(line)[0] == '=' ==> r.None?
    ensures r.Some? ==> '=' !in r.value.0
  {
    var trimmed := Trim(line);
    if trimmed == "" || trimmed[0] == '#' then None
    else
      var parts := Split(trimmed, '=');
      var key := parts[0];
      if key == "" then None
      else Some((Trim(key), Trim(Join(parts[1..], '='))))
  }

  /** The key/value split happens at the first `=`: the key is the trimmed text
      before it and the value the trimmed text after it, `=` signs included; a
      line without `=` has the empty value. */
  lemma ParseLineAtFirstEquals(line: string)
    requires var t := Trim(line); t != "" && t[0] != '#' && t[0] != '='
    ensures var t := Trim(line);
      if '=' in t then
        var i := FirstIndex(t, '=');
        ParseLine(line) == Some((Trim(t[..i]), Trim(t[i + 1..])))
      else ParseLine(line) == Some((t, ""))
  {
    var t := Trim(line);
    if '=' in t {
      ParseWithEquals(line, t, FirstIndex(t, '='));
    } else {
      TrimIsTrimmed(line);
      TrimIdentity(t);
    }
  }

  lemma ParseWithEquals(line: string, t: string, i: nat)
    requires t == Trim(line) && 0 < i < |t| && t[0] != '#'
    requires t[i] == '=' && '=' !in t[..i]
    ensures ParseLine(line) == Some((Trim(t[..i]), Trim(t[i + 1..])))
  {
    FirstIndexAt(t, '=', i);
    var parts := Split(t, '=');
    assert parts == [t[..i]] + Split(t[i + 1..], '=');
    assert parts[1..] == Split(t[i + 1..], '=');
    JoinSplit(t[i + 1..], '=');
  }

  /** A key that reads back as itself: non-empty, no `=`, not a comment, no
      surrounding whitespace. */
  predicate KeyName(key: string) {
    key != "" && '=' !in key && key[0] != '#' &&
    !IsWhitespace(key[0]) && !IsWhitespace(key[|key| - 1])
  }

  /** The line `KEY=value` of the rewritten file. */
  function Assignment(key: string, value: string): string {
    key + "=" + value
  }

  /** A line that assigns `key` the already-trimmed `value` parses back to that pair. */
  lemma ParseAssignment(key: string, value: string)
    requires KeyName(key)
    requires value == [] || (!IsWhitespace(value[0]) && !IsWhitespace(value[|value| - 1]))
    ensures ParseLine(Assignment(key, value)) == Some((key, value))
  {
    var line := Assignment(key, value);
    assert line[0] == key[0];
    TrimIdentity(line);
    assert line[..|key|] == key;
    FirstIndexAt(line, '=', |key|);
    assert line[|key| + 1..] == value;
    ParseLineAtFirstEquals(line);
    TrimIdentity(key);
    TrimIdentity(value);
  }

  /** The definition each line carries, line by line. */
  function Definitions(lines: seq<string>): (defs: seq<Option<(string, string)>>)
    ensures |defs| == |lines|
    ensures forall i :: 0 <= i < |lines| ==> defs[i] == ParseLine(lines[i])
  {
    seq(|lines|, i requires 0 <= i < |lines| => ParseLine(lines[i]))
  }

  /** One definition recorded in the dictionary: `envVars[key] = value`. */
  function Define(vars: EnvVars, d: Option<(string, string)>): EnvVars
  {
    match d
    case None => vars
    case Some((key, value)) => vars[key := Some(value)]
  }

  /** The dictionary filled from a sequence of definitions, later ones
      overriding earlier ones. */
  function Fold(defs: seq<Option<(string, string)>>): (vars: EnvVars)
    ensures forall k :: k in vars ==> vars[k].Some?
  {
    if defs == [] then map[] else Define(Fold(defs[..|defs| - 1]), defs[|defs| - 1])
  }

  /** One more definition folded in. */
  lemma FoldNext(defs: seq<Option<(string, string)>>, n: nat)
    requires n < |defs|
    ensures Fold(defs[..n + 1]) == Define(Fold(defs[..n]), defs[n])
  {
    assert defs[..n + 1][..n] == defs[..n];
  }

  /** The variables defined by a sequence of lines: the dictionary the
      `forEach` loop fills. */
  function ParseLines(lines: seq<string>): EnvVars {
    Fold(Definitions(lines))
  }

  /** The key a definition sets, if any. */
  function DefinedKey(d: Option<(string, string)>): Option<string> {
    match d
    case None => None
    case Some(kv) => Some(kv.0)
  }

  /** A variable is defined exactly when some line defines it. */
  lemma {:induction false} FoldKeys(defs: seq<Option<(string, string)>>, key: string)
    ensures key in Fold(defs) <==> exists i :: 0 <= i < |defs| && DefinedKey(defs[i]) == Some(key)
    decreases |defs|
  {
    if defs != [] {
      var init := defs[..|defs| - 1];
      FoldKeys(init, key);
      if exists i :: 0 <= i < |init| && DefinedKey(init[i]) == Some(key) {
        var i :| 0 <= i < |init| && DefinedKey(init[i]) == Some(key);
        assert defs[i] == init[i];
      }
      if exists i :: 0 <= i < |defs| && DefinedKey(defs[i]) == Some(key) {
        var i :| 0 <= i < |defs| && DefinedKey(defs[i]) == Some(key);
        if i < |init| {
          assert init[i] == defs[i];
        }
      }
    }
  }

  /** A variable's value is the one its last definition gives. */
  lemma {:induction false} FoldLastWins(defs: seq<Option<(string, string)>>, i: nat, key: string, value: string)
    requires i < |defs| && defs[i] == Some((key, value))
    requires forall j :: i < j < |defs| ==> DefinedKey(defs[j]) != Some(key)
    ensures key in Fold(defs) && Fold(defs)[key] == Some(value)
    decreases |defs|
  {
    if i < |defs| - 1 {
      var init := defs[..|defs| - 1];
      assert init[i] == defs[i];
      FoldLastWins(init, i, key, value);
      assert DefinedKey(defs[|defs| - 1]) != Some(key);
    }
  }

  /** Last write wins: the value of a variable is the one given by the last line
      that defines it. */
  lemma ParseLinesLastWins(lines: seq<string>, i: nat, key: string, value: string)
    requires i < |lines| && ParseLine(lines[i]) == Some((key, value))
    requires forall j :: i < j < |lines| ==> DefinedKey(ParseLine(lines[j])) != Some(key)
    ensures key in ParseLines(lines) && ParseLines(lines)[key] == Some(value)
  {
    FoldLastWins(Definitions(lines), i, key, value);
  }

  /** `content.split('\n')` and the loop over its lines. */
  function Parse(content: string): (vars: EnvVars)
    ensures content == "" ==> vars == map[]
    ensures forall k :: k in vars ==> vars[k].Some?
  {
    var lines := Split(content, '\n');
    // An empty file is the one blank line `""`, which defines nothing.
    if content == "" then
      var defs := Definitions(lines);
      assert lines == [""] && defs == [None] && defs[..0] == [];
      assert Fold(defs) == map[];
      ParseLines(lines)
    else ParseLines(lines)
  }

  /** The parse loop of `updateEnvFile`, filling the dictionary line by line. */
  method ParseEnv(content: string) returns (vars: EnvVars)
    ensures vars == Parse(content)
  {
    var lines := Split(content, '\n');
    ghost var defs := Definitions(lines);
    vars := map[];
    for n := 0 to |lines|
      invariant vars == Fold(defs[..n])
    {
      FoldNext(defs, n);
      vars := Define(vars, ParseLine(lines[n]));
    }
    assert defs[..|lines|] == defs;
  }

  /** `Object.assign(envVars, updates)`. */
  function Apply(vars: EnvVars, updates: EnvVars): (r: EnvVars)
    ensures r.Keys == vars.Keys + updates.Keys
    ensures forall k :: k in updates ==> r[k] == updates[k]
    ensures forall k :: k in vars && k !in updates ==> r[k] == vars[k]
  {
    vars + updates
  }

  const PortDefault := "3001"
  const ServerUrlDefault := "http://localhost:4001"

  /** `envVars.KEY || fallback`: a missing, null or empty value takes the fallback. */
  function ValueOr(vars: EnvVars, key: string, fallback: string): (v: string)
    ensures v == fallback || (key in vars && vars[key] == Some(v) && v != "")
    ensures key in vars && vars[key].Some? && vars[key].value != "" ==> v == vars[key].value
    ensures !(key in vars && vars[key].Some? && vars[key].value != "") ==> v == fallback
  {
    if key in vars && vars[key].Some? && vars[key].value != "" then vars[key].value else fallback
  }

  /** The six variables the layout writes, in file order. */
  const LayoutKeys: seq<string> := ["PORT", "ELIXIR_SERVER_URL", "AUTH_TOKEN", "DEVICE_ID", "DEVICE_NAME", "SERVER_HOST"]

  /** The six values a rebuilt file holds. */
  datatype Settings = Settings(port: string, serverUrl: string, authToken: string,
                               deviceId: string, deviceName: string, serverHost: string)

  /** The values the template literals substitute: each variable or its fallback. */
  function Values(vars: EnvVars): (s: Settings)
    ensures s.port != "" && s.serverUrl != ""
  {
    Settings(ValueOr(vars, "PORT", PortDefault),
             ValueOr(vars, "ELIXIR_SERVER_URL", ServerUrlDefault),
             ValueOr(vars, "AUTH_TOKEN", ""),
             ValueOr(vars, "DEVICE_ID", ""),
             ValueOr(vars, "DEVICE_NAME", ""),
             ValueOr(vars, "SERVER_HOST", ""))
  }

  const ServerComment := "# Server Configuration"
  // Written in pieces so that facts about its characters stay cheap to check.
  const AuthComment := "# Persistent " + "Authentication " + "(auto-populated " + "after successful " + "auth)"

  /** The ten lines of the rewritten file, the last one empty. */
  function Lines(s: Settings): (lines: seq<string>)
    ensures |lines| == 10 && lines[9] == ""
    ensures SingleLine(s) ==> forall i :: 0 <= i < |lines| ==> '\n' !in lines[i]
  {
    CommentsHaveNoNewline();
    [ ServerComment,
      Assignment("PORT", s.port),
      Assignment("ELIXIR_SERVER_URL", s.serverUrl),
      "",
      AuthComment,
      Assignment("AUTH_TOKEN", s.authToken),
      Assignment("DEVICE_ID", s.deviceId),
      Assignment("DEVICE_NAME", s.deviceName),
      Assignment("SERVER_HOST", s.serverHost),
      "" ]
  }

  /** The text written to the file. */
  function Rebuild(vars: EnvVars): (text: string)
    ensures EndsWith(text, "\n")
  {
    var lines := Lines(Values(vars));
    assert lines == lines[..9] + [""];
    JoinLast(lines[..9], '\n');
    Join(lines, '\n')
  }

  /** No value holds a line break. */
  predicate SingleLine(s: Settings) {
    '\n' !in s.port && '\n' !in s.serverUrl && '\n' !in s.authToken &&
    '\n' !in s.deviceId && '\n' !in s.deviceName && '\n' !in s.serverHost
  }

  /** The written text always ends in a newline, and when no value holds a
      newline it splits back into exactly the ten layout lines. */
  lemma RebuildShape(vars: EnvVars)
    ensures EndsWith(Rebuild(vars), "\n")
    ensures SingleLine(Values(vars)) ==> Split(Rebuild(vars), '\n') == Lines(Values(vars))
  {
    if SingleLine(Values(vars)) {
      SplitJoin(Lines(Values(vars)), '\n');
    }
  }

  lemma CommentsHaveNoNewline()
    ensures '\n' !in ServerComment && '\n' !in AuthComment
  {
  }

  /** Joining pieces whose last one is empty ends in the separator. */
  lemma {:induction false} JoinLast(parts: seq<string>, sep: char)
    requires |parts| >= 1
    ensures Join(parts + [""], sep) == Join(parts, sep) + [sep]
  {
    if |parts| > 1 {
      assert (parts + [""])[1..] == parts[1..] + [""];
      JoinLast(parts[1..], sep);
    }
  }

  /** A value that survives a line's trim and split: no line break, no
      surrounding whitespace. */
  predicate Plain(v: string) {
    '\n' !in v && (v == [] || (!IsWhitespace(v[0]) && !IsWhitespace(v[|v| - 1])))
  }

  predicate Rewritable(s: Settings) {
    Plain(s.port) && Plain(s.serverUrl) && Plain(s.authToken) &&
    Plain(s.deviceId) && Plain(s.deviceName) && Plain(s.serverHost)
  }

  /** The six variables a file with these values defines. */
  function Written(s: Settings): EnvVars {
    map[ "PORT" := Some(s.port),
         "ELIXIR_SERVER_URL" := Some(s.serverUrl),
         "AUTH_TOKEN" := Some(s.authToken),
         "DEVICE_ID" := Some(s.deviceId),
         "DEVICE_NAME" := Some(s.deviceName),
         "SERVER_HOST" := Some(s.serverHost) ]
  }

  /** Re-parsing a rebuilt file gives back the six values it wrote, provided none
      of them holds a newline or surrounding whitespace. */
  lemma ReparseRebuild(vars: EnvVars)
    requires Rewritable(Values(vars))
    ensures Parse(Rebuild(vars)) == Written(Values(vars))
  {
    RebuildShape(vars);
    LinesParse(Values(vars));
  }

  /** The definitions of the ten layout lines fold to the six written values. */
  lemma LinesParse(s: Settings)
    requires Rewritable(s)
    ensures ParseLines(Lines(s)) == Written(s)
  {
    LayoutParse(s, Lines(s));
  }

  /** `LinesParse` over any ten lines shaped like the layout. */
  lemma LayoutParse(s: Settings, lines: seq<string>)
    requires Rewritable(s) && |lines| == 10
    requires lines[0] == ServerComment && lines[3] == "" && lines[4] == AuthComment && lines[9] == ""
    requires lines[1] == Assignment("PORT", s.port)
    requires lines[2] == Assignment("ELIXIR_SERVER_URL", s.serverUrl)
    requires lines[5] == Assignment("AUTH_TOKEN", s.authToken)
    requires lines[6] == Assignment("DEVICE_ID", s.deviceId)
    requires lines[7] == Assignment("DEVICE_NAME", s.deviceName)
    requires lines[8] == Assignment("SERVER_HOST", s.serverHost)
    ensures Fold(Definitions(lines)) == Written(s)
  {
    var defs := Definitions(lines);
    LayoutKeyNames();
    ParseAssignment("PORT", s.port);
    ParseAssignment("ELIXIR_SERVER_URL", s.serverUrl);
    ParseAssignment("AUTH_TOKEN", s.authToken);
    ParseAssignment("DEVICE_ID", s.deviceId);
    ParseAssignment("DEVICE_NAME", s.deviceName);
    ParseAssignment("SERVER_HOST", s.serverHost);
    CommentLinesParse();
    FoldLayout(s, defs);
  }

  /** The fold over the definitions of the ten layout lines, one line at a time. */
  lemma FoldLayout(s: Settings, defs: seq<Option<(string, string)>>)
    requires |defs| == 10
    requires defs[0] == None && defs[3] == None && defs[4] == None && defs[9] == None
    requires defs[1] == Some(("PORT", s.port))
    requires defs[2] == Some(("ELIXIR_SERVER_URL", s.serverUrl))
    requires defs[5] == Some(("AUTH_TOKEN", s.authToken))
    requires defs[6] == Some(("DEVICE_ID", s.deviceId))
    requires defs[7] == Some(("DEVICE_NAME", s.deviceName))
    requires defs[8] == Some(("SERVER_HOST", s.serverHost))
    ensures Fold(defs) == Written(s)
  {
    assert Fold(defs[..1]) == map[] by { assert defs[..1][..0] == []; }
    assert defs[..2][..1] == defs[..1];
    var m2 := map["PORT" := Some(s.port)];
    assert Fold(defs[..2]) == m2;
    assert defs[..3][..2] == defs[..2];
    var m3 := m2["ELIXIR_SERVER_URL" := Some(s.serverUrl)];
    assert Fold(defs[..3]) == m3;
    assert defs[..4][..3] == defs[..3];
    assert Fold(defs[..4]) == m3;
    assert defs[..5][..4] == defs[..4];
    assert Fold(defs[..5]) == m3;
    assert defs[..6][..5] == defs[..5];
    var m6 := m3["AUTH_TOKEN" := Some(s.authToken)];
    assert Fold(defs[..6]) == m6;
    assert defs[..7][..6] == defs[..6];
    var m7 := m6["DEVICE_ID" := Some(s.deviceId)];
    assert Fold(defs[..7]) == m7;
    assert defs[..8][..7] == defs[..7];
    var m8 := m7["DEVICE_NAME" := Some(s.deviceName)];
    assert Fold(defs[..8]) == m8;
    assert defs[..9][..8] == defs[..8];
    var m9 := m8["SERVER_HOST" := Some(s.serverHost)];
    assert Fold(defs[..9]) == m9;
    assert defs[..10][..9] == defs[..9];
    assert defs[..10] == defs;
  }

  lemma LayoutKeyNames()
    ensures KeyName("PORT") && KeyName("ELIXIR_SERVER_URL") && KeyName("AUTH_TOKEN")
    ensures KeyName("DEVICE_ID") && KeyName("DEVICE_NAME") && KeyName("SERVER_HOST")
  {
    assert KeyName("PORT");
    assert KeyName("ELIXIR_SERVER_URL");
    assert KeyName("AUTH_TOKEN");
    assert KeyName("DEVICE_ID");
    assert KeyName("DEVICE_NAME");
  }

  lemma CommentLinesParse()
    ensures ParseLine(ServerComment) == None && ParseLine(AuthComment) == None && ParseLine("") == None
  {
    TrimIdentity(ServerComment);
    TrimIdentity(AuthComment);
    CommentLine(ServerComment);
    CommentLine(AuthComment);
  }

  /** A line whose trimmed text starts with `#` defines nothing, whatever
      surrounds it. */
  lemma CommentLine(line: string)
    requires Trim(line) != [] && Trim(line)[0] == '#'
    ensures ParseLine(line) == None
  {
  }

  /** The values read back from a written file are the values written, so a
      second rebuild without updates writes the same text. */
  lemma RebuildFixedPoint(vars: EnvVars)
    requires Rewritable(Values(vars))
    ensures Values(Parse(Rebuild(vars))) == Values(vars)
    ensures Rebuild(Apply(Parse(Rebuild(vars)), map[])) == Rebuild(vars)
  {
    var parsed := Parse(Rebuild(vars));
    assert parsed == Written(Values(vars)) by { ReparseRebuild(vars); }
    assert Values(parsed) == Values(vars) by { ValuesWritten(Values(vars)); }
    ApplyNothing(parsed);
  }

  lemma ApplyNothing(vars: EnvVars)
    ensures Apply(vars, map[]) == vars
  {
    assert vars + map[] == vars;
  }

  /** Reading the values back from the six written variables gives the values,
      as long as the two with fallbacks are non-empty. */
  lemma ValuesWritten(s: Settings)
    requires s.port != "" && s.serverUrl != ""
    ensures Values(Written(s)) == s
  {
  }

  /** Variables outside the layout never reach the file. */
  lemma RebuildDropsOtherKeys(vars: EnvVars, key: string, v: Option<string>)
    requires key !in LayoutKeys
    ensures Values(vars[key := v]) == Values(vars)
  {
  }

  /** The updates `clearAuthFromEnv` applies. */
  const ClearUpdates: EnvVars := map["AUTH_TOKEN" := Some(""), "DEVICE_ID" := Some(""), "DEVICE_NAME" := Some(""), "SERVER_HOST" := Some("")]

  /** Clearing the credentials empties the four auth values and keeps the two
      server values. */
  lemma ClearKeepsServerLines(vars: EnvVars)
    ensures Values(Apply(vars, ClearUpdates)) ==
      Values(vars).(authToken := "", deviceId := "", deviceName := "", serverHost := "")
  {
  }

  class EnvManager {
    /** The content of `.env`, or `None` when the file does not exist. */
    var file: Option<string>

    constructor (file: Option<string>)
      ensures this.file == file
    {
      this.file := file;
    }

    /** The text `updateEnvFile` writes for the current file and `updates`. */
    function Updated(updates: EnvVars): (text: string)
      reads this
      ensures file.None? ==> text == Rebuild(updates)
      ensures EndsWith(text, "\n")
    {
      Rebuild(Apply(Parse(file.GetOr("")), updates))
    }

    method UpdateEnvFile(updates: EnvVars)
      modifies this
      ensures file == Some(old(Updated(updates)))
    {
      var content := "";
      if file.Some? {
        content := file.value;
      }
      var envVars := ParseEnv(content);
      envVars := envVars + updates;
      file := Some(Rebuild(envVars));
    }

    method ClearAuthFromEnv()
      modifies this
      ensures file == Some(old(Updated(ClearUpdates)))
    {
      UpdateEnvFile(ClearUpdates);
    }
  }
}
