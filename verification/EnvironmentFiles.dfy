/**
 Environment files of Node releases.  The reader follows the quoting rules of `EnvironmentFile=` in
 systemd.exec(5) for double-quoted values: a backslash keeps its place unless a double quote, a
 backslash, a backquote or a dollar sign follows.
 */
module EnvironmentFiles {
  import opened Results
  import opened Identifiers
  import opened Text

  type Environment = map<string, string>

  /** `validate_environment_name` */
  predicate IsName(name: string) {
    && 0 < |name| <= 128
    && IsUpper(name[0])
    && forall i :: 0 <= i < |name| ==> IsUpper(name[i]) || IsDigit(name[i]) || name[i] == '_'
  }

  function Escaped(value: string): string {
    ReplaceChar(ReplaceChar(value, '\\', "\\\\"), '"', "\\\"")
  }

  function Line(name: string, value: string): string {
    name + "=\"" + Escaped(value) + "\"\n"
  }

  function Lines(names: seq<string>, environment: Environment): string
    requires forall n :: n in names ==> n in environment
  {
    if names == [] then ""
    else Lines(names[..|names| - 1], environment) + Line(names[|names| - 1], environment[names[|names| - 1]])
  }

  /** `names` lists the keys once each; the source iterates in ascending order, which does not matter here. */
  ghost predicate Enumerates(names: seq<string>, environment: Environment) {
    && (forall n :: n in names <==> n in environment)
    && (forall i, j :: 0 <= i < j < |names| ==> names[i] != names[j])
  }

  method RenderEnvironmentFile(names: seq<string>, environment: Environment) returns (output: string)
    requires Enumerates(names, environment)
    ensures output == Lines(names, environment)
    ensures (forall n :: n in environment ==> IsName(n)) ==> Read(output) == Some(environment)
  {
    output := "";
    for i := 0 to |names|
      invariant output == Lines(names[..i], environment)
    {
      var name, value := names[i], environment[names[i]];
      assert names[..i + 1][..i] == names[..i];
      var escaped := ReplaceChar(ReplaceChar(value, '\\', "\\\\"), '"', "\\\"");
      ghost var before := output;
      output := output + name;
      output := output + "=\"";
      output := output + escaped;
      output := output + "\"\n";
      assert output == before + Line(name, value);
    }
    assert names[..|names|] == names;
    if forall n :: n in environment ==> IsName(n) {
      FileRoundTrip(names, environment);
    }
  }

  // ----- the reader -----

  datatype Mode = BeforeName | InName | AfterEquals | InQuotes | AfterBackslash | AfterQuotes

  predicate Unescapes(c: char) {
    c == '"' || c == '\\' || c == '`' || c == '$'
  }

  function ReadFrom(s: string, mode: Mode, name: string, value: string, environment: Environment): Option<Environment>
    decreases |s|
  {
    if s == "" then
      if mode.BeforeName? then Some(environment) else None
    else
      var c, rest := s[0], s[1..];
      match mode
      case BeforeName =>
        if c == '\n' then ReadFrom(rest, BeforeName, "", "", environment)
        else ReadFrom(rest, InName, [c], "", environment)
      case InName =>
        if c == '=' then ReadFrom(rest, AfterEquals, name, "", environment)
        else if c == '\n' then None
        else ReadFrom(rest, InName, name + [c], "", environment)
      case AfterEquals => if c == '"' then ReadFrom(rest, InQuotes, name, "", environment) else None
      case InQuotes =>
        if c == '"' then ReadFrom(rest, AfterQuotes, name, value, environment)
        else if c == '\\' then ReadFrom(rest, AfterBackslash, name, value, environment)
        else ReadFrom(rest, InQuotes, name, value + [c], environment)
      case AfterBackslash =>
        ReadFrom(rest, InQuotes, name, if Unescapes(c) then value + [c] else value + ['\\', c], environment)
      case AfterQuotes =>
        if c == '\n' then ReadFrom(rest, BeforeName, "", "", environment[name := value]) else None
  }

  function Read(s: string): Option<Environment> {
    ReadFrom(s, BeforeName, "", "", map[])
  }

  // ----- round trip -----

  function EscapeChar(c: char): string {
    if c == '\\' then "\\\\" else if c == '"' then "\\\"" else [c]
  }

  function Escape(s: string): string {
    if s == "" then "" else EscapeChar(s[0]) + Escape(s[1..])
  }

  lemma EscapeOne(c: char)
    ensures ReplaceChar(ReplaceChar([c], '\\', "\\\\"), '"', "\\\"") == EscapeChar(c)
  {
    assert [c][1..] == "";
    if c == '\\' {
      assert ReplaceChar("\\\\", '"', "\\\"") == "\\\\" by {
        assert "\\\\"[1..] == "\\" && "\\"[1..] == "";
      }
    }
  }

  lemma {:induction false} EscapedIsEscape(s: string)
    ensures Escaped(s) == Escape(s)
  {
    if s != "" {
      var head, tail := [s[0]], s[1..];
      assert s == head + tail;
      ReplaceCharConcat(head, tail, '\\', "\\\\");
      ReplaceCharConcat(ReplaceChar(head, '\\', "\\\\"), ReplaceChar(tail, '\\', "\\\\"), '"', "\\\"");
      EscapeOne(s[0]);
      EscapedIsEscape(tail);
    }
  }

  lemma {:induction false} ReadEscaped(v: string, rest: string, name: string, value: string, environment: Environment)
    ensures ReadFrom(Escape(v) + "\"" + rest, InQuotes, name, value, environment)
         == ReadFrom(rest, AfterQuotes, name, value + v, environment)
  {
    var t := Escape(v) + "\"" + rest;
    if v == "" {
      assert t[0] == '"' && t[1..] == rest && value + v == value;
    } else {
      var tail := Escape(v[1..]) + "\"" + rest;
      assert t == EscapeChar(v[0]) + tail;
      ReadEscaped(v[1..], rest, name, value + [v[0]], environment);
      assert value + [v[0]] + v[1..] == value + v;
      if v[0] == '\\' || v[0] == '"' {
        assert t[0] == '\\' && t[1..][0] == v[0] && t[1..][1..] == tail;
      } else {
        assert t[0] == v[0] && t[1..] == tail;
      }
    }
  }

  lemma {:induction false} ReadName(n: string, rest: string, name: string, environment: Environment)
    requires forall i :: 0 <= i < |n| ==> n[i] != '=' && n[i] != '\n'
    ensures ReadFrom(n + "=" + rest, InName, name, "", environment)
         == ReadFrom(rest, AfterEquals, name + n, "", environment)
  {
    var t := n + "=" + rest;
    if n == "" {
      assert t[0] == '=' && t[1..] == rest && name + n == name;
    } else {
      assert t[0] == n[0] && t[1..] == n[1..] + "=" + rest;
      ReadName(n[1..], rest, name + [n[0]], environment);
      assert name + [n[0]] + n[1..] == name + n;
    }
  }

  lemma ReadLine(name: string, value: string, rest: string, environment: Environment)
    requires IsName(name)
    ensures ReadFrom(Line(name, value) + rest, BeforeName, "", "", environment)
         == ReadFrom(rest, BeforeName, "", "", environment[name := value])
  {
    EscapedIsEscape(value);
    var quoted := "\"" + Escape(value) + "\"" + ("\n" + rest);
    var t := Line(name, value) + rest;
    assert t == name + "=" + quoted;
    assert t[0] == name[0] && t[1..] == name[1..] + "=" + quoted;
    ReadName(name[1..], quoted, [name[0]], environment);
    assert [name[0]] + name[1..] == name;
    assert quoted[0] == '"' && quoted[1..] == Escape(value) + "\"" + ("\n" + rest);
    ReadEscaped(value, "\n" + rest, name, "", environment);
    assert "" + value == value;
    assert ("\n" + rest)[0] == '\n' && ("\n" + rest)[1..] == rest;
  }

  /** The assignments of these names, added in order. */
  function Assigned(names: seq<string>, environment: Environment): Environment
    requires forall n :: n in names ==> n in environment
  {
    map n | n in names :: environment[n]
  }

  lemma {:induction false} ReadLines(names: seq<string>, environment: Environment, rest: string, k: nat)
    requires forall n :: n in names ==> n in environment && IsName(n)
    requires k <= |names|
    ensures ReadFrom(Lines(names[..k], environment) + rest, BeforeName, "", "", map[])
         == ReadFrom(rest, BeforeName, "", "", Assigned(names[..k], environment))
    decreases k
  {
    if k == 0 {
      assert Lines(names[..0], environment) + rest == rest;
      assert Assigned(names[..0], environment) == map[];
    } else {
      var name := names[k - 1];
      var line := Line(name, environment[name]);
      assert names[..k][..k - 1] == names[..k - 1];
      assert Lines(names[..k], environment) + rest == Lines(names[..k - 1], environment) + (line + rest);
      ReadLines(names, environment, line + rest, k - 1);
      ReadLine(name, environment[name], rest, Assigned(names[..k - 1], environment));
      assert Assigned(names[..k - 1], environment)[name := environment[name]] == Assigned(names[..k], environment);
    }
  }

  /** Reading the rendered file returns the environment, whatever backslashes and quotes its values contain. */
  lemma FileRoundTrip(names: seq<string>, environment: Environment)
    requires Enumerates(names, environment)
    requires forall n :: n in environment ==> IsName(n)
    ensures Read(Lines(names, environment)) == Some(environment)
  {
    ReadLines(names, environment, "", |names|);
    assert names[..|names|] == names;
    assert Lines(names, environment) + "" == Lines(names, environment);
    assert Assigned(names, environment) == environment;
  }
}
