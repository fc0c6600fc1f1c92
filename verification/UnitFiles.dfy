/**
 systemd unit text: quoted command lines and escaped paths.

 The readers follow systemd.syntax(7), section QUOTING, systemd.service(5), section COMMAND LINES,
 and systemd.unit(5), section SPECIFIERS, of which only `%%` is read.
 */
module UnitFiles {
  import opened Results
  import opened Text
  import opened Identifiers

  // ----- the printer -----

  function SystemdQuote(value: string): string {
    "\"" + ReplaceChar(ReplaceChar(ReplaceChar(value, '%', "%%"), '\\', "\\\\"), '"', "\\\"") + "\""
  }

  function QuoteAll(argv: seq<string>): seq<string> {
    seq(|argv|, i requires 0 <= i < |argv| => SystemdQuote(argv[i]))
  }

  /** The command of a worker, of a scheduled process and of a health check. */
  function RenderCommand(argv: seq<string>): string {
    Join(QuoteAll(argv), " ")
  }

  /** In a Node release unit a leading `node` stands for the system's binary. */
  function NodeArgv(argv: seq<string>): seq<string> {
    if argv != [] && argv[0] == "node" then ["/usr/bin/node"] + argv[1..] else argv
  }

  function RenderNodeCommand(argv: seq<string>): string {
    Join(seq(|argv|, i requires 0 <= i < |argv| =>
        if i == 0 && argv[i] == "node" then SystemdQuote("/usr/bin/node") else SystemdQuote(argv[i])), " ")
  }

  /** One `Environment=` assignment of a process. */
  function RenderAssignment(key: string, value: string): string {
    SystemdQuote(key + "=" + value)
  }

  // ----- the reader -----

  datatype Mode = Between | Bare | Quoted(mark: char)

  predicate IsBreak(c: char) {
    c == ' ' || c == '\t' || c == '\n' || c == '\r'
  }

  /** Escapes of one character after the backslash. */
  function Unescape(c: char): Option<char> {
    if c == '\\' || c == '"' || c == '\'' then Some(c)
    else if c == 'n' then Some('\n')
    else if c == 'r' then Some('\r')
    else if c == 't' then Some('\t')
    else if c == 's' then Some(' ')
    else if c == 'a' then Some('\U{7}')
    else if c == 'b' then Some('\U{8}')
    else if c == 'v' then Some('\U{B}')
    else if c == 'f' then Some('\U{C}')
    else None
  }

  function Cons(word: string, words: Option<seq<string>>): Option<seq<string>> {
    if words.Some? then Some([word] + words.value) else None
  }

  /** Splits a line into words and removes quotes and backslashes; `word` is what was read of the current word. */
  function Words(s: string, mode: Mode, word: string): Option<seq<string>>
    decreases |s|, if mode.Between? then 1 else 0
  {
    match mode
    case Between =>
      if s == "" then Some([])
      else if IsBreak(s[0]) then Words(s[1..], Between, "")
      else Words(s, Bare, "")
    case Bare =>
      if s == "" then Some([word])
      else if IsBreak(s[0]) then Cons(word, Words(s[1..], Between, ""))
      else if s[0] == '"' || s[0] == '\'' then Words(s[1..], Quoted(s[0]), word)
      else if s[0] == '\\' then
        if |s| >= 2 && Unescape(s[1]).Some? then Words(s[2..], Bare, word + [Unescape(s[1]).value]) else None
      else Words(s[1..], Bare, word + [s[0]])
    case Quoted(mark) =>
      if s == "" then None
      else if s[0] == mark then Words(s[1..], Bare, word)
      else if s[0] == '\\' then
        if |s| >= 2 && Unescape(s[1]).Some? then Words(s[2..], Quoted(mark), word + [Unescape(s[1]).value]) else None
      else Words(s[1..], Quoted(mark), word + [s[0]])
  }

  /** Specifiers: `%%` is a percent sign, any other one is not read. */
  function Specifiers(s: string): Option<string> {
    if s == "" then Some("")
    else if s[0] == '%' then
      if |s| >= 2 && s[1] == '%' && Specifiers(s[2..]).Some? then Some("%" + Specifiers(s[2..]).value) else None
    else if Specifiers(s[1..]).Some? then Some([s[0]] + Specifiers(s[1..]).value)
    else None
  }

  function SpecifiersOfAll(words: seq<string>): Option<seq<string>> {
    if words == [] then Some([])
    else
      var first := Specifiers(words[0]);
      if first.None? then None else Cons(first.value, SpecifiersOfAll(words[1..]))
  }

  function ReadCommand(line: string): Option<seq<string>> {
    var words := Words(line, Between, "");
    if words.None? then None else SpecifiersOfAll(words.value)
  }

  // ----- one escape per character -----

  function EscapeChar(c: char): string {
    if c == '%' then "%%" else if c == '\\' then "\\\\" else if c == '"' then "\\\"" else [c]
  }

  function Escape(s: string): string {
    if s == "" then "" else EscapeChar(s[0]) + Escape(s[1..])
  }

  lemma EscapeOne(c: char)
    ensures ReplaceChar(ReplaceChar(ReplaceChar([c], '%', "%%"), '\\', "\\\\"), '"', "\\\"") == EscapeChar(c)
  {
    assert [c][1..] == "";
    if c == '%' {
      assert ReplaceChar("%%", '\\', "\\\\") == "%" + ReplaceChar("%%"[1..], '\\', "\\\\") == "%%" by {
        assert "%%"[1..] == "%" && "%"[1..] == "";
      }
      assert ReplaceChar("%%", '"', "\\\"") == "%%" by {
        assert "%%"[1..] == "%" && "%"[1..] == "";
      }
    } else if c == '\\' {
      assert ReplaceChar("\\\\", '"', "\\\"") == "\\\\" by {
        assert "\\\\"[1..] == "\\" && "\\"[1..] == "";
      }
    }
  }

  /** The three replacements in a row are one escape per character: none touches what another one wrote. */
  lemma {:induction false} QuoteEscapes(s: string)
    ensures SystemdQuote(s) == "\"" + Escape(s) + "\""
  {
    ReplaceThrice(s);
  }

  lemma {:induction false} ReplaceThrice(s: string)
    ensures ReplaceChar(ReplaceChar(ReplaceChar(s, '%', "%%"), '\\', "\\\\"), '"', "\\\"") == Escape(s)
  {
    if s != "" {
      var head, tail := [s[0]], s[1..];
      assert s == head + tail;
      ReplaceCharConcat(head, tail, '%', "%%");
      var head1, tail1 := ReplaceChar(head, '%', "%%"), ReplaceChar(tail, '%', "%%");
      ReplaceCharConcat(head1, tail1, '\\', "\\\\");
      var head2, tail2 := ReplaceChar(head1, '\\', "\\\\"), ReplaceChar(tail1, '\\', "\\\\");
      ReplaceCharConcat(head2, tail2, '"', "\\\"");
      EscapeOne(s[0]);
      ReplaceThrice(tail);
    }
  }

  // ----- round trip -----

  /** What is left of a value after unquoting: its percent signs are still doubled. */
  function Doubled(s: string): string {
    if s == "" then "" else (if s[0] == '%' then "%%" else [s[0]]) + Doubled(s[1..])
  }

  lemma {:induction false} SpecifiersOfDoubled(s: string)
    ensures Specifiers(Doubled(s)) == Some(s)
  {
    if s != "" {
      SpecifiersOfDoubled(s[1..]);
      var d := Doubled(s);
      if s[0] == '%' {
        assert d == "%%" + Doubled(s[1..]) && d[2..] == Doubled(s[1..]);
        assert "%" + s[1..] == s;
      } else {
        assert d[1..] == Doubled(s[1..]);
        assert [s[0]] + s[1..] == s;
      }
    }
  }

  /** Inside double quotes, reading one escaped character adds it to the word; a specifier stays doubled. */
  lemma WordsOfChar(c: char, tail: string, word: string)
    ensures Words(EscapeChar(c) + tail, Quoted('"'), word) == Words(tail, Quoted('"'), word + Doubled([c]))
  {
    var t := EscapeChar(c) + tail;
    assert Doubled([c]) == if c == '%' then "%%" else [c] by {
      assert [c][1..] == "";
    }
    if c == '%' {
      assert t[0] == '%' && t[1..][0] == '%' && t[1..][1..] == tail;
      assert word + ['%'] + ['%'] == word + "%%";
    } else if c == '\\' || c == '"' {
      assert t[0] == '\\' && t[1] == c && t[2..] == tail;
    } else {
      assert t[0] == c && t[1..] == tail;
    }
  }

  lemma {:induction false} WordsOfEscaped(s: string, rest: string, word: string)
    ensures Words(Escape(s) + "\"" + rest, Quoted('"'), word) == Words(rest, Bare, word + Doubled(s))
  {
    if s == "" {
      var t := Escape(s) + "\"" + rest;
      assert t[0] == '"' && t[1..] == rest;
      assert word + Doubled(s) == word;
    } else {
      hide Words;
      var tail := Escape(s[1..]) + "\"" + rest;
      assert Escape(s) + "\"" + rest == EscapeChar(s[0]) + tail;
      WordsOfChar(s[0], tail, word);
      WordsOfEscaped(s[1..], rest, word + Doubled([s[0]]));
      assert Doubled([s[0]]) + Doubled(s[1..]) == Doubled(s) by {
        assert [s[0]][1..] == "";
      }
      assert word + Doubled([s[0]]) + Doubled(s[1..]) == word + Doubled(s);
    }
  }

  lemma WordsOfQuoted(s: string, rest: string)
    ensures Words(SystemdQuote(s) + rest, Between, "") == Words(rest, Bare, Doubled(s))
  {
    QuoteEscapes(s);
    var t := SystemdQuote(s) + rest;
    assert t[0] == '"' && t[1..] == Escape(s) + "\"" + rest;
    WordsOfEscaped(s, rest, "");
    assert "" + Doubled(s) == Doubled(s);
  }

  function DoubledAll(argv: seq<string>): seq<string> {
    seq(|argv|, i requires 0 <= i < |argv| => Doubled(argv[i]))
  }

  lemma {:induction false} WordsOfCommand(argv: seq<string>)
    ensures Words(RenderCommand(argv), Between, "") == Some(DoubledAll(argv))
    decreases |argv|
  {
    if argv == [] {
    } else if |argv| == 1 {
      WordsOfQuoted(argv[0], "");
      assert SystemdQuote(argv[0]) + "" == SystemdQuote(argv[0]);
      assert DoubledAll(argv) == [Doubled(argv[0])];
    } else {
      var rest := RenderCommand(argv[1..]);
      assert QuoteAll(argv)[1..] == QuoteAll(argv[1..]);
      assert RenderCommand(argv) == SystemdQuote(argv[0]) + (" " + rest);
      WordsOfQuoted(argv[0], " " + rest);
      assert (" " + rest)[1..] == rest;
      WordsOfCommand(argv[1..]);
      assert DoubledAll(argv) == [Doubled(argv[0])] + DoubledAll(argv[1..]);
    }
  }

  lemma {:induction false} SpecifiersOfCommand(argv: seq<string>)
    ensures SpecifiersOfAll(DoubledAll(argv)) == Some(argv)
    decreases |argv|
  {
    if argv != [] {
      SpecifiersOfDoubled(argv[0]);
      SpecifiersOfCommand(argv[1..]);
      assert DoubledAll(argv)[1..] == DoubledAll(argv[1..]);
      assert [argv[0]] + argv[1..] == argv;
    }
  }

  /** systemd reads back exactly the argument vector, whatever its arguments contain. */
  lemma CommandRoundTrip(argv: seq<string>)
    ensures ReadCommand(RenderCommand(argv)) == Some(argv)
  {
    WordsOfCommand(argv);
    SpecifiersOfCommand(argv);
  }

  lemma NodeCommandRoundTrip(argv: seq<string>)
    ensures ReadCommand(RenderNodeCommand(argv)) == Some(NodeArgv(argv))
  {
    hide SystemdQuote, Join, ReadCommand;
    var parts := seq(|argv|, i requires 0 <= i < |argv| =>
        if i == 0 && argv[i] == "node" then SystemdQuote("/usr/bin/node") else SystemdQuote(argv[i]));
    assert parts == QuoteAll(NodeArgv(argv));
    CommandRoundTrip(NodeArgv(argv));
  }

  /** A process's environment assignment is read back as its name and value. */
  lemma AssignmentRoundTrip(key: string, value: string)
    requires !Contains(key, '=')
    ensures ReadCommand(RenderAssignment(key, value)) == Some([key + "=" + value])
    ensures Split(key + "=" + value, '=')[0] == key && (key + "=" + value)[|key| + 1..] == value
  {
    CommandRoundTrip([key + "=" + value]);
    assert QuoteAll([key + "=" + value]) == [RenderAssignment(key, value)];
    SplitHead(key, value, '=');
    assert key + "=" + value == key + ['='] + value;
  }

  // ----- one line -----

  /** `validate_command`, but for the bound on the length of an argument. */
  predicate NoLineBreak(s: string) {
    forall i :: 0 <= i < |s| ==> s[i] != '\n' && s[i] != '\r' && s[i] != '\0'
  }

  lemma {:induction false} EscapeKeepsLine(s: string)
    requires NoLineBreak(s)
    ensures NoLineBreak(Escape(s))
  {
    if s != "" {
      assert NoLineBreak(s[1..]) by {
        forall i | 0 <= i < |s[1..]|
          ensures s[1..][i] != '\n' && s[1..][i] != '\r' && s[1..][i] != '\0'
        {
          assert s[1..][i] == s[i + 1];
        }
      }
      EscapeKeepsLine(s[1..]);
      assert NoLineBreak(EscapeChar(s[0]));
    }
  }

  /** The printed command of a validated argument vector stays on its line of the unit file. */
  lemma {:induction false} CommandStaysOnLine(argv: seq<string>)
    requires forall i :: 0 <= i < |argv| ==> NoLineBreak(argv[i])
    ensures NoLineBreak(RenderCommand(argv))
    decreases |argv|
  {
    if argv != [] {
      QuoteEscapes(argv[0]);
      EscapeKeepsLine(argv[0]);
      assert NoLineBreak(SystemdQuote(argv[0]));
      if |argv| > 1 {
        CommandStaysOnLine(argv[1..]);
        assert QuoteAll(argv)[1..] == QuoteAll(argv[1..]);
        assert RenderCommand(argv) == SystemdQuote(argv[0]) + " " + RenderCommand(argv[1..]);
      }
    }
  }

  // ----- paths -----

  type Byte = b: int | 0 <= b < 256

  predicate IsPlain(b: Byte) {
    || '0' as int <= b <= '9' as int || 'A' as int <= b <= 'Z' as int || 'a' as int <= b <= 'z' as int
    || b == '/' as int || b == '.' as int || b == '_' as int || b == '-' as int || b == '@' as int
    || b == ':' as int || b == '+' as int || b == ',' as int || b == '=' as int
  }

  function HexDigit(n: nat): char
    requires n < 16
  {
    "0123456789abcdef"[n]
  }

  function HexValue(c: char): Option<nat> {
    if '0' <= c <= '9' then Some(c as int - '0' as int)
    else if 'a' <= c <= 'f' then Some(c as int - 'a' as int + 10)
    else if 'A' <= c <= 'F' then Some(c as int - 'A' as int + 10)
    else None
  }

  function EscapeByte(b: Byte): string {
    if IsPlain(b) then [b as char]
    else if b == '%' as int then "%%"
    else ['\\', 'x', HexDigit(b / 16), HexDigit(b % 16)]
  }

  function EscapePath(value: seq<Byte>): string {
    if value == [] then "" else EscapePath(value[..|value| - 1]) + EscapeByte(value[|value| - 1])
  }

  /** `systemd_path_value` */
  method SystemdPathValue(value: seq<Byte>) returns (escaped: string)
    ensures escaped == EscapePath(value)
    ensures ReadPath(escaped) == Some(value)
  {
    escaped := "";
    for i := 0 to |value|
      invariant escaped == EscapePath(value[..i])
    {
      var b := value[i];
      assert value[..i + 1][..i] == value[..i];
      if IsPlain(b) {
        escaped := escaped + [b as char];
      } else if b == '%' as int {
        escaped := escaped + "%%";
      } else {
        escaped := escaped + ['\\', 'x', HexDigit(b / 16), HexDigit(b % 16)];
      }
    }
    assert value[..|value|] == value;
    PathRoundTrip(value);
  }

  predicate IsPathByte(b: Byte) {
    || IsDigit(b as char) || IsLower(b as char) || IsUpper(b as char) || b as char in "/._-@:+,="
  }

  /** A path is printed as it is if and only if it has no other bytes than those that need no escape. */
  lemma {:induction false} PlainPathsStay(value: seq<Byte>)
    ensures |EscapePath(value)| >= |value|
    ensures |EscapePath(value)| == |value| <==> forall i :: 0 <= i < |value| ==> IsPathByte(value[i])
    ensures |EscapePath(value)| == |value| ==> forall i :: 0 <= i < |value| ==> EscapePath(value)[i] as int == value[i]
  {
    if value != [] {
      PlainPathsStay(value[..|value| - 1]);
      PlainBytes(value[|value| - 1]);
      hide IsPathByte;
    }
  }

  lemma PlainBytes(b: Byte)
    ensures IsPathByte(b) <==> IsPlain(b)
  {
  }

  /** Reads hexadecimal escapes and `%%` back into bytes. */
  function ReadPath(s: string): Option<seq<Byte>> {
    if s == "" then Some([])
    else if s[0] == '\\' then
      if |s| >= 4 && s[1] == 'x' && HexValue(s[2]).Some? && HexValue(s[3]).Some? && ReadPath(s[4..]).Some? then
        Some([16 * HexValue(s[2]).value + HexValue(s[3]).value] + ReadPath(s[4..]).value)
      else None
    else if s[0] == '%' then
      if |s| >= 2 && s[1] == '%' && ReadPath(s[2..]).Some? then Some(['%' as int] + ReadPath(s[2..]).value) else None
    else if s[0] < '\U{80}' && ReadPath(s[1..]).Some? then Some([s[0] as int] + ReadPath(s[1..]).value)
    else None
  }

  lemma HexRoundTrip(n: nat)
    requires n < 16
    ensures HexValue(HexDigit(n)) == Some(n)
  {
  }

  lemma ReadEscapedByte(b: Byte, rest: string)
    requires ReadPath(rest).Some?
    ensures ReadPath(EscapeByte(b) + rest) == Some([b] + ReadPath(rest).value)
  {
    var t := EscapeByte(b) + rest;
    if IsPlain(b) {
      assert t[0] == b as char && t[1..] == rest;
    } else if b == '%' as int {
      assert t[0] == '%' && t[1] == '%' && t[2..] == rest;
    } else {
      HexRoundTrip(b / 16);
      HexRoundTrip(b % 16);
      assert t[0] == '\\' && t[1] == 'x' && t[2] == HexDigit(b / 16) && t[3] == HexDigit(b % 16) && t[4..] == rest;
    }
  }

  lemma {:induction false} ReadEscapedPath(value: seq<Byte>, rest: string)
    requires ReadPath(rest).Some?
    ensures ReadPath(EscapePath(value) + rest) == Some(value + ReadPath(rest).value)
    decreases |value|
  {
    hide ReadPath, EscapeByte;
    if value == [] {
      assert EscapePath(value) + rest == rest;
      assert value + ReadPath(rest).value == ReadPath(rest).value;
    } else {
      var front, last := value[..|value| - 1], value[|value| - 1];
      ReadEscapedByte(last, rest);
      ReadEscapedPath(front, EscapeByte(last) + rest);
      assert EscapePath(value) + rest == EscapePath(front) + (EscapeByte(last) + rest);
      assert front + ([last] + ReadPath(rest).value) == value + ReadPath(rest).value;
    }
  }

  /** A path is read back byte for byte. */
  lemma PathRoundTrip(value: seq<Byte>)
    ensures ReadPath(EscapePath(value)) == Some(value)
  {
    ReadEscapedPath(value, "");
    assert EscapePath(value) + "" == EscapePath(value);
    assert value + [] == value;
  }
}
