/**
  The shell lines the update command issues for its file operations. The
  command concatenates operands into a line without quoting. `Parse` reads a
  line back into a command only when each operand is a plain word: letters,
  digits, `.`, `-`, `_` and `/`, which the shell neither splits nor expands.
  Facts about the operands can then be stated for the lines actually issued.
  A line with any other character in an operand reads back as a literal line.
 */
module Shell {
  import opened Wrappers

  /** The copy program and its flags: recursive, forced, preserving mode and timestamps. */
  const CopyProgram: string := "cp -Rfp"

  const RemovePrefix: string := "rm -rf "
  const MakeDirPrefix: string := "mkdir "
  const CopyPrefix: string := CopyProgram + " "

  /** The line shapes the update command builds. */
  datatype ShellCommand =
    | Remove(path: string)                  // rm -rf <path>
    | MakeDir(path: string)                 // mkdir <path>
    | Copy(source: string, target: string)  // cp -Rfp <source> <target>
    | Literal(line: string)                 // any other line, issued as it is

  /** The line for a command, built by concatenation as the source does. */
  function Render(c: ShellCommand): string
  {
    match c
    case Remove(p) => RemovePrefix + p
    case MakeDir(p) => MakeDirPrefix + p
    case Copy(s, t) => CopyPrefix + s + " " + t
    case Literal(l) => l
  }

  /**
    Characters the shell passes through unchanged inside a word. Blanks split
    words; quotes, `$`, backquotes, backslashes, `;`, `&`, `|`, `<`, `>`, parentheses,
    glob characters, and a leading `#` or `~` are all interpreted; none of
    them is plain.
   */
  predicate Plain(c: char)
  {
    ('a' <= c <= 'z') || ('A' <= c <= 'Z') || ('0' <= c <= '9') || c == '.' || c == '-' || c == '_' || c == '/'
  }

  /** A non-empty string of plain characters: the shell keeps it as one word, unchanged. */
  predicate Word(s: string)
  {
    s != [] && forall c :: c in s ==> Plain(c)
  }

  predicate StartsWith(s: string, prefix: string)
  {
    |prefix| <= |s| && s[..|prefix|] == prefix
  }

  /** Position of the first occurrence of `c` in `s`, if there is one. */
  function IndexOf(s: string, c: char): (r: Option<nat>)
    ensures r.None? <==> c !in s
    ensures r.Some? ==> r.value < |s| && s[r.value] == c && c !in s[..r.value]
  {
    if |s| == 0 then None
    else if s[0] == c then Some(0)
    else
      match IndexOf(s[1..], c)
      case None => None
      case Some(i) =>
        assert s[..i + 1] == [s[0]] + s[1..][..i];
        Some(i + 1)
  }

  /** A position holding `c` with no `c` before it is the one `IndexOf` finds. */
  lemma FirstIndex(s: string, c: char, i: nat)
    requires i < |s| && s[i] == c && c !in s[..i]
    ensures IndexOf(s, c) == Some(i)
  {
    assert c in s;
  }

  /**
    The command a line denotes: a removal, directory creation or copy when the
    line has that shape with plain-word operands, and otherwise the line
    itself. Nothing of the line is lost.
   */
  function Parse(line: string): (c: ShellCommand)
    ensures Render(c) == line
  {
    if StartsWith(line, RemovePrefix) && Word(line[|RemovePrefix|..]) then
      Remove(line[|RemovePrefix|..])
    else if StartsWith(line, MakeDirPrefix) && Word(line[|MakeDirPrefix|..]) then
      MakeDir(line[|MakeDirPrefix|..])
    else if StartsWith(line, CopyPrefix) then
      ParseCopy(line)
    else Literal(line)
  }

  /** A line starting with the copy program: a copy when exactly two plain-word operands follow. */
  function ParseCopy(line: string): (c: ShellCommand)
    requires StartsWith(line, CopyPrefix)
    ensures Render(c) == line
  {
    var rest := line[|CopyPrefix|..];
    var space := IndexOf(rest, ' ');
    if space.Some? && Word(rest[..space.value]) && Word(rest[space.value + 1..]) then
      SplitAtSpace(line, space.value);
      Copy(rest[..space.value], rest[space.value + 1..])
    else Literal(line)
  }

  /** A copy line is its prefix, the text before a space, the space, and the text after it. */
  lemma SplitAtSpace(line: string, i: nat)
    requires StartsWith(line, CopyPrefix)
    requires i < |line| - |CopyPrefix| && line[|CopyPrefix|..][i] == ' '
    ensures CopyPrefix + line[|CopyPrefix|..][..i] + " " + line[|CopyPrefix|..][i + 1..] == line
  {
    var rest := line[|CopyPrefix|..];
    assert line == CopyPrefix + rest;
    assert rest == rest[..i] + " " + rest[i + 1..];
  }

  /** Commands whose line reads back as the same command: plain-word operands, and literals of no other shape. */
  predicate WellFormed(c: ShellCommand)
  {
    match c
    case Remove(p) => Word(p)
    case MakeDir(p) => Word(p)
    case Copy(s, t) => Word(s) && Word(t)
    case Literal(l) =>
      !StartsWith(l, RemovePrefix) && !StartsWith(l, MakeDirPrefix) && !StartsWith(l, CopyPrefix)
  }

  /** Reading back the line of a well-formed command gives the command. */
  lemma ParseRender(c: ShellCommand)
    requires WellFormed(c)
    ensures Parse(Render(c)) == c
  {
    var line := Render(c);
    match c
    case Remove(p) =>
      assert line[..|RemovePrefix|] == RemovePrefix && line[|RemovePrefix|..] == p;
    case MakeDir(p) =>
      assert line[..|MakeDirPrefix|] == MakeDirPrefix && line[|MakeDirPrefix|..] == p;
      assert !StartsWith(line, RemovePrefix) by { assert line[0] != RemovePrefix[0]; }
    case Copy(s, t) =>
      assert line[..|CopyPrefix|] == CopyPrefix;
      assert !StartsWith(line, RemovePrefix) by { assert line[0] != RemovePrefix[0]; }
      assert !StartsWith(line, MakeDirPrefix) by { assert line[0] != MakeDirPrefix[0]; }
      var rest := line[|CopyPrefix|..];
      assert rest == s + " " + t;
      assert ' ' !in s by { assert !Plain(' '); }
      assert rest[|s|] == ' ' && rest[..|s|] == s;
      FirstIndex(rest, ' ', |s|);
      assert rest[|s| + 1..] == t;
    case Literal(l) =>
  }

  /** Two well-formed commands with the same line are the same command. */
  lemma RenderInjective(c: ShellCommand, d: ShellCommand)
    requires WellFormed(c) && WellFormed(d)
    ensures Render(c) == Render(d) <==> c == d
  {
    ParseRender(c);
    ParseRender(d);
  }
}
