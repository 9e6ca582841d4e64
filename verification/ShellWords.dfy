/** Shell words: two ways of quoting and two ways of splitting
    (crates/stateful-cli/src/shell_command.rs, sandbox.rs, sandbox/parse.rs, commit.rs).
    Splitting follows section 2.2 of the POSIX.1-2017 Shell Command Language as far as
    the program needs it. */
module ShellWords {
  import opened Basics

  predicate IsWhitespace(c: char) {
    var n := c as int;
    || 0x09 <= n <= 0x0D || n == 0x20 || n == 0x85 || n == 0xA0 || n == 0x1680
    || 0x2000 <= n <= 0x200A || n == 0x2028 || n == 0x2029 || n == 0x202F || n == 0x205F || n == 0x3000
  }

  predicate Blank(s: string) { forall c :: c in s ==> IsWhitespace(c) }

  datatype Mode = Unquoted | Single | Double

  /** The words finished so far, the one being read, and whether there is one. */
  datatype State = State(words: seq<string>, current: string, mode: Mode, inWord: bool) {
    function Push(c: char): State { this.(current := current + [c], inWord := true) }

    /** A character within quotes; the word has begun with the quote. */
    function Keep(c: char): State { this.(current := current + [c]) }

    function Enter(m: Mode): State { this.(mode := m, inWord := true) }

    function Leave(): State { this.(mode := Unquoted) }

    function Break(): State {
      if inWord then State(words + [current], "", mode, false) else this
    }

    function Words(): seq<string> { if inWord then words + [current] else words }
  }

  const START := State([], "", Unquoted, false)

  datatype Refusal = NotLiteral | Escape | Expansion | Unterminated | BadInput

  const SPECIAL := "\n\r;|&<>`$*?[]{}~()#!"

  // ------------------------------------------------------------- splitting

  /** The strict splitter: anything the shell might interpret is refused. */
  function Strict(st: State, cs: string): Result<seq<string>, Refusal>
    decreases |cs|
  {
    if cs == "" then if st.mode.Unquoted? then Ok(st.Words()) else Err(Unterminated)
    else
      var c, rest := cs[0], cs[1..];
      match st.mode
      case Unquoted =>
        if c in SPECIAL then Err(NotLiteral)
        else if c == '\'' then Strict(st.Enter(Single), rest)
        else if c == '"' then Strict(st.Enter(Double), rest)
        else if c == '\\' then
          if rest != "" && rest[0] == '\'' then Strict(st.Push('\''), rest[1..]) else Err(Escape)
        else if IsWhitespace(c) then Strict(st.Break(), rest)
        else Strict(st.Push(c), rest)
      case Single => Strict(if c == '\'' then st.Leave() else st.Keep(c), rest)
      case Double =>
        if c == '"' then Strict(st.Leave(), rest)
        else if c == '`' || c == '$' || c == '\\' then Err(Expansion)
        else Strict(st.Keep(c), rest)
  }

  /** The lenient splitter: a backslash takes the next character as it is. */
  function Lenient(st: State, cs: string): Result<seq<string>, Refusal>
    decreases |cs|
  {
    if cs == "" then if st.mode.Unquoted? then Ok(st.Words()) else Err(Unterminated)
    else
      var c, rest := cs[0], cs[1..];
      match st.mode
      case Unquoted =>
        if c == '\'' then Lenient(st.Enter(Single), rest)
        else if c == '"' then Lenient(st.Enter(Double), rest)
        else if c == '\\' then
          if rest != "" then Lenient(st.Push(rest[0]), rest[1..]) else Lenient(st.Push(c), rest)
        else if IsWhitespace(c) then Lenient(st.Break(), rest)
        else Lenient(st.Push(c), rest)
      case Single => Lenient(if c == '\'' then st.Leave() else st.Keep(c), rest)
      case Double =>
        if c == '"' then Lenient(st.Leave(), rest)
        else if c == '\\' && rest != "" then Lenient(st.Keep(rest[0]), rest[1..])
        else Lenient(st.Keep(c), rest)
  }

  method SplitSimpleCommandWords(command: string) returns (r: Result<seq<string>, Refusal>)
    ensures r == Strict(START, command)
  {
    var st, i := START, 0;
    while i < |command|
      invariant 0 <= i <= |command|
      invariant Strict(st, command[i..]) == Strict(START, command)
    {
      var c := command[i];
      assert command[i..][0] == c && command[i..][1..] == command[i + 1..];
      i := i + 1;
      match st.mode
      case Unquoted =>
        if c in SPECIAL {
          return Err(NotLiteral);
        } else if c == '\'' {
          st := st.Enter(Single);
        } else if c == '"' {
          st := st.Enter(Double);
        } else if c == '\\' && i < |command| && command[i] == '\'' {
          assert command[i..][0] == '\'' && command[i..][1..] == command[i + 1..];
          i := i + 1;
          st := st.Push('\'');
        } else if c == '\\' {
          return Err(Escape);
        } else if IsWhitespace(c) {
          st := st.Break();
        } else {
          st := st.Push(c);
        }
      case Single =>
        st := if c == '\'' then st.Leave() else st.Keep(c);
      case Double =>
        if c == '"' {
          st := st.Leave();
        } else if c == '`' || c == '$' || c == '\\' {
          return Err(Expansion);
        } else {
          st := st.Keep(c);
        }
    }
    assert command[i..] == "";
    return if st.mode.Unquoted? then Ok(st.Words()) else Err(Unterminated);
  }

  method SplitProcessInspectionCommandWords(command: string) returns (r: Result<seq<string>, Refusal>)
    ensures r == Lenient(START, command)
  {
    var st, i := START, 0;
    while i < |command|
      invariant 0 <= i <= |command|
      invariant Lenient(st, command[i..]) == Lenient(START, command)
    {
      var c := command[i];
      assert command[i..][0] == c && command[i..][1..] == command[i + 1..];
      i := i + 1;
      match st.mode
      case Unquoted =>
        if c == '\'' {
          st := st.Enter(Single);
        } else if c == '"' {
          st := st.Enter(Double);
        } else if c == '\\' {
          if i < |command| {
            assert command[i..][0] == command[i] && command[i..][1..] == command[i + 1..];
            st := st.Push(command[i]);
            i := i + 1;
          } else {
            st := st.Push(c);
          }
        } else if IsWhitespace(c) {
          st := st.Break();
        } else {
          st := st.Push(c);
        }
      case Single =>
        st := if c == '\'' then st.Leave() else st.Keep(c);
      case Double =>
        if c == '"' {
          st := st.Leave();
        } else if c == '\\' && i < |command| {
          assert command[i..][0] == command[i] && command[i..][1..] == command[i + 1..];
          st := st.Keep(command[i]);
          i := i + 1;
        } else {
          st := st.Keep(c);
        }
    }
    assert command[i..] == "";
    return if st.mode.Unquoted? then Ok(st.Words()) else Err(Unterminated);
  }

  /** Whatever the strict splitter accepts, the lenient one splits into the same words. */
  lemma {:induction false} SplittersAgree(st: State, cs: string)
    requires Strict(st, cs).Ok?
    ensures Lenient(st, cs) == Strict(st, cs)
    decreases |cs|
  {
    if cs != "" {
      var c, rest := cs[0], cs[1..];
      match st.mode
      case Unquoted =>
        if c == '\'' { SplittersAgree(st.Enter(Single), rest); }
        else if c == '"' { SplittersAgree(st.Enter(Double), rest); }
        else if c == '\\' { SplittersAgree(st.Push('\''), rest[1..]); }
        else if IsWhitespace(c) { SplittersAgree(st.Break(), rest); }
        else { SplittersAgree(st.Push(c), rest); }
      case Single => SplittersAgree(if c == '\'' then st.Leave() else st.Keep(c), rest);
      case Double =>
        if c == '"' { SplittersAgree(st.Leave(), rest); } else { SplittersAgree(st.Keep(c), rest); }
    }
  }

  // --------------------------------------------------------------- quoting

  /** How a single quote is written inside single quotes: closed, escaped and
      reopened, or closed, put in double quotes and reopened. */
  datatype Style = Escaped | DoubleQuoted {
    function Apostrophe(): string { if Escaped? then "'\\''" else "'\"'\"'" }
  }

  function Replaced(style: Style, s: string): string {
    if s == "" then ""
    else (if s[0] == '\'' then style.Apostrophe() else [s[0]]) + Replaced(style, s[1..])
  }

  function Quote(style: Style, s: string): string { "'" + Replaced(style, s) + "'" }

  function JoinWords(style: Style, words: seq<string>): string {
    if words == [] then ""
    else if |words| == 1 then Quote(style, words[0])
    else Quote(style, words[0]) + " " + JoinWords(style, words[1..])
  }

  lemma StrictStep(st: State, cs: string)
    requires cs != ""
    ensures st.mode.Single? ==> Strict(st, cs) == Strict(if cs[0] == '\'' then st.Leave() else st.Keep(cs[0]), cs[1..])
    ensures st.mode.Unquoted? && cs[0] == '\'' ==> Strict(st, cs) == Strict(st.Enter(Single), cs[1..])
    ensures st.mode.Unquoted? && cs[0] == '"' ==> Strict(st, cs) == Strict(st.Enter(Double), cs[1..])
    ensures st.mode.Unquoted? && cs[0] == '\\' && |cs| > 1 && cs[1] == '\'' ==> Strict(st, cs) == Strict(st.Push('\''), cs[2..])
    ensures st.mode.Double? && cs[0] == '"' ==> Strict(st, cs) == Strict(st.Leave(), cs[1..])
    ensures st.mode.Double? && cs[0] == '\'' ==> Strict(st, cs) == Strict(st.Keep('\''), cs[1..])
    ensures st.mode.Unquoted? && cs[0] == ' ' ==> Strict(st, cs) == Strict(st.Break(), cs[1..])
  {
    if |cs| > 1 { assert cs[1..][1..] == cs[2..]; }
  }

  /** Reading the quoted form of an apostrophe inside a single-quoted word. */
  lemma ApostropheRead(style: Style, st: State, rest: string)
    requires st.mode.Single? && st.inWord
    ensures Strict(st, style.Apostrophe() + rest) == Strict(st.Keep('\''), rest)
  {
    hide Strict;
    var out := st.Leave();
    var cs := style.Apostrophe() + rest;
    StrictStep(st, cs);
    if style.Escaped? {
      assert cs[1..] == "\\''" + rest && cs[1..][2..] == "'" + rest && cs[1..][2..][1..] == rest;
      StrictStep(out, cs[1..]);
      StrictStep(out.Push('\''), cs[1..][2..]);
      assert out.Push('\'').Enter(Single) == st.Keep('\'');
    } else {
      assert cs[1..] == "\"'\"'" + rest && cs[1..][1..] == "'\"'" + rest;
      assert cs[1..][1..][1..] == "\"'" + rest && cs[1..][1..][1..][1..] == "'" + rest && ("'" + rest)[1..] == rest;
      StrictStep(out, cs[1..]);
      StrictStep(out.Enter(Double), "'\"'" + rest);
      StrictStep(out.Enter(Double).Keep('\''), "\"'" + rest);
      StrictStep(out.Enter(Double).Keep('\'').Leave(), "'" + rest);
      assert out.Enter(Double).Keep('\'').Leave().Enter(Single) == st.Keep('\'');
    }
  }

  lemma {:induction false} BodyRead(style: Style, st: State, s: string, rest: string)
    requires st.mode.Single? && st.inWord
    ensures Strict(st, Replaced(style, s) + rest) == Strict(st.(current := st.current + s), rest)
    decreases |s|
  {
    hide Strict;
    if s == "" {
      assert Replaced(style, s) + rest == rest && st.current + s == st.current;
    } else {
      var tail := Replaced(style, s[1..]) + rest;
      if s[0] == '\'' {
        assert Replaced(style, s) + rest == style.Apostrophe() + tail;
        ApostropheRead(style, st, tail);
      } else {
        assert Replaced(style, s) + rest == [s[0]] + tail && ([s[0]] + tail)[1..] == tail;
        StrictStep(st, [s[0]] + tail);
      }
      BodyRead(style, st.Keep(s[0]), s[1..], rest);
      assert st.current + [s[0]] + s[1..] == st.current + s;
    }
  }

  /** A quoted word adds exactly its text to the word being read. */
  lemma QuotedRead(style: Style, st: State, s: string, rest: string)
    requires st.mode.Unquoted?
    ensures Strict(st, Quote(style, s) + rest) == Strict(st.(current := st.current + s, inWord := true), rest)
  {
    hide Strict;
    var body := Replaced(style, s) + ("'" + rest);
    assert Quote(style, s) + rest == "'" + body && ("'" + body)[1..] == body && ("'" + rest)[1..] == rest;
    StrictStep(st, "'" + body);
    BodyRead(style, st.Enter(Single), s, "'" + rest);
    var inside := st.Enter(Single).(current := st.current + s);
    StrictStep(inside, "'" + rest);
    assert inside.Leave() == st.(current := st.current + s, inWord := true);
  }

  lemma {:induction false} JoinedRead(style: Style, done: seq<string>, words: seq<string>)
    ensures Strict(State(done, "", Unquoted, false), JoinWords(style, words)) == Ok(done + words)
    decreases |words|
  {
    var st := State(done, "", Unquoted, false);
    if words == [] {
      assert done + words == done;
    } else {
      var w := words[0];
      var read := State(done, w, Unquoted, true);
      assert st.(current := st.current + w, inWord := true) == read;
      if |words| == 1 {
        assert Quote(style, w) + "" == Quote(style, w);
        QuotedRead(style, st, w, "");
        assert done + [w] == done + words;
      } else {
        var tail := JoinWords(style, words[1..]);
        assert Quote(style, w) + " " + tail == Quote(style, w) + (" " + tail) && (" " + tail)[1..] == tail;
        QuotedRead(style, st, w, " " + tail);
        StrictStep(read, " " + tail);
        JoinedRead(style, done + [w], words[1..]);
        assert done + [w] + words[1..] == done + words;
      }
    }
  }

  /** Splitting the quoted and joined forms of any words gives the words back, in
      either style and with either splitter. */
  lemma SplitUndoesQuote(style: Style, words: seq<string>)
    ensures Strict(START, JoinWords(style, words)) == Ok(words)
    ensures Lenient(START, JoinWords(style, words)) == Ok(words)
  {
    JoinedRead(style, [], words);
    assert [] + words == words;
    SplittersAgree(START, JoinWords(style, words));
  }

  // ------------------------------------------------------ sequence commands

  function Script(steps: seq<string>): string {
    if steps == [] then "set -e\n" else Script(steps[..|steps| - 1]) + steps[|steps| - 1] + "\n"
  }

  predicate ValidShell(shell: string) {
    shell != "" && shell[0] == '/' && '\0' !in shell && '\n' !in shell && '\r' !in shell
  }

  /** A single command is taken as it is; a sequence becomes a script run by a shell. */
  method ResolveSandboxRunCommand(command: Option<string>, sequences: seq<string>, sequenceShell: Option<string>)
    returns (r: Result<string, Refusal>)
    ensures r.Ok? <==>
              if sequences == [] then sequenceShell.None? && command.Some? && !Blank(command.value)
              else && command.None? && (forall s :: s in sequences ==> !Blank(s))
                   && ValidShell(if sequenceShell.Some? then sequenceShell.value else "/bin/sh")
    ensures r.Ok? && sequences == [] ==> r.value == command.value
    ensures r.Ok? && sequences != [] ==>
              var shell := if sequenceShell.Some? then sequenceShell.value else "/bin/sh";
              Strict(START, r.value) == Lenient(START, r.value) == Ok([shell, "-c", Script(sequences)])
  {
    if command.Some? && sequences != [] { return Err(BadInput); }
    if sequences == [] {
      if sequenceShell.Some? || command.None? || Blank(command.value) { return Err(BadInput); }
      return Ok(command.value);
    }
    for n := 0 to |sequences|
      invariant forall i :: 0 <= i < n ==> !Blank(sequences[i])
    {
      if Blank(sequences[n]) {
        assert sequences[n] in sequences;
        return Err(BadInput);
      }
    }
    var shell := if sequenceShell.Some? then sequenceShell.value else "/bin/sh";
    if !ValidShell(shell) { return Err(BadInput); }
    var script := "set -e\n";
    for n := 0 to |sequences|
      invariant script == Script(sequences[..n])
    {
      assert sequences[..n + 1][..n] == sequences[..n];
      script := script + sequences[n] + "\n";
    }
    assert sequences[..|sequences|] == sequences;
    SequenceSplits(shell, script);
    return Ok(Quote(Escaped, shell) + " -c " + Quote(Escaped, script));
  }

  lemma SequenceSplits(shell: string, script: string)
    ensures var line := Quote(Escaped, shell) + " -c " + Quote(Escaped, script);
            Strict(START, line) == Lenient(START, line) == Ok([shell, "-c", script])
  {
    hide Strict, Quote;
    var last := Quote(Escaped, script);
    var line := Quote(Escaped, shell) + " -c " + last;
    assert line == Quote(Escaped, shell) + (" -c " + last);
    QuotedRead(Escaped, START, shell, " -c " + last);
    var read := State([], shell, Unquoted, true);
    assert START.(current := START.current + shell, inWord := true) == read;
    FlagRead(read, last);
    var flagged := State([shell, "-c"], "", Unquoted, false);
    assert [] + [shell, "-c"] == [shell, "-c"];
    assert last + "" == last;
    QuotedRead(Escaped, flagged, script, "");
    assert flagged.(current := flagged.current + script, inWord := true) == State([shell, "-c"], script, Unquoted, true);
    EndRead(State([shell, "-c"], script, Unquoted, true));
    assert [shell, "-c"] + [script] == [shell, "-c", script];
    SplittersAgree(START, line);
  }

  lemma EndRead(st: State)
    requires st.mode.Unquoted?
    ensures Strict(st, "") == Ok(st.Words())
  {
  }

  lemma PlainRead(st: State, c: char, rest: string)
    requires st.mode.Unquoted? && (c == '-' || c == 'c')
    ensures Strict(st, [c] + rest) == Strict(st.Push(c), rest)
  {
    assert c !in SPECIAL;
    assert ([c] + rest)[1..] == rest;
  }

  lemma FlagRead(st: State, rest: string)
    requires st.mode.Unquoted? && st.inWord
    ensures Strict(st, " -c " + rest) == Strict(State(st.words + [st.current, "-c"], "", Unquoted, false), rest)
  {
    hide Strict;
    var a := State(st.words + [st.current], "", Unquoted, false);
    var b := State(st.words + [st.current], "-", Unquoted, true);
    var c := State(st.words + [st.current], "-c", Unquoted, true);
    assert (" -c " + rest)[1..] == ['-'] + (['c'] + (" " + rest)) && (" " + rest)[1..] == rest;
    StrictStep(st, " -c " + rest);
    PlainRead(a, '-', ['c'] + (" " + rest));
    assert a.Push('-') == b;
    PlainRead(b, 'c', " " + rest);
    assert b.Push('c') == c;
    StrictStep(c, " " + rest);
    assert st.words + [st.current] + ["-c"] == st.words + [st.current, "-c"];
  }
}
