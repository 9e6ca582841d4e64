/** What the two splitters accept and what they read, said of the text and not of the
    splitters (crates/stateful-cli/src/shell_command.rs, sandbox/parse.rs). */
module ShellGrammar {
  import opened Basics
  import opened ShellWords

  // ------------------------------------------------------------ acceptance

  /** How a character stands in its text. */
  datatype Place = Bare | AfterBackslash | InSingle | InDouble | InDoubleAfterBackslash

  /** The place of the character that follows `c`. */
  function Follow(p: Place, c: char): Place {
    match p
    case Bare =>
      if c == '\'' then InSingle else if c == '"' then InDouble else if c == '\\' then AfterBackslash else Bare
    case AfterBackslash => Bare
    case InSingle => if c == '\'' then Bare else InSingle
    case InDouble => if c == '"' then Bare else if c == '\\' then InDoubleAfterBackslash else InDouble
    case InDoubleAfterBackslash => InDouble
  }

  /** The place of the `i`-th character of a text that begins in place `p`. */
  function PlaceOf(p: Place, s: string, i: nat): Place
    requires i <= |s|
    decreases i
  {
    if i == 0 then p else PlaceOf(Follow(p, s[0]), s[1..], i - 1)
  }

  /** What a shell might interpret. */
  predicate Interpreted(c: char) {
    || c == '\n' || c == '\r' || c == ';' || c == '|' || c == '&' || c == '<' || c == '>' || c == '`' || c == '$' || c == '*'
    || c == '?' || c == '[' || c == ']' || c == '{' || c == '}' || c == '~' || c == '(' || c == ')' || c == '#' || c == '!'
  }

  /** The strict splitter lets no character through that a shell might interpret where it
      stands, and no escape but that of a single quote. */
  predicate Literal(p: Place, c: char) {
    match p
    case Bare => !Interpreted(c)
    case AfterBackslash => c == '\''
    case InSingle => true
    case InDouble => c != '`' && c != '$' && c != '\\'
    case InDoubleAfterBackslash => false
  }

  ghost predicate AllLiteral(p: Place, s: string) {
    && (forall i :: 0 <= i < |s| ==> Literal(PlaceOf(p, s, i), s[i]))
    && PlaceOf(p, s, |s|) == Bare
  }

  lemma SpecialExact(c: char)
    ensures c in SPECIAL <==> Interpreted(c)
  {
  }

  lemma LiteralStep(p: Place, s: string)
    requires s != ""
    ensures AllLiteral(p, s) <==> Literal(p, s[0]) && AllLiteral(Follow(p, s[0]), s[1..])
  {
    var rest := s[1..];
    assert forall i :: 0 < i <= |s| ==> PlaceOf(p, s, i) == PlaceOf(Follow(p, s[0]), rest, i - 1);
    if Literal(p, s[0]) && AllLiteral(Follow(p, s[0]), rest) {
      forall i | 0 <= i < |s| ensures Literal(PlaceOf(p, s, i), s[i]) {
        if i > 0 { assert s[i] == rest[i - 1]; }
      }
    }
    if AllLiteral(p, s) {
      assert Literal(PlaceOf(p, s, 0), s[0]);
      forall i | 0 <= i < |rest| ensures Literal(PlaceOf(Follow(p, s[0]), rest, i), rest[i]) {
        assert Literal(PlaceOf(p, s, i + 1), s[i + 1]);
      }
    }
  }

  function Standing(m: Mode): Place {
    match m
    case Unquoted => Bare
    case Single => InSingle
    case Double => InDouble
  }

  /** Two characters at once: a backslash and what it stands before. */
  lemma EscapeStep(p: Place, s: string)
    requires |s| >= 2
    ensures AllLiteral(p, s) <==>
              && Literal(p, s[0]) && Literal(Follow(p, s[0]), s[1])
              && AllLiteral(Follow(Follow(p, s[0]), s[1]), s[2..])
  {
    LiteralStep(p, s);
    LiteralStep(Follow(p, s[0]), s[1..]);
    assert s[1..][1..] == s[2..];
  }

  lemma {:induction false} StrictFrom(st: State, s: string)
    ensures Strict(st, s).Ok? <==> AllLiteral(Standing(st.mode), s)
    decreases |s|
  {
    hide AllLiteral;
    if s == "" {
      assert AllLiteral(Standing(st.mode), s) <==> st.mode.Unquoted? by { NothingLeft(Standing(st.mode)); }
    } else {
      var c, rest := s[0], s[1..];
      LiteralStep(Standing(st.mode), s);
      SpecialExact(c);
      match st.mode
      case Unquoted => StrictBare(st, s);
      case Single => StrictFrom(if c == '\'' then st.Leave() else st.Keep(c), rest);
      case Double =>
        if c == '"' { StrictFrom(st.Leave(), rest); }
        else if c != '`' && c != '$' && c != '\\' { StrictFrom(st.Keep(c), rest); }
    }
  }

  lemma NothingLeft(p: Place)
    ensures AllLiteral(p, "") <==> p == Bare
  {
  }

  lemma {:induction false} StrictBare(st: State, s: string)
    requires st.mode.Unquoted? && s != ""
    ensures Strict(st, s).Ok? <==> AllLiteral(Bare, s)
    decreases |s|, 0
  {
    hide AllLiteral, Interpreted;
    var c, rest := s[0], s[1..];
    LiteralStep(Bare, s);
    SpecialExact(c);
    if !Interpreted(c) {
      if c == '\'' { StrictFrom(st.Enter(Single), rest); }
      else if c == '"' { StrictFrom(st.Enter(Double), rest); }
      else if c == '\\' {
        if rest == "" {
          NothingLeft(AfterBackslash);
        } else {
          EscapeStep(Bare, s);
          assert rest[1..] == s[2..];
          if rest[0] == '\'' { StrictFrom(st.Push('\''), rest[1..]); }
        }
      } else if IsWhitespace(c) { StrictFrom(st.Break(), rest); }
      else { StrictFrom(st.Push(c), rest); }
    }
  }

  /** The strict splitter accepts a text exactly if every character of it is literal where it
      stands and no quote is left open. */
  lemma StrictAccepts(s: string)
    ensures Strict(START, s).Ok? <==> AllLiteral(Bare, s)
  {
    hide AllLiteral, Strict;
    StrictFrom(START, s);
  }

  lemma PlaceStep(p: Place, s: string)
    requires s != ""
    ensures PlaceOf(p, s, |s|) == PlaceOf(Follow(p, s[0]), s[1..], |s| - 1)
  {
  }

  /** The lenient splitter accepts every text that leaves no quote open. */
  lemma {:induction false} LenientFrom(st: State, s: string)
    ensures Lenient(st, s).Ok? <==>
              PlaceOf(Standing(st.mode), s, |s|) == Bare || PlaceOf(Standing(st.mode), s, |s|) == AfterBackslash
    decreases |s|
  {
    hide PlaceOf;
    if s == "" {
      NoStep(Standing(st.mode));
    } else {
      var c, rest := s[0], s[1..];
      PlaceStep(Standing(st.mode), s);
      match st.mode
      case Unquoted =>
        if c == '\'' { LenientFrom(st.Enter(Single), rest); }
        else if c == '"' { LenientFrom(st.Enter(Double), rest); }
        else if c == '\\' { LenientEscape(st, s); }
        else if IsWhitespace(c) { LenientFrom(st.Break(), rest); }
        else { LenientFrom(st.Push(c), rest); }
      case Single => LenientFrom(if c == '\'' then st.Leave() else st.Keep(c), rest);
      case Double =>
        if c == '"' { LenientFrom(st.Leave(), rest); }
        else if c == '\\' { LenientEscape(st, s); }
        else { LenientFrom(st.Keep(c), rest); }
    }
  }

  lemma NoStep(p: Place)
    ensures PlaceOf(p, "", 0) == p
  {
  }

  lemma {:induction false} LenientEscape(st: State, s: string)
    requires !st.mode.Single? && s != "" && s[0] == '\\'
    ensures Lenient(st, s).Ok? <==>
              PlaceOf(Standing(st.mode), s, |s|) == Bare || PlaceOf(Standing(st.mode), s, |s|) == AfterBackslash
    decreases |s|, 0
  {
    hide PlaceOf;
    var rest, p := s[1..], Standing(st.mode);
    PlaceStep(p, s);
    if rest == "" {
      NoStep(Follow(p, '\\'));
      assert Lenient(if st.mode.Unquoted? then st.Push('\\') else st.Keep('\\'), "").Ok? <==> st.mode.Unquoted?;
    } else {
      PlaceStep(Follow(p, '\\'), rest);
      if st.mode.Unquoted? { LenientFrom(st.Push(rest[0]), rest[1..]); } else { LenientFrom(st.Keep(rest[0]), rest[1..]); }
    }
  }

  lemma LenientAccepts(s: string)
    ensures Lenient(START, s).Ok? <==> PlaceOf(Bare, s, |s|) in {Bare, AfterBackslash}
  {
    hide PlaceOf, Lenient;
    LenientFrom(START, s);
  }

  // --------------------------------------------------------------- reading

  /** A word is written in pieces: bare characters, an escaped single quote, and quoted text. */
  datatype Piece = Plain(c: char) | Apostrophe | Singles(text: string) | Doubles(text: string) {
    predicate Legal() {
      match this
      case Plain(c) => !Interpreted(c) && c != '\'' && c != '"' && c != '\\' && !IsWhitespace(c)
      case Apostrophe => true
      case Singles(text) => '\'' !in text
      case Doubles(text) => '"' !in text && '`' !in text && '$' !in text && '\\' !in text
    }

    function Written(): string {
      match this
      case Plain(c) => [c]
      case Apostrophe => "\\'"
      case Singles(text) => "'" + text + "'"
      case Doubles(text) => "\"" + text + "\""
    }

    function Text(): string {
      match this
      case Plain(c) => [c]
      case Apostrophe => "'"
      case Singles(text) => text
      case Doubles(text) => text
    }
  }

  type Word = seq<Piece>

  function Written(word: Word): string { if word == [] then "" else word[0].Written() + Written(word[1..]) }

  function Text(word: Word): string { if word == [] then "" else word[0].Text() + Text(word[1..]) }

  predicate Legal(word: Word) { word != [] && forall p :: p in word ==> p.Legal() }

  /** The state after more text of the word being read. */
  function Reads(st: State, text: string): State { st.(current := st.current + text, inWord := true) }

  lemma {:induction false} QuotedText(st: State, text: string, rest: string)
    requires st.mode.Single? || st.mode.Double?
    requires st.mode.Single? ==> '\'' !in text
    requires st.mode.Double? ==> '"' !in text && '`' !in text && '$' !in text && '\\' !in text
    ensures Strict(st, text + rest) == Strict(st.(current := st.current + text), rest)
    decreases |text|
  {
    if text == "" {
      assert text + rest == rest && st.current + text == st.current;
    } else {
      assert text[0] in text;
      assert (text + rest)[1..] == text[1..] + rest;
      QuotedText(st.Keep(text[0]), text[1..], rest);
      assert st.current + [text[0]] + text[1..] == st.current + text;
    }
  }

  lemma SinglesRead(st: State, text: string, rest: string)
    requires st.mode.Unquoted? && '\'' !in text
    ensures Strict(st, "'" + text + "'" + rest) == Strict(Reads(st, text), rest)
  {
    hide Strict;
    var line, tail := "'" + text + "'" + rest, "'" + rest;
    assert line[1..] == text + tail && tail[1..] == rest;
    StrictStep(st, line);
    QuotedText(st.Enter(Single), text, tail);
    StrictStep(st.Enter(Single).(current := st.current + text), tail);
  }

  lemma DoublesRead(st: State, text: string, rest: string)
    requires st.mode.Unquoted? && '"' !in text && '`' !in text && '$' !in text && '\\' !in text
    ensures Strict(st, "\"" + text + "\"" + rest) == Strict(Reads(st, text), rest)
  {
    hide Strict;
    var line, tail := "\"" + text + "\"" + rest, "\"" + rest;
    assert line[1..] == text + tail && tail[1..] == rest;
    StrictStep(st, line);
    QuotedText(st.Enter(Double), text, tail);
    StrictStep(st.Enter(Double).(current := st.current + text), tail);
  }

  lemma PieceRead(st: State, piece: Piece, rest: string)
    requires st.mode.Unquoted? && piece.Legal()
    ensures Strict(st, piece.Written() + rest) == Strict(Reads(st, piece.Text()), rest)
  {
    match piece
    case Plain(c) =>
      SpecialExact(c);
      assert ([c] + rest)[1..] == rest;
    case Apostrophe =>
      assert ("\\'" + rest)[2..] == rest;
      StrictStep(st, "\\'" + rest);
    case Singles(text) => SinglesRead(st, text, rest);
    case Doubles(text) => DoublesRead(st, text, rest);
  }

  lemma {:induction false} PiecesRead(st: State, word: Word, rest: string)
    requires st.mode.Unquoted? && Legal(word)
    ensures Strict(st, Written(word) + rest) == Strict(Reads(st, Text(word)), rest)
    decreases |word|
  {
    hide Strict, Written, Text, Piece.Legal, Piece.Written, Piece.Text;
    var p, more := word[0], word[1..];
    assert p in word;
    FirstPiece(word, rest);
    PieceRead(st, p, Written(more) + rest);
    if more != [] {
      assert Legal(more);
      PiecesRead(Reads(st, p.Text()), more, rest);
      assert st.current + p.Text() + Text(more) == st.current + (p.Text() + Text(more));
    }
  }

  lemma FirstPiece(word: Word, rest: string)
    requires word != []
    ensures Written(word) + rest == word[0].Written() + (Written(word[1..]) + rest)
    ensures Text(word) == word[0].Text() + Text(word[1..])
    ensures word[1..] == [] ==> Written(word[1..]) + rest == rest && Text(word) == word[0].Text()
  {
  }

  /** White space that is not an end of line. */
  predicate IsGap(gap: string) { forall c :: c in gap ==> IsWhitespace(c) && c != '\n' && c != '\r' }

  lemma {:induction false} GapRead(st: State, gap: string, rest: string)
    requires st.mode.Unquoted? && IsGap(gap) && gap != ""
    ensures Strict(st, gap + rest) == Strict(st.Break(), rest)
    decreases |gap|
  {
    var c := gap[0];
    assert c in gap;
    SpecialExact(c);
    assert (gap + rest)[1..] == gap[1..] + rest;
    if gap[1..] == "" {
      assert gap[1..] + rest == rest;
    } else {
      assert IsGap(gap[1..]);
      GapRead(st.Break(), gap[1..], rest);
    }
  }

  /** Words with white space after each. */
  function Line(words: seq<(Word, string)>): string {
    if words == [] then "" else Written(words[0].0) + words[0].1 + Line(words[1..])
  }

  function Texts(words: seq<(Word, string)>): seq<string> {
    if words == [] then [] else [Text(words[0].0)] + Texts(words[1..])
  }

  predicate LegalLine(words: seq<(Word, string)>) {
    && (forall w :: w in words ==> Legal(w.0) && IsGap(w.1))
    && (forall i :: 0 <= i < |words| - 1 ==> words[i].1 != "")
  }

  lemma {:induction false} LineRead(done: seq<string>, words: seq<(Word, string)>)
    requires LegalLine(words)
    ensures Strict(State(done, "", Unquoted, false), Line(words)) == Ok(done + Texts(words))
    decreases |words|
  {
    var st := State(done, "", Unquoted, false);
    hide Strict, Written, Text, Legal, IsGap;
    if words == [] {
      EndRead(st);
      assert done + Texts(words) == done;
    } else {
      var (word, gap) := words[0];
      assert words[0] in words;
      var tail := Line(words[1..]);
      assert Line(words) == Written(word) + (gap + tail);
      PiecesRead(st, word, gap + tail);
      var read := Reads(st, Text(word));
      assert read == State(done, Text(word), Unquoted, true);
      if gap == "" {
        assert words[1..] == [];
        assert gap + tail == "";
        EndRead(read);
        assert done + [Text(word)] == done + Texts(words);
      } else {
        GapRead(read, gap, tail);
        LineRead(done + [Text(word)], words[1..]);
        assert done + [Text(word)] + Texts(words[1..]) == done + Texts(words);
      }
    }
  }

  /** Both splitters read a line of words as it is meant, however each word is put together
      from bare characters, escaped single quotes and quoted text, and whatever white space
      stands before, between and after. */
  lemma LineMeans(lead: string, words: seq<(Word, string)>)
    requires IsGap(lead) && LegalLine(words)
    ensures Strict(START, lead + Line(words)) == Ok(Texts(words))
    ensures Lenient(START, lead + Line(words)) == Ok(Texts(words))
  {
    hide Strict, Lenient;
    if lead == "" {
      assert lead + Line(words) == Line(words);
    } else {
      GapRead(START, lead, Line(words));
    }
    LineRead([], words);
    assert [] + Texts(words) == Texts(words);
    SplittersAgree(START, lead + Line(words));
  }

  // ---------------------------------------------------- lenient backslashes

  /** Every character behind a backslash. */
  function Escaped(s: string): string { if s == "" then "" else ['\\', s[0]] + Escaped(s[1..]) }

  lemma {:induction false} EscapedRead(st: State, s: string, rest: string)
    requires st.mode.Unquoted? || (st.mode.Double? && st.inWord)
    ensures Lenient(st, Escaped(s) + rest) == Lenient(if s == "" then st else Reads(st, s), rest)
    decreases |s|
  {
    if s == "" {
      assert Escaped(s) + rest == rest;
    } else {
      var more := Escaped(s[1..]) + rest;
      assert Escaped(s) + rest == ['\\', s[0]] + more;
      assert (['\\', s[0]] + more)[1..] == [s[0]] + more && ([s[0]] + more)[1..] == more;
      var next := if st.mode.Unquoted? then st.Push(s[0]) else st.Keep(s[0]);
      assert Lenient(st, ['\\', s[0]] + more) == Lenient(next, more);
      EscapedRead(next, s[1..], rest);
      assert st.current + [s[0]] + s[1..] == st.current + s;
      assert s[1..] == "" ==> s == [s[0]];
    }
  }

  /** Behind a backslash the lenient splitter takes any character as it is, bare or within
      double quotes; a backslash at the very end stands for itself. */
  lemma BackslashMeans(s: string)
    ensures s != "" ==> Lenient(START, Escaped(s)) == Ok([s])
    ensures Lenient(START, "\"" + Escaped(s) + "\"") == Ok([s])
    ensures Lenient(START, "\\") == Ok(["\\"])
  {
    assert Escaped(s) + "" == Escaped(s);
    EscapedRead(START, s, "");
    var line := "\"" + Escaped(s) + "\"";
    assert line[1..] == Escaped(s) + "\"";
    var inside := START.Enter(Double);
    EscapedRead(inside, s, "\"");
    var read := if s == "" then inside else Reads(inside, s);
    assert "\""[1..] == "";
    assert Lenient(read, "\"") == Lenient(read.Leave(), "");
    assert [] + [s] == [s] && "" + s == s;
    assert "\\"[1..] == "";
    assert [] + ["\\"] == ["\\"] && "" + "\\" == "\\";
  }
}
