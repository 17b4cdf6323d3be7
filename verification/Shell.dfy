/**
 The texts handed to a shell: how stored keys are printed into the post-start script of a signing pod, and a reader
 for the part of the Shell Command Language (POSIX.1-2017, sections 2.2.3, 2.3, 2.7 and 2.9) that these texts use.
 */
module Shell {
  import opened Wrappers
  import opened Strings
  import opened Paths

  const PrivateKeyDir := "/root/.docker/trust/private"

  /** The path ReadKey reads and the post-start script writes. */
  function KeyPath(filename: string): string { PathJoin([PrivateKeyDir, filename]) }

  function Quote(contents: string): string { "\"" + contents + "\"" }

  function StoreFileShellCommand(filename: string, contents: string): string {
    Join(["echo", Quote(contents), ">", KeyPath(filename)], " ")
  }

  const CaCommand := "update-ca-certificates"
  const MkdirCommand := Join(["mkdir", "-p", PrivateKeyDir], " ")
  const LoginCommand := Join(["cp", "/home/dockremap/.dockerconfigjson", "/root/.docker/config.json"], " ")

  /** The script of WithLifeCycle. */
  function PostStartScript(cmds: seq<string>): string {
    var execCmd := CaCommand + "; " + MkdirCommand;
    if cmds != [] then Join([execCmd] + cmds, "; ") else execCmd
  }

  // ---------------------------------------------------------------- reading a script

  datatype Token = Word(text: string) | Semi | Less | Great

  /** `word` is the word being read, if any. Bad: outside the modelled part of the language. */
  datatype Lexer = Lexer(tokens: seq<Token>, word: Option<string>, quoted: bool) | Bad

  /** Characters that mean something to the shell wherever they stand unquoted (section 2.2), and the newline. */
  predicate Meta(c: char) {
    || c == '|' || c == '&' || c == ';' || c == '<' || c == '>' || c == '(' || c == ')' || c == '$'
    || c == '`' || c == '\\' || c == '"' || c == '\'' || c == ' ' || c == '\t' || c == '\n'
    || c == '*' || c == '?' || c == '['
  }

  /** Characters that do at the start of a word (sections 2.3 and 2.6.1). */
  predicate Leading(c: char) { c == '#' || c == '~' }

  predicate PlainWord(w: string) { w != "" && !Leading(w[0]) && forall c :: c in w ==> !Meta(c) }

  /** Text that double quotes protect completely (section 2.2.3). */
  predicate Quotable(s: string) { '"' !in s && '$' !in s && '`' !in s && '\\' !in s }

  function EndWord(l: Lexer): Lexer {
    if l.Bad? || l.word.None? then l else Lexer(l.tokens + [Word(l.word.value)], None, l.quoted)
  }

  function Emit(l: Lexer, t: Token): Lexer {
    var e := EndWord(l);
    if e.Bad? then Bad else Lexer(e.tokens + [t], None, false)
  }

  function Read(l: Lexer, c: char): Lexer {
    if l.Bad? then Bad
    else if l.quoted then
      if c == '"' then l.(quoted := false)
      else if c == '$' || c == '`' || c == '\\' then Bad
      else l.(word := Some(l.word.GetOr("") + [c]))
    else if c == ' ' || c == '\t' then EndWord(l)
    else if c == ';' || c == '\n' then Emit(l, Semi)
    else if c == '<' then if l.word.Some? then Bad else Emit(l, Less)
    else if c == '>' then if l.word.Some? then Bad else Emit(l, Great)
    else if c == '"' then l.(quoted := true, word := Some(l.word.GetOr("")))
    else if Meta(c) || (l.word.None? && Leading(c)) then Bad
    else l.(word := Some(l.word.GetOr("") + [c]))
  }

  function ReadAll(l: Lexer, s: string): Lexer
    decreases |s|
  {
    if s == [] then l else ReadAll(Read(l, s[0]), s[1..])
  }

  const Idle := Lexer([], None, false)

  function Tokens(s: string): Option<seq<Token>> {
    var l := EndWord(ReadAll(Idle, s));
    if l.Bad? || l.quoted then None else Some(l.tokens)
  }

  datatype Simple = Simple(words: seq<string>, input: Option<string>, output: Option<string>)

  const Nothing := Simple([], None, None)

  /** Simple commands separated by `;` (section 2.9.3), each with at most one redirection of a kind, at its end. */
  function Commands(tokens: seq<Token>, cur: Simple): Option<seq<Simple>>
    decreases |tokens|
  {
    if tokens == [] then Some(if cur == Nothing then [] else [cur])
    else match tokens[0]
      case Word(w) =>
        if cur.input.Some? || cur.output.Some? then None else Commands(tokens[1..], cur.(words := cur.words + [w]))
      case Less =>
        if cur.input.Some? || cur.output.Some? || |tokens| < 2 || !tokens[1].Word? then None
        else Commands(tokens[2..], cur.(input := Some(tokens[1].text)))
      case Great =>
        if cur.output.Some? || |tokens| < 2 || !tokens[1].Word? then None
        else Commands(tokens[2..], cur.(output := Some(tokens[1].text)))
      case Semi =>
        var rest := Commands(tokens[1..], Nothing);
        if cur.words == [] || rest.None? then None else Some([cur] + rest.value)
  }

  function Parse(script: string): Option<seq<Simple>> {
    var tokens := Tokens(script);
    if tokens.None? then None else Commands(tokens.value, Nothing)
  }

  // ---------------------------------------------------------------- the reader inverts the printer

  lemma {:induction false} ReadAppend(l: Lexer, a: string, b: string)
    ensures ReadAll(l, a + b) == ReadAll(ReadAll(l, a), b)
    decreases |a|
  {
    if a == [] {
      assert a + b == b;
    } else {
      assert (a + b)[1..] == a[1..] + b;
      ReadAppend(Read(l, a[0]), a[1..], b);
    }
  }

  /** What was read before does not change how the rest is read. */
  function After(before: seq<Token>, l: Lexer): Lexer {
    if l.Bad? then Bad else l.(tokens := before + l.tokens)
  }

  lemma {:induction false} ReadAfter(before: seq<Token>, l: Lexer, s: string)
    ensures ReadAll(After(before, l), s) == After(before, ReadAll(l, s))
    decreases |s|
  {
    if s != [] {
      if l.Lexer? && l.word.Some? {
        assert before + (l.tokens + [Word(l.word.value)]) == before + l.tokens + [Word(l.word.value)];
      }
      forall t: Token | l.Lexer? ensures After(before, Emit(l, t)) == Emit(After(before, l), t) {
        var e := EndWord(l);
        assert before + (e.tokens + [t]) == before + e.tokens + [t];
      }
      assert Read(After(before, l), s[0]) == After(before, Read(l, s[0]));
      ReadAfter(before, Read(l, s[0]), s[1..]);
    }
  }

  lemma {:induction false} ReadPlain(tokens: seq<Token>, w: string, s: string)
    requires (forall c :: c in s ==> !Meta(c)) && (w == [] && s != [] ==> !Leading(s[0]))
    ensures s != [] || w != [] ==>
              ReadAll(Lexer(tokens, if w == [] then None else Some(w), false), s) == Lexer(tokens, Some(w + s), false)
    decreases |s|
  {
    if s == [] {
      assert w + s == w;
    } else {
      ReadPlain(tokens, w + [s[0]], s[1..]);
      assert w + [s[0]] + s[1..] == w + s;
    }
  }

  lemma {:induction false} ReadQuoted(tokens: seq<Token>, w: string, s: string)
    requires Quotable(s)
    ensures ReadAll(Lexer(tokens, Some(w), true), s) == Lexer(tokens, Some(w + s), true)
    decreases |s|
  {
    if s == [] {
      assert w + s == w;
    } else {
      assert s[0] in s;
      ReadQuoted(tokens, w + [s[0]], s[1..]);
      assert w + [s[0]] + s[1..] == w + s;
    }
  }

  /** A blank-separated piece of a command and the token it stands for. */
  datatype Piece = Plain(w: string) | Quoted(s: string) | From | Into {
    predicate Valid() {
      match this
      case Plain(w) => PlainWord(w)
      case Quoted(s) => Quotable(s)
      case From => true
      case Into => true
    }

    function Text(): string {
      match this
      case Plain(w) => w
      case Quoted(s) => Quote(s)
      case From => "<"
      case Into => ">"
    }

    function Token(): Token {
      match this
      case Plain(w) => Word(w)
      case Quoted(s) => Word(s)
      case From => Less
      case Into => Great
    }
  }

  function Texts(pieces: seq<Piece>): seq<string> { seq(|pieces|, i requires 0 <= i < |pieces| => pieces[i].Text()) }

  function PieceTokens(pieces: seq<Piece>): seq<Token> { seq(|pieces|, i requires 0 <= i < |pieces| => pieces[i].Token()) }

  lemma ReadOne(l: Lexer, c: char)
    ensures ReadAll(l, [c]) == Read(l, c)
  {
    assert [c][1..] == [];
  }

  lemma ReadQuote(s: string)
    requires Quotable(s)
    ensures ReadAll(Idle, Quote(s)) == Lexer([], Some(s), false)
  {
    ReadAppend(Idle, "\"" + s, "\"");
    ReadAppend(Idle, "\"", s);
    ReadOne(Idle, '"');
    ReadQuoted([], "", s);
    assert "" + s == s;
    ReadOne(Lexer([], Some(s), true), '"');
  }

  lemma ReadPiece(p: Piece)
    requires p.Valid()
    ensures EndWord(ReadAll(Idle, p.Text())) == Lexer([p.Token()], None, false)
  {
    match p
    case Plain(w) =>
      ReadPlain([], [], w);
      assert [] + w == w;
    case Quoted(s) =>
      ReadQuote(s);
    case From =>
      ReadOne(Idle, '<');
    case Into =>
      ReadOne(Idle, '>');
  }

  /** Reading `text`, a separator and more: the separator ends the text's last word. */
  lemma ReadSeparated(text: string, tokens: seq<Token>, sep: string, extra: seq<Token>, rest: string)
    requires EndWord(ReadAll(Idle, text)) == Lexer(tokens, None, false)
    requires (sep == " " && extra == []) || (sep == "; " && extra == [Semi])
    ensures ReadAll(Idle, text + sep + rest) == After(tokens + extra, ReadAll(Idle, rest))
  {
    var l := ReadAll(Idle, text);
    ReadAppend(Idle, text + sep, rest);
    ReadAppend(Idle, text, sep);
    assert sep == [sep[0]] + sep[1..];
    if sep == " " {
      assert ReadAll(l, sep) == ReadAll(EndWord(l), []);
    } else {
      assert sep[1..] == " " && " "[1..] == [];
      assert ReadAll(l, sep) == ReadAll(Emit(l, Semi), " ") == ReadAll(Emit(l, Semi), []);
    }
    assert ReadAll(l, sep) == Lexer(tokens + extra, None, false) == After(tokens + extra, Idle);
    ReadAfter(tokens + extra, Idle, rest);
  }

  lemma EndAfter(before: seq<Token>, l: Lexer)
    ensures EndWord(After(before, l)) == After(before, EndWord(l))
  {
    if l.Lexer? && l.word.Some? {
      assert before + (l.tokens + [Word(l.word.value)]) == before + l.tokens + [Word(l.word.value)];
    }
  }

  lemma FirstPiece(pieces: seq<Piece>)
    requires pieces != []
    ensures Texts(pieces) == [pieces[0].Text()] + Texts(pieces[1..])
    ensures PieceTokens(pieces) == [pieces[0].Token()] + [] + PieceTokens(pieces[1..])
    ensures |Texts(pieces)| == |pieces|
  {
    hide Quote;
  }

  lemma JoinFirst(first: string, rest: seq<string>)
    ensures Join([first] + rest, " ") == if rest == [] then first else first + " " + Join(rest, " ")
  {
    assert ([first] + rest)[1..] == rest;
  }

  lemma {:induction false} ReadPieces(pieces: seq<Piece>)
    requires pieces != [] && forall p :: p in pieces ==> p.Valid()
    ensures EndWord(ReadAll(Idle, Join(Texts(pieces), " "))) == Lexer(PieceTokens(pieces), None, false)
  {
    hide ReadAll, Texts, PieceTokens, Join, Quote, Quotable, PlainWord;
    var p, rest := pieces[0], pieces[1..];
    ReadPiece(p);
    FirstPiece(pieces);
    JoinFirst(p.Text(), Texts(rest));
    if rest == [] {
      NoPieces();
      assert [p.Token()] + [] + [] == [p.Token()];
    } else {
      FirstPiece(rest);
      ReadPieces(rest);
      ReadSeparated(p.Text(), [p.Token()], " ", [], Join(Texts(rest), " "));
      EndAfter([p.Token()] + [], ReadAll(Idle, Join(Texts(rest), " ")));
    }
  }

  lemma NoPieces()
    ensures Texts([]) == [] && PieceTokens([]) == []
  {
  }

  function Words(words: seq<string>): seq<Token> { seq(|words|, i requires 0 <= i < |words| => Word(words[i])) }

  function SimpleTokens(c: Simple): seq<Token> {
    Words(c.words)
    + (if c.input.Some? then [Less, Word(c.input.value)] else [])
    + (if c.output.Some? then [Great, Word(c.output.value)] else [])
  }

  /** `text` is read as exactly the command `c`. */
  predicate ReadsAs(text: string, c: Simple) {
    c.words != [] && EndWord(ReadAll(Idle, text)) == Lexer(SimpleTokens(c), None, false)
  }

  function ListTokens(cs: seq<Simple>): seq<Token> {
    if cs == [] then []
    else if |cs| == 1 then SimpleTokens(cs[0])
    else SimpleTokens(cs[0]) + [Semi] + ListTokens(cs[1..])
  }

  lemma {:induction false} ReadList(texts: seq<string>, cs: seq<Simple>)
    requires |texts| == |cs| > 0
    requires forall i :: 0 <= i < |cs| ==> ReadsAs(texts[i], cs[i])
    ensures EndWord(ReadAll(Idle, Join(texts, "; "))) == Lexer(ListTokens(cs), None, false)
  {
    hide ReadAll;
    if |cs| > 1 {
      ReadList(texts[1..], cs[1..]);
      var first, rest := SimpleTokens(cs[0]) + [Semi], Join(texts[1..], "; ");
      ReadSeparated(texts[0], SimpleTokens(cs[0]), "; ", [Semi], rest);
      EndAfter(first, ReadAll(Idle, rest));
    }
  }

  lemma {:induction false} CommandsOfWords(words: seq<string>, done: nat, rest: seq<Token>)
    requires done <= |words|
    ensures Commands(Words(words[done..]) + rest, Simple(words[..done], None, None)) == Commands(rest, Simple(words, None, None))
    decreases |words| - done
  {
    var tokens := Words(words[done..]) + rest;
    if done < |words| {
      CommandsOfWords(words, done + 1, rest);
      assert tokens[1..] == Words(words[done + 1..]) + rest;
      assert words[..done] + [words[done]] == words[..done + 1];
    } else {
      assert tokens == rest && words[..done] == words;
    }
  }

  lemma CommandsOfSimple(c: Simple, rest: seq<Token>)
    requires c.words != [] && (rest == [] || rest[0] == Semi)
    ensures Commands(SimpleTokens(c) + rest, Nothing) == Commands(rest, c)
  {
    hide Commands, Words;
    var output := if c.output.Some? then [Great, Word(c.output.value)] else [];
    var input := if c.input.Some? then [Less, Word(c.input.value)] else [];
    CommandsOfWords(c.words, 0, input + (output + rest));
    assert c.words[0..] == c.words && c.words[..0] == [];
    assert SimpleTokens(c) + rest == Words(c.words) + (input + (output + rest));
    OutputOf(c, rest);
    InputOf(c, output + rest);
  }

  lemma InputOf(c: Simple, rest: seq<Token>)
    requires c.words != []
    ensures var input := if c.input.Some? then [Less, Word(c.input.value)] else [];
            Commands(input + rest, Simple(c.words, None, None)) == Commands(rest, c.(output := None))
  {
    if c.input.Some? {
      var tokens := [Less, Word(c.input.value)] + rest;
      assert tokens[2..] == rest;
    } else {
      assert [] + rest == rest;
    }
  }

  lemma OutputOf(c: Simple, rest: seq<Token>)
    requires c.words != []
    ensures var output := if c.output.Some? then [Great, Word(c.output.value)] else [];
            Commands(output + rest, c.(output := None)) == Commands(rest, c)
  {
    if c.output.Some? {
      var tokens := [Great, Word(c.output.value)] + rest;
      assert tokens[2..] == rest;
    } else {
      assert [] + rest == rest;
    }
  }

  lemma {:induction false} CommandsOfList(cs: seq<Simple>)
    requires forall c :: c in cs ==> c.words != []
    ensures Commands(ListTokens(cs), Nothing) == Some(cs)
  {
    if cs != [] {
      var c := cs[0];
      var rest := if |cs| == 1 then [] else [Semi] + ListTokens(cs[1..]);
      CommandsOfSimple(c, rest);
      assert SimpleTokens(c) + rest == ListTokens(cs);
      assert Commands(ListTokens(cs), Nothing) == Commands(rest, c);
      if |cs| == 1 {
        assert cs == [c];
      } else {
        CommandsOfList(cs[1..]);
        assert rest[1..] == ListTokens(cs[1..]);
        assert cs == [c] + cs[1..];
      }
    }
  }

  /** A reader recovers from a joined script exactly the commands that were joined. */
  lemma ParseList(texts: seq<string>, cs: seq<Simple>)
    requires |texts| == |cs| > 0
    requires forall i :: 0 <= i < |cs| ==> ReadsAs(texts[i], cs[i])
    ensures Parse(Join(texts, "; ")) == Some(cs)
  {
    ReadList(texts, cs);
    forall c | c in cs ensures c.words != [] {
      var i :| 0 <= i < |cs| && cs[i] == c;
      assert ReadsAs(texts[i], cs[i]);
    }
    CommandsOfList(cs);
  }

  // ---------------------------------------------------------------- nothing but plain words is read as it is

  function Weight(tokens: seq<Token>): nat {
    if tokens == [] then 0 else (if tokens[0].Word? then |tokens[0].text| else 0) + Weight(tokens[1..])
  }

  lemma {:induction false} WeightAppend(a: seq<Token>, b: seq<Token>)
    ensures Weight(a + b) == Weight(a) + Weight(b)
  {
    if a == [] {
      assert a + b == b;
    } else {
      assert (a + b)[1..] == a[1..] + b;
      WeightAppend(a[1..], b);
    }
  }

  /** How much of what was read has become the text of words. */
  function Size(l: Lexer): nat
    requires l.Lexer?
  {
    Weight(l.tokens) + if l.word.Some? then |l.word.value| else 0
  }

  lemma EndSize(l: Lexer)
    requires l.Lexer?
    ensures Size(EndWord(l)) == Size(l)
  {
    if l.word.Some? {
      WeightAppend(l.tokens, [Word(l.word.value)]);
    }
  }

  lemma EmitSize(l: Lexer, t: Token)
    requires l.Lexer? && !t.Word?
    ensures Size(Emit(l, t)) == Size(l)
  {
    EndSize(l);
    WeightAppend(EndWord(l).tokens, [t]);
  }

  /** A character adds at most itself, and outside of quotes only if it means nothing to the shell. */
  lemma ReadSize(l: Lexer, c: char)
    requires l.Lexer? && Read(l, c).Lexer?
    ensures Size(Read(l, c)) + (if l.quoted != Read(l, c).quoted then 1 else 0) <= Size(l) + 1
    ensures !l.quoted && Size(Read(l, c)) == Size(l) + 1 ==>
              !Meta(c) && (l.word.None? ==> !Leading(c)) && !Read(l, c).quoted && Read(l, c).word.Some?
  {
    EndSize(l);
    EmitSize(l, Semi);
    EmitSize(l, Less);
    EmitSize(l, Great);
  }

  lemma {:induction false} BadStays(s: string)
    ensures ReadAll(Bad, s) == Bad
  {
    if s != [] {
      BadStays(s[1..]);
    }
  }

  /** If all of a text has become words, it is one plain word. */
  lemma {:induction false} ReadFull(l: Lexer, s: string)
    requires l.Lexer? && ReadAll(l, s).Lexer?
    ensures Size(ReadAll(l, s)) + (if l.quoted != ReadAll(l, s).quoted then 1 else 0) <= Size(l) + |s|
    ensures !l.quoted && s != "" && Size(ReadAll(l, s)) == Size(l) + |s| ==>
              (l.word.None? ==> !Leading(s[0])) && forall c :: c in s ==> !Meta(c)
    decreases |s|
  {
    hide Read, Size, Meta, Leading;
    if s != [] {
      var next := Read(l, s[0]);
      if next.Bad? {
        BadStays(s[1..]);
      } else {
        ReadSize(l, s[0]);
        ReadFull(next, s[1..]);
        assert s == [s[0]] + s[1..];
      }
    }
  }

  function Length(words: seq<string>): nat { if words == [] then 0 else |words[0]| + Length(words[1..]) }

  function SimpleWeight(c: Simple): nat {
    Length(c.words) + (if c.input.Some? then |c.input.value| else 0) + (if c.output.Some? then |c.output.value| else 0)
  }

  function ListWeight(cs: seq<Simple>): nat { if cs == [] then 0 else SimpleWeight(cs[0]) + ListWeight(cs[1..]) }

  lemma {:induction false} LengthLast(words: seq<string>, w: string)
    ensures Length(words + [w]) == Length(words) + |w|
  {
    if words == [] {
      assert [] + [w] == [w];
    } else {
      assert (words + [w])[1..] == words[1..] + [w];
      LengthLast(words[1..], w);
    }
  }

  lemma {:induction false} CommandsWeight(tokens: seq<Token>, cur: Simple)
    requires Commands(tokens, cur).Some?
    ensures ListWeight(Commands(tokens, cur).value) == SimpleWeight(cur) + Weight(tokens)
    decreases |tokens|
  {
    if tokens != [] {
      match tokens[0]
      case Word(w) =>
        LengthLast(cur.words, w);
        CommandsWeight(tokens[1..], cur.(words := cur.words + [w]));
      case Less =>
        assert tokens[1..][1..] == tokens[2..];
        CommandsWeight(tokens[2..], cur.(input := Some(tokens[1].text)));
      case Great =>
        assert tokens[1..][1..] == tokens[2..];
        CommandsWeight(tokens[2..], cur.(output := Some(tokens[1].text)));
      case Semi =>
        CommandsWeight(tokens[1..], Nothing);
        var rest := Commands(tokens[1..], Nothing).value;
        assert ([cur] + rest)[1..] == rest;
    }
  }

  lemma {:induction false} WordsWeight(words: seq<string>)
    ensures Weight(Words(words)) == Length(words)
  {
    if words != [] {
      assert Words(words)[1..] == Words(words[1..]);
      WordsWeight(words[1..]);
    }
  }

  /** What was read of a text whose reading is the single command `c`. */
  lemma ReadOfSimple(text: string, c: Simple)
    requires Parse(text) == Some([c])
    ensures ReadAll(Idle, text).Lexer? && !ReadAll(Idle, text).quoted && Size(ReadAll(Idle, text)) == SimpleWeight(c)
    ensures Commands(EndWord(ReadAll(Idle, text)).tokens, Nothing) == Some([c])
  {
    var l := ReadAll(Idle, text);
    EndSize(l);
    CommandsWeight(EndWord(l).tokens, Nothing);
    assert [c][1..] == [];
  }

  // ---------------------------------------------------------------- the commands the operator prints

  /** A file name without shell metacharacters. */
  predicate SafeName(filename: string) { PlainWord(filename) }

  lemma PrivateKeyDirPlain()
    ensures forall c :: c in PrivateKeyDir ==> !Meta(c)
  {
  }

  lemma KeyPathPlain(filename: string)
    requires SafeName(filename)
    ensures PlainWord(KeyPath(filename))
  {
    PrivateKeyDirPlain();
    var plain := (set c | c in PrivateKeyDir) + (set c | c in filename) + {'.', '/'};
    PathJoinChars([PrivateKeyDir, filename], plain);
    KeyPathRooted(filename);
  }

  /** Keys with different IDs have their files in different places. */
  lemma KeyPathInjective(a: string, b: string)
    requires Normal(a) && Normal(b)
    ensures KeyPath(a) == KeyPath(b) <==> a == b
  {
    hide DirPrefix;
    JoinFile(PrivateKeyDir, a);
    JoinFile(PrivateKeyDir, b);
    SamePrefix(DirPrefix(PrivateKeyDir), a, b);
  }

  lemma SamePrefix(prefix: string, a: string, b: string)
    ensures prefix + a == prefix + b <==> a == b
  {
    if prefix + a == prefix + b {
      assert a == (prefix + a)[|prefix|..] == (prefix + b)[|prefix|..] == b;
    }
  }

  /** A plainly named key has its file in docker's private directory. */
  lemma KeyPathIs(filename: string)
    requires Normal(filename)
    ensures KeyPath(filename) == "/root/.docker/trust/private/" + filename
  {
    PrivateDirParts();
    hide Split, Clean;
    SplitNowhere(filename, '/');
    var body := "root/.docker/trust/private" + ['/'] + filename;
    SplitAppend("root/.docker/trust/private", '/', filename);
    CleanRooted(body);
    JoinTwo(PrivateKeyDir, filename);
    assert PrivateKeyDir + ['/'] + filename == "/" + body;
  }

  lemma PrivateDirParts()
    ensures AllNormal(Split("root/.docker/trust/private", '/'))
  {
    hide Split, Normal;
    DirLiteral();
    FourNormal();
    FourSplit("root", ".docker", "trust", "private");
  }

  lemma DirLiteral()
    ensures "root" + ['/'] + (".docker" + ['/'] + ("trust" + ['/'] + "private")) == "root/.docker/trust/private"
  {
  }

  lemma FourSplit(a: string, b: string, c: string, d: string)
    requires Normal(a) && Normal(b) && Normal(c) && Normal(d)
    ensures AllNormal(Split(a + ['/'] + (b + ['/'] + (c + ['/'] + d)), '/'))
  {
    hide Split;
    SplitAppend(a, '/', b + ['/'] + (c + ['/'] + d));
    SplitAppend(b, '/', c + ['/'] + d);
    SplitAppend(c, '/', d);
    SplitNowhere(a, '/');
    SplitNowhere(b, '/');
    SplitNowhere(c, '/');
    SplitNowhere(d, '/');
  }

  lemma FourNormal()
    ensures Normal("root") && Normal(".docker") && Normal("trust") && Normal("private")
  {
  }

  lemma KeyPathRooted(filename: string)
    ensures KeyPath(filename) != ""
  {
    var elems := [PrivateKeyDir, filename];
    assert Join(elems, "/") == PrivateKeyDir + "/" + Join(elems[1..], "/");
  }

  function StoreCommand(filename: string, contents: string): Simple {
    Simple(["echo", contents], None, Some(KeyPath(filename)))
  }

  /** The command that restores a key, letter by letter. */
  lemma StoreText(filename: string, contents: string)
    ensures StoreFileShellCommand(filename, contents) == "echo \"" + contents + "\" > " + KeyPath(filename)
  {
    hide KeyPath;
    Join4("echo", Quote(contents), ">", KeyPath(filename), " ");
    assert "echo" + " " + (Quote(contents) + " " + (">" + " " + KeyPath(filename)))
        == "echo \"" + contents + "\" > " + KeyPath(filename);
  }

  lemma Join4(a: string, b: string, c: string, d: string, sep: string)
    ensures Join([a, b, c, d], sep) == a + sep + (b + sep + (c + sep + d))
  {
    assert [a, b, c, d][1..] == [b, c, d];
    Join3(b, c, d, sep);
  }

  lemma HeadText()
    ensures CaCommand + "; " + MkdirCommand == "update-ca-certificates; mkdir -p " + "/root/.docker/trust/private"
  {
    Join3("mkdir", "-p", PrivateKeyDir, " ");
    MkdirText(CaCommand, PrivateKeyDir);
    HeadLiteral();
  }

  lemma MkdirText(first: string, dir: string)
    ensures first + "; " + ("mkdir" + " " + ("-p" + " " + dir)) == first + "; mkdir -p " + dir
  {
    assert "; " + ("mkdir" + " " + ("-p" + " ")) == "; mkdir -p ";
  }

  lemma HeadLiteral()
    ensures "update-ca-certificates" + "; mkdir -p " == "update-ca-certificates; mkdir -p "
  {
  }

  lemma LoginText()
    ensures LoginCommand == "cp " + "/home/dockremap/.dockerconfigjson" + " " + "/root/.docker/config.json"
  {
    Join3("cp", "/home/dockremap/.dockerconfigjson", "/root/.docker/config.json", " ");
    CpText("/home/dockremap/.dockerconfigjson", "/root/.docker/config.json");
  }

  lemma CpText(from: string, to: string)
    ensures "cp" + " " + (from + " " + to) == "cp " + from + " " + to
  {
    assert "cp" + " " == "cp ";
  }

  lemma StoreReads(filename: string, contents: string)
    requires SafeName(filename) && Quotable(contents)
    ensures ReadsAs(StoreFileShellCommand(filename, contents), StoreCommand(filename, contents))
  {
    KeyPathPlain(filename);
    var pieces := [Plain("echo"), Quoted(contents), Into, Plain(KeyPath(filename))];
    ReadPieces(pieces);
    assert Texts(pieces) == ["echo", Quote(contents), ">", KeyPath(filename)];
    assert PieceTokens(pieces) == SimpleTokens(StoreCommand(filename, contents));
  }

  const Ca := Simple(["update-ca-certificates"], None, None)
  const Mkdir := Simple(["mkdir", "-p", PrivateKeyDir], None, None)
  const Login := Simple(["cp", "/home/dockremap/.dockerconfigjson", "/root/.docker/config.json"], None, None)

  lemma PlainReads(words: seq<string>)
    requires words != [] && forall w :: w in words ==> PlainWord(w)
    ensures ReadsAs(Join(words, " "), Simple(words, None, None))
  {
    var pieces := seq(|words|, i requires 0 <= i < |words| => Plain(words[i]));
    forall p | p in pieces ensures p.Valid() {}
    ReadPieces(pieces);
    assert Texts(pieces) == words;
    assert PieceTokens(pieces) == SimpleTokens(Simple(words, None, None));
  }

  lemma CaReads()
    ensures ReadsAs(CaCommand, Ca)
  {
    PlainReads(Ca.words);
  }

  lemma MkdirReads()
    ensures ReadsAs(MkdirCommand, Mkdir)
  {
    MkdirPlain();
    hide PrivateKeyDir, PlainWord;
    PlainReads(Mkdir.words);
  }

  lemma MkdirPlain()
    ensures PlainWord("mkdir") && PlainWord("-p") && PlainWord(PrivateKeyDir)
  {
    PrivateKeyDirPlain();
    assert PrivateKeyDir[0] == '/';
  }

  lemma LoginReads()
    ensures ReadsAs(LoginCommand, Login)
  {
    LoginFilePlain();
    LoginConfigPlain();
    hide PlainWord;
    PlainReads(Login.words);
  }

  lemma LoginFilePlain()
    ensures PlainWord("cp") && PlainWord("/home/dockremap/.dockerconfigjson")
  {
    assert forall c :: c in "/home/dockremap/.dockerconfigjson" ==> !Meta(c);
    assert "/home/dockremap/.dockerconfigjson"[0] == '/';
  }

  lemma LoginConfigPlain()
    ensures PlainWord("/root/.docker/config.json")
  {
    assert forall c :: c in "/root/.docker/config.json" ==> !Meta(c);
    assert "/root/.docker/config.json"[0] == '/';
  }

  /** The whole post-start script is read as update-ca-certificates, mkdir and the given commands, in order. */
  lemma ScriptRoundTrip(texts: seq<string>, cs: seq<Simple>)
    requires |texts| == |cs| && forall i :: 0 <= i < |cs| ==> ReadsAs(texts[i], cs[i])
    ensures Parse(PostStartScript(texts)) == Some([Ca, Mkdir] + cs)
  {
    CaReads();
    MkdirReads();
    HeadsRoundTrip(CaCommand, Ca, MkdirCommand, Mkdir, texts, cs);
  }

  lemma HeadsRoundTrip(a: string, ca: Simple, b: string, cb: Simple, texts: seq<string>, cs: seq<Simple>)
    requires ReadsAs(a, ca) && ReadsAs(b, cb)
    requires |texts| == |cs| && forall i :: 0 <= i < |cs| ==> ReadsAs(texts[i], cs[i])
    ensures Parse(if texts == [] then a + "; " + b else Join([a + "; " + b] + texts, "; ")) == Some([ca, cb] + cs)
  {
    JoinHeads(a, b, texts, "; ");
    ParseList([a, b] + texts, [ca, cb] + cs);
  }

  lemma JoinHeads(a: string, b: string, texts: seq<string>, sep: string)
    ensures Join([a, b] + texts, sep) == if texts == [] then a + sep + b else Join([a + sep + b] + texts, sep)
  {
    var all := [a, b] + texts;
    assert all[1..] == [b] + texts;
    assert ([b] + texts)[1..] == texts;
    if texts == [] {
      assert all[1..] == [b];
    } else {
      assert ([a + sep + b] + texts)[1..] == texts;
      assert Join(all[1..], sep) == b + sep + Join(texts, sep);
      assert Join(all, sep) == a + sep + (b + sep + Join(texts, sep));
    }
  }

  // ---------------------------------------------------------------- running a script

  /** What `echo` would take for options in common shells; POSIX leaves `-n` open. */
  predicate EchoOption(s: string) {
    |s| > 1 && s[0] == '-' && forall i :: 1 <= i < |s| ==> s[i] in "neE"
  }

  /** Files after one command; None where its effect is not specified. */
  function Execute(files: map<string, string>, c: Simple): Option<map<string, string>> {
    if c == Ca || c == Mkdir then Some(files)
    else if |c.words| == 2 && c.words[0] == "echo" && c.input.None? && c.output.Some? && !EchoOption(c.words[1]) then
      Some(files[c.output.value := c.words[1] + "\n"])
    else if |c.words| == 3 && c.words[0] == "cp" && c.input.None? && c.output.None? && c.words[1] in files then
      Some(files[c.words[2] := files[c.words[1]]])
    else None
  }

  function RunAll(files: map<string, string>, cs: seq<Simple>): Option<map<string, string>>
    decreases |cs|
  {
    if cs == [] then Some(files)
    else
      var next := Execute(files, cs[0]);
      if next.None? then None else RunAll(next.value, cs[1..])
  }

  function RunScript(files: map<string, string>, script: string): Option<map<string, string>> {
    var cs := Parse(script);
    if cs.None? then None else RunAll(files, cs.value)
  }

  lemma {:induction false} RunAppend(files: map<string, string>, a: seq<Simple>, b: seq<Simple>)
    ensures RunAll(files, a + b) ==
            if RunAll(files, a).None? then None else RunAll(RunAll(files, a).value, b)
    decreases |a|
  {
    if a == [] {
      assert a + b == b;
    } else {
      assert (a + b)[1..] == a[1..] + b;
      var next := Execute(files, a[0]);
      if next.Some? {
        RunAppend(next.value, a[1..], b);
      }
    }
  }
}
