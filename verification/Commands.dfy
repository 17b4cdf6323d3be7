/** The commands of KubeCommander, the texts it hands to `sh -c`, and how a shell reads them. */
module Commands {
  import opened Wrappers
  import opened Strings
  import opened Naming
  import opened Shell

  const BaseDir := "/root/.docker/trust"

  /** The commands, by what they are given. */
  datatype Command =
    | Load(path: string)
    | Images
    | Tag(imageId: string, image: string)
    | TrustSign(image: string)
    | MkdirBase
    | GenerateKey(role: Role)
    | Ls
    | Cat(filename: string)

  function Text(command: Command): string {
    match command
    case Load(path) => Join(["docker", "load", "<", path], " ")
    case Images => Join(["docker", "images", "-q"], " ")
    case Tag(imageId, image) => Join(["docker", "tag", imageId, image], " ")
    case TrustSign(image) => Join(["docker", "trust", "sign", image], " ")
    case MkdirBase => Join(["mkdir", "-p", BaseDir], " ")
    case GenerateKey(r) => Join(["docker", "trust", "key", "generate", RoleName(r), "--dir", BaseDir], " ")
    case Ls => Join(["ls", "--color=never", PrivateKeyDir], " ")
    case Cat(filename) => Join(["cat", KeyPath(filename)], " ")
  }

  /** The texts, letter by letter. */
  lemma TextIs(command: Command)
    ensures match command
            case Load(path) => Text(command) == "docker load < " + path
            case Images => Text(command) == "docker images -q"
            case Tag(imageId, image) => Text(command) == "docker tag " + imageId + " " + image
            case TrustSign(image) => Text(command) == "docker trust sign " + image
            case MkdirBase => Text(command) == "mkdir -p " + "/root/.docker/trust"
            case GenerateKey(r) => Text(command) ==
              "docker trust key generate " + (match r case Root => "root" case Target => "target")
              + " --dir " + "/root/.docker/trust"
            case Ls => Text(command) == "ls --color=never " + "/root/.docker/trust/private"
            case Cat(filename) => Text(command) == "cat " + KeyPath(filename)
  {
    hide KeyPath, Join;
    match command
    case Load(path) => LoadSpelled(path);
    case Images => ImagesSpelled();
    case Tag(imageId, image) => TagSpelled(imageId, image);
    case TrustSign(image) => SignSpelled(image);
    case MkdirBase => BaseSpelled(BaseDir);
    case GenerateKey(r) => GenerateSpelled(RoleName(r), BaseDir);
    case Ls => LsSpelled(PrivateKeyDir);
    case Cat(filename) => CatSpelled(KeyPath(filename));
  }

  lemma LoadSpelled(path: string)
    ensures Join(["docker", "load", "<", path], " ") == "docker load < " + path
  {
    Join4("docker", "load", "<", path, " ");
    assert "docker" + " " + ("load" + " " + ("<" + " ")) == "docker load < ";
  }

  lemma ImagesSpelled()
    ensures Join(["docker", "images", "-q"], " ") == "docker images -q"
  {
    Join3("docker", "images", "-q", " ");
    assert "docker" + " " + ("images" + " " + "-q") == "docker images -q";
  }

  lemma TagSpelled(imageId: string, image: string)
    ensures Join(["docker", "tag", imageId, image], " ") == "docker tag " + imageId + " " + image
  {
    Join4("docker", "tag", imageId, image, " ");
    assert "docker" + " " + ("tag" + " ") == "docker tag ";
  }

  lemma SignSpelled(image: string)
    ensures Join(["docker", "trust", "sign", image], " ") == "docker trust sign " + image
  {
    Join4("docker", "trust", "sign", image, " ");
    assert "docker" + " " + ("trust" + " " + ("sign" + " ")) == "docker trust sign ";
  }

  lemma BaseSpelled(dir: string)
    ensures Join(["mkdir", "-p", dir], " ") == "mkdir -p " + dir
  {
    Join3("mkdir", "-p", dir, " ");
    assert "mkdir" + " " + ("-p" + " ") == "mkdir -p ";
  }

  lemma GenerateSpelled(role: string, dir: string)
    ensures Join(["docker", "trust", "key", "generate", role, "--dir", dir], " ")
         == "docker trust key generate " + role + " --dir " + dir
  {
    hide Join;
    JoinSeven("docker", "trust", "key", "generate", role, "--dir", dir);
    GenerateLiterals();
    Spelled(role, dir);
  }

  lemma JoinSeven(a: string, b: string, c: string, d: string, e: string, f: string, g: string)
    ensures Join([a, b, c, d, e, f, g], " ") == a + " " + (b + " " + (c + " " + (d + " " + (e + " " + (f + " " + g)))))
  {
    hide Join;
    Join4(d, e, f, g, " ");
    JoinFirst(c, [d, e, f, g]);
    JoinFirst(b, [c, d, e, f, g]);
    JoinFirst(a, [b, c, d, e, f, g]);
    assert [c] + [d, e, f, g] == [c, d, e, f, g];
    assert [b] + [c, d, e, f, g] == [b, c, d, e, f, g];
    assert [a] + [b, c, d, e, f, g] == [a, b, c, d, e, f, g];
  }

  lemma GenerateLiterals()
    ensures "docker" + " " + ("trust" + " " + ("key" + " " + ("generate" + " "))) == "docker trust key generate "
    ensures " " + ("--dir" + " ") == " --dir "
  {
  }

  lemma Spelled(role: string, dir: string)
    requires "docker" + " " + ("trust" + " " + ("key" + " " + ("generate" + " "))) == "docker trust key generate "
    requires " " + ("--dir" + " ") == " --dir "
    ensures "docker" + " " + ("trust" + " " + ("key" + " " + ("generate" + " " + (role + " " + ("--dir" + " " + dir)))))
         == "docker trust key generate " + role + " --dir " + dir
  {
    var a, b, c, d, e := "docker", "trust", "key", "generate", "--dir";
    assert a + " " + (b + " " + (c + " " + (d + " " + (role + " " + (e + " " + dir)))))
        == a + " " + (b + " " + (c + " " + (d + " "))) + role + (" " + (e + " ")) + dir;
  }

  lemma LsSpelled(dir: string)
    ensures Join(["ls", "--color=never", dir], " ") == "ls --color=never " + dir
  {
    Join3("ls", "--color=never", dir, " ");
    assert "ls" + " " + ("--color=never" + " ") == "ls --color=never ";
  }

  lemma CatSpelled(path: string)
    ensures Join(["cat", path], " ") == "cat " + path
  {
    assert ["cat", path][1..] == [path];
    assert "cat" + " " == "cat ";
  }

  /** What the shell is meant to do with the text: run one command, with the arguments as they are. */
  function Meant(command: Command): Simple {
    match command
    case Load(path) => Simple(["docker", "load"], Some(path), None)
    case Images => Simple(["docker", "images", "-q"], None, None)
    case Tag(imageId, image) => Simple(["docker", "tag", imageId, image], None, None)
    case TrustSign(image) => Simple(["docker", "trust", "sign", image], None, None)
    case MkdirBase => Simple(["mkdir", "-p", BaseDir], None, None)
    case GenerateKey(r) => Simple(["docker", "trust", "key", "generate", RoleName(r), "--dir", BaseDir], None, None)
    case Ls => Simple(["ls", "--color=never", PrivateKeyDir], None, None)
    case Cat(filename) => Simple(["cat", KeyPath(filename)], None, None)
  }

  predicate ReadAsMeant(command: Command) { Parse(Text(command)) == Some([Meant(command)]) }

  /** All that is put into the text from elsewhere is a plain word. */
  predicate PlainCommand(command: Command) {
    match command
    case Load(path) => PlainWord(path)
    case Tag(imageId, image) => PlainWord(imageId) && PlainWord(image)
    case TrustSign(image) => PlainWord(image)
    case Cat(filename) => PlainWord(KeyPath(filename))
    case _ => true
  }

  // ---------------------------------------------------------------- texts that end in something from elsewhere

  predicate AllPlain(words: seq<string>) { forall w :: w in words ==> PlainWord(w) }

  lemma PlainOne(words: seq<string>, input: Option<string>)
    requires words != [] && AllPlain(words) && (input.Some? ==> PlainWord(input.value))
    ensures Parse(Join(words + (if input.Some? then ["<", input.value] else []), " ")) == Some([Simple(words, input, None)])
  {
    hide PlainWord, ReadAll, Join, Parse;
    var c := Simple(words, input, None);
    var pieces := seq(|words|, i requires 0 <= i < |words| => Plain(words[i]))
                  + if input.Some? then [From, Plain(input.value)] else [];
    forall p | p in pieces ensures p.Valid() {}
    ReadPieces(pieces);
    assert Texts(pieces) == words + (if input.Some? then ["<", input.value] else []);
    assert PieceTokens(pieces) == SimpleTokens(c);
    assert ReadsAs(Join(Texts(pieces), " "), c);
    ParseOne(Join(Texts(pieces), " "), c);
  }

  lemma ParseOne(text: string, c: Simple)
    requires ReadsAs(text, c)
    ensures Parse(text) == Some([c])
  {
    hide Parse, ReadsAs;
    ParseList([text], [c]);
    assert Join([text], "; ") == text;
  }

  /** Reading plain words and then more. */
  lemma ReadBefore(words: seq<string>, rest: string)
    requires words != [] && AllPlain(words)
    ensures ReadAll(Idle, Join(words, " ") + " " + rest) == After(Words(words), ReadAll(Idle, rest))
  {
    hide PlainWord, ReadAll, Join;
    var pieces := seq(|words|, i requires 0 <= i < |words| => Plain(words[i]));
    forall p | p in pieces ensures p.Valid() {}
    ReadPieces(pieces);
    assert Texts(pieces) == words && PieceTokens(pieces) == Words(words);
    ReadSeparated(Join(words, " "), Words(words), " ", [], rest);
    assert Words(words) + [] == Words(words);
  }

  lemma AfterSize(words: seq<string>, l: Lexer)
    requires l.Lexer?
    ensures After(Words(words), l).Lexer? && Size(After(Words(words), l)) == Length(words) + Size(l)
  {
    WordsWeight(words);
    WeightAppend(Words(words), l.tokens);
  }

  lemma JoinMore(words: seq<string>, w: string)
    requires words != []
    ensures Join(words + [w], " ") == Join(words, " ") + " " + w
  {
    if |words| == 1 {
      assert (words + [w])[1..] == [w];
    } else {
      assert (words + [w])[1..] == words[1..] + [w];
      JoinMore(words[1..], w);
      assert Join(words + [w], " ") == words[0] + " " + (Join(words[1..], " ") + " " + w);
    }
  }

  lemma WordsAlone(words: seq<string>)
    requires words != []
    ensures Commands(Words(words), Nothing) == Some([Simple(words, None, None)])
  {
    var c := Simple(words, None, None);
    CommandsOfSimple(c, []);
    assert SimpleTokens(c) + [] == Words(words);
  }

  /** A last argument is read as it is exactly if it is a plain word. */
  lemma LastArgumentIff(words: seq<string>, arg: string)
    requires words != [] && AllPlain(words)
    ensures Parse(Join(words + [arg], " ")) == Some([Simple(words + [arg], None, None)]) <==> PlainWord(arg)
  {
    var c := Simple(words + [arg], None, None);
    if PlainWord(arg) {
      PlainOne(words + [arg], None);
      assert words + [arg] + [] == words + [arg];
    } else if Parse(Join(words + [arg], " ")) == Some([c]) {
      assert words + [] + [arg] == words + [arg] && "" + arg == arg;
      LastRead(words, [], arg, c);
      LengthLast(words, arg);
      if arg == "" {
        assert Words(words) + [] == Words(words);
        WordsAlone(words);
      } else {
        ReadFull(Idle, arg);
      }
    }
  }

  /** How the last argument of a text with this reading was read. */
  lemma LastRead(words: seq<string>, more: seq<string>, arg: string, c: Simple)
    requires words != [] && AllPlain(words) && (more == [] || more == ["<"])
    requires Parse(Join(words + more + [arg], " ")) == Some([c])
    ensures var l := ReadAll(Idle, (if more == [] then "" else "< ") + arg);
            && l.Lexer? && !l.quoted && Length(words) + Size(l) == SimpleWeight(c)
            && Commands(Words(words) + EndWord(l).tokens, Nothing) == Some([c])
  {
    hide PlainWord, Parse, Commands, AllPlain;
    var text, rest := Join(words + more + [arg], " "), (if more == [] then "" else "< ") + arg;
    JoinMore(words + more, arg);
    if more == [] {
      assert words + more == words && rest == arg;
    } else {
      JoinMore(words, "<");
      assert Join(words, " ") + " " + "<" + " " + arg == Join(words, " ") + " " + rest;
    }
    ReadBefore(words, rest);
    ReadOfSimple(text, c);
    EndAfter(Words(words), ReadAll(Idle, rest));
    AfterSize(words, ReadAll(Idle, rest));
  }

  lemma ReadFrom(arg: string)
    ensures ReadAll(Idle, "< " + arg) == After([Less], ReadAll(Idle, arg))
  {
    ReadOne(Idle, '<');
    ReadSeparated("<", [Less], " ", [], arg);
    assert "<" + " " + arg == "< " + arg && [Less] + [] == [Less];
  }

  lemma LessAlone(words: seq<string>)
    requires words != []
    ensures Commands(Words(words) + [Less], Nothing) == None
    decreases |words|
  {
    LessLast(words, 0);
    assert words[..0] == [] && words[0..] == words;
  }

  lemma {:induction false} LessLast(words: seq<string>, done: nat)
    requires done <= |words|
    ensures Commands(Words(words[done..]) + [Less], Simple(words[..done], None, None)) == None
    decreases |words| - done
  {
    var tokens := Words(words[done..]) + [Less];
    if done < |words| {
      LessLast(words, done + 1);
      assert tokens[1..] == Words(words[done + 1..]) + [Less];
      assert words[..done] + [words[done]] == words[..done + 1];
    } else {
      assert tokens == [Less];
    }
  }

  /** A file to read from is read as it is exactly if it is a plain word. */
  lemma InputIff(words: seq<string>, path: string)
    requires words != [] && AllPlain(words)
    ensures Parse(Join(words + ["<", path], " ")) == Some([Simple(words, Some(path), None)]) <==> PlainWord(path)
  {
    var c := Simple(words, Some(path), None);
    assert words + ["<", path] == words + ["<"] + [path];
    if PlainWord(path) {
      PlainOne(words, Some(path));
    } else if Parse(Join(words + ["<", path], " ")) == Some([c]) {
      LastRead(words, ["<"], path, c);
      ReadFrom(path);
      var l := ReadAll(Idle, path);
      WeightAppend([Less], l.tokens);
      assert Weight([Less]) == 0;
      if path == "" {
        assert EndWord(After([Less], Idle)).tokens == [Less];
        LessAlone(words);
      } else {
        ReadFull(Idle, path);
      }
    }
  }

  /** Two last arguments. */
  lemma LastTwoIff(words: seq<string>, a: string, b: string)
    requires words != [] && AllPlain(words)
    ensures Parse(Join(words + [a, b], " ")) == Some([Simple(words + [a, b], None, None)]) <==> PlainWord(a) && PlainWord(b)
  {
    var c := Simple(words + [a, b], None, None);
    assert words + [a, b] == words + [a] + [b];
    if PlainWord(a) && PlainWord(b) {
      PlainOne(words + [a, b], None);
      assert words + [a, b] + [] == words + [a, b];
    } else if Parse(Join(words + [a, b], " ")) == Some([c]) {
      TwoRead(words, a, b, c);
      LengthLast(words, a);
      LengthLast(words + [a], b);
      TwoSized(a, b);
      TwoCounted(words, a, b);
    }
  }

  lemma JoinTwo(words: seq<string>, a: string, b: string)
    requires words != []
    ensures Join(words + [a, b], " ") == Join(words, " ") + " " + (a + " " + b)
  {
    hide Join;
    assert words + [a, b] == words + [a] + [b];
    JoinMore(words + [a], b);
    JoinMore(words, a);
    assert Join(words, " ") + " " + a + " " + b == Join(words, " ") + " " + (a + " " + b);
  }

  lemma TwoRead(words: seq<string>, a: string, b: string, c: Simple)
    requires words != [] && AllPlain(words) && Parse(Join(words + [a, b], " ")) == Some([c])
    ensures var l := ReadAll(Idle, a + " " + b);
            && l.Lexer? && !l.quoted && Length(words) + Size(l) == SimpleWeight(c)
            && Commands(Words(words) + EndWord(l).tokens, Nothing) == Some([c])
  {
    hide PlainWord, Parse, Commands, AllPlain;
    var text, rest := Join(words + [a, b], " "), a + " " + b;
    JoinTwo(words, a, b);
    ReadBefore(words, rest);
    ReadOfSimple(text, c);
    EndAfter(Words(words), ReadAll(Idle, rest));
    AfterSize(words, ReadAll(Idle, rest));
  }

  /** If all but the blank has become words, both parts are plain, or missing. */
  lemma TwoSized(a: string, b: string)
    requires ReadAll(Idle, a + " " + b).Lexer? && !ReadAll(Idle, a + " " + b).quoted
    requires Size(ReadAll(Idle, a + " " + b)) == |a| + |b|
    ensures (a == "" || PlainWord(a)) && (b == "" || PlainWord(b))
  {
    hide ReadAll, Size, Meta, Leading;
    ReadAppend(Idle, a + " ", b);
    ReadAppend(Idle, a, " ");
    var l := ReadAll(Idle, a);
    var m := ReadAll(l, " ");
    NothingYet();
    if l.Bad? {
      BadStays(" ");
    }
    if m.Bad? {
      BadStays(b);
    }
    ReadFull(Idle, a);
    ReadFull(m, b);
    BlankSize(l);
  }

  lemma NothingYet()
    ensures Size(Idle) == 0
  {
  }

  lemma BlankSize(l: Lexer)
    requires l.Lexer?
    ensures ReadAll(l, " ").Lexer? && Size(ReadAll(l, " ")) <= Size(l) + (if l.quoted then 1 else 0)
    ensures !l.quoted ==> ReadAll(l, " ") == EndWord(l)
    ensures l.quoted ==> ReadAll(l, " ").quoted
  {
    ReadOne(l, ' ');
    EndSize(l);
  }

  /** A missing argument is missed. */
  lemma TwoCounted(words: seq<string>, a: string, b: string)
    requires words != [] && (a == "" || PlainWord(a)) && (b == "" || PlainWord(b)) && (a == "" || b == "")
    requires ReadAll(Idle, a + " " + b).Lexer?
    ensures Commands(Words(words) + EndWord(ReadAll(Idle, a + " " + b)).tokens, Nothing)
         != Some([Simple(words + [a, b], None, None)])
  {
    var l := ReadAll(Idle, a + " " + b);
    var more := (if a == "" then [] else [a]) + (if b == "" then [] else [b]);
    assert EndWord(l).tokens == Words(more) by { FewRead(a, b); }
    assert Words(words) + Words(more) == Words(words + more);
    WordsAlone(words + more);
    assert |words + more| < |words + [a, b]|;
  }

  lemma FewRead(a: string, b: string)
    requires (a == "" || PlainWord(a)) && (b == "" || PlainWord(b))
    ensures EndWord(ReadAll(Idle, a + " " + b)) ==
            Lexer(Words((if a == "" then [] else [a]) + (if b == "" then [] else [b])), None, false)
  {
    ReadAppend(Idle, a + " ", b);
    ReadAppend(Idle, a, " ");
    var l := ReadAll(Idle, a);
    if a != "" {
      ReadPlain([], [], a);
      assert [] + a == a;
    }
    ReadOne(l, ' ');
    var m := ReadAll(l, " ");
    assert m == Lexer(Words(if a == "" then [] else [a]), None, false);
    if b != "" {
      ReadPlain(m.tokens, [], b);
      assert [] + b == b;
    }
  }

  /** An argument with a semicolon ends its command, and what follows it is one of its own. */
  lemma TwoCommands(words: seq<string>, a: string, more: seq<string>)
    requires words != [] && AllPlain(words) && PlainWord(a) && more != [] && AllPlain(more)
    ensures Parse(Join(words + [a + "; " + Join(more, " ")], " "))
         == Some([Simple(words + [a], None, None), Simple(more, None, None)])
  {
    hide PlainWord, Parse, ReadsAs, Join;
    var first, second := Join(words + [a], " "), Join(more, " ");
    PlainReads(words + [a]);
    PlainReads(more);
    ParseList([first, second], [Simple(words + [a], None, None), Simple(more, None, None)]);
    JoinMore(words, a);
    JoinMore(words, a + "; " + second);
    TwoTexts(first, second);
    assert Join(words, " ") + " " + (a + "; " + second) == Join(words, " ") + " " + a + "; " + second;
  }

  lemma TwoTexts(a: string, b: string)
    ensures Join([a, b], "; ") == a + "; " + b
  {
    assert [a, b][1..] == [b];
  }

  // ---------------------------------------------------------------- the commands

  lemma FirstWords()
    ensures AllPlain(["docker", "load"]) && AllPlain(["docker", "tag"]) && AllPlain(["docker", "trust", "sign"])
    ensures AllPlain(["cat"]) && AllPlain(["docker", "images", "-q"])
  {
  }

  lemma DirectoryWords()
    ensures AllPlain(["mkdir", "-p", BaseDir]) && AllPlain(["ls", "--color=never", PrivateKeyDir])
  {
    PrivateKeyDirPlain();
    assert PrivateKeyDir[0] == '/' && BaseDir[0] == '/';
    assert forall c :: c in BaseDir ==> !Meta(c);
    assert forall c :: c in "--color=never" ==> !Meta(c);
  }

  lemma GenerateWords(r: Role)
    ensures AllPlain(["docker", "trust", "key", "generate", RoleName(r), "--dir", BaseDir])
  {
    hide PlainWord, RoleName;
    GeneratePlain();
    RolePlain(r);
  }

  lemma GeneratePlain()
    ensures PlainWord("docker") && PlainWord("trust") && PlainWord("key") && PlainWord("generate") && PlainWord("--dir")
    ensures PlainWord(BaseDir)
  {
    assert BaseDir[0] == '/';
    assert forall c :: c in BaseDir ==> !Meta(c);
  }

  lemma RolePlain(r: Role)
    ensures PlainWord(RoleName(r))
  {
  }

  lemma ConstantRead(words: seq<string>)
    requires words != [] && AllPlain(words)
    ensures Parse(Join(words, " ")) == Some([Simple(words, None, None)])
  {
    PlainOne(words, None);
    assert words + [] == words;
  }

  /** The shell reads the text as the one command meant exactly if what was put into it are plain words. */
  lemma ReadAsMeantIff(command: Command)
    ensures ReadAsMeant(command) <==> PlainCommand(command)
  {
    hide PlainWord, Parse, Join, AllPlain, BaseDir, PrivateKeyDir, RoleName, KeyPath;
    FirstWords();
    DirectoryWords();
    match command
    case Load(path) => InputIff(["docker", "load"], path);
      assert ["docker", "load"] + ["<", path] == ["docker", "load", "<", path];
    case Images => ConstantRead(["docker", "images", "-q"]);
    case Tag(imageId, image) => LastTwoIff(["docker", "tag"], imageId, image);
      assert ["docker", "tag"] + [imageId, image] == ["docker", "tag", imageId, image];
    case TrustSign(image) => LastArgumentIff(["docker", "trust", "sign"], image);
      assert ["docker", "trust", "sign"] + [image] == ["docker", "trust", "sign", image];
    case MkdirBase => ConstantRead(["mkdir", "-p", BaseDir]);
    case GenerateKey(r) =>
      GenerateWords(r);
      ConstantRead(["docker", "trust", "key", "generate", RoleName(r), "--dir", BaseDir]);
    case Ls => ConstantRead(["ls", "--color=never", PrivateKeyDir]);
    case Cat(filename) => LastArgumentIff(["cat"], KeyPath(filename));
      assert ["cat"] + [KeyPath(filename)] == ["cat", KeyPath(filename)];
  }
}
