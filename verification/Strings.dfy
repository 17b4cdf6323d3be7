/** The part of Go's `strings` package the operator uses, on sequences of characters. */
module Strings {

  /** unicode.IsSpace */
  predicate IsSpace(c: char) {
    || c == ' ' || '\t' <= c <= '\r' || c == '\U{85}' || c == '\U{A0}'
    || c == '\U{1680}' || '\U{2000}' <= c <= '\U{200a}' || c == '\U{2028}' || c == '\U{2029}'
    || c == '\U{202f}' || c == '\U{205f}' || c == '\U{3000}'
  }

  /** strings.Contains */
  predicate Contains(s: string, sub: string) {
    sub <= s || (s != [] && Contains(s[1..], sub))
  }

  lemma {:induction false} ContainsAt(s: string, sub: string, i: nat)
    requires i + |sub| <= |s| && s[i..i + |sub|] == sub
    ensures Contains(s, sub)
  {
    if i > 0 {
      assert s[1..][i - 1..i - 1 + |sub|] == sub;
      ContainsAt(s[1..], sub, i - 1);
    }
  }

  /** The pattern stands in the text from here on. */
  predicate StandsAt(s: string, sub: string, i: int) { 0 <= i <= |s| - |sub| && s[i..i + |sub|] == sub }

  /** A text contains a pattern exactly if that stands somewhere in it. */
  lemma {:induction false} ContainsIff(s: string, sub: string)
    ensures Contains(s, sub) <==> exists i :: StandsAt(s, sub, i)
  {
    if sub <= s {
      assert StandsAt(s, sub, 0);
    } else if s != [] {
      ContainsIff(s[1..], sub);
      if Contains(s[1..], sub) {
        var i :| StandsAt(s[1..], sub, i);
        assert s[i + 1..i + 1 + |sub|] == s[1..][i..i + |sub|];
        assert StandsAt(s, sub, i + 1);
      }
    }
    forall i | StandsAt(s, sub, i) ensures Contains(s, sub) {
      ContainsAt(s, sub, i);
    }
  }

  /** Adding a newline, as `echo` does, neither creates nor destroys an occurrence of a pattern that does not end in one. */
  lemma {:induction false} ContainsLine(s: string, sub: string)
    requires sub != [] && sub[|sub| - 1] != '\n'
    ensures Contains(s + "\n", sub) <==> Contains(s, sub)
  {
    var t := s + "\n";
    assert t[|t| - 1] == '\n';
    if sub <= t && |sub| < |t| {
      assert sub == t[..|sub|] == s[..|sub|];
    }
    if s == [] {
      assert t[1..] == [];
    } else {
      assert t[1..] == s[1..] + "\n";
      ContainsLine(s[1..], sub);
    }
  }

  /** What a terminal makes of the text that a command prints: every newline comes with a carriage return. */
  function OnTerminal(s: string): string {
    if s == "" then "" else (if s[0] == '\n' then "\r\n" else [s[0]]) + OnTerminal(s[1..])
  }

  lemma {:induction false} TerminalAppend(a: string, b: string)
    ensures OnTerminal(a + b) == OnTerminal(a) + OnTerminal(b)
  {
    if a == "" {
      assert a + b == b;
    } else {
      assert (a + b)[1..] == a[1..] + b;
      TerminalAppend(a[1..], b);
    }
  }

  lemma {:induction false} TerminalLine(line: string)
    requires '\n' !in line
    ensures OnTerminal(line) == line
  {
    if line != "" {
      TerminalLine(line[1..]);
      assert line[0] in line && [line[0]] + line[1..] == line;
    }
  }

  lemma {:induction false} TerminalPrefix(s: string, sub: string)
    requires '\n' !in sub && '\r' !in sub
    ensures sub <= OnTerminal(s) <==> sub <= s
  {
    if s != "" && sub != "" {
      var first := if s[0] == '\n' then "\r\n" else [s[0]];
      assert OnTerminal(s)[0] == first[0];
      if s[0] != '\n' {
        assert OnTerminal(s)[1..] == OnTerminal(s[1..]);
        TerminalPrefix(s[1..], sub[1..]);
        assert sub == [sub[0]] + sub[1..] && s == [s[0]] + s[1..];
      }
    }
  }

  /** It neither makes nor breaks an occurrence of a pattern within one line. */
  lemma {:induction false} TerminalContains(s: string, sub: string)
    requires sub != "" && '\n' !in sub && '\r' !in sub
    ensures Contains(OnTerminal(s), sub) <==> Contains(s, sub)
  {
    TerminalPrefix(s, sub);
    if s != "" {
      TerminalContains(s[1..], sub);
      if s[0] == '\n' {
        var t := "\n" + OnTerminal(s[1..]);
        assert OnTerminal(s)[1..] == t && t[1..] == OnTerminal(s[1..]);
        assert sub[0] in sub && OnTerminal(s)[0] == '\r' && t[0] == '\n' && s[0] == '\n';
        assert Contains(OnTerminal(s), sub) == Contains(t, sub) == Contains(t[1..], sub);
      } else {
        assert OnTerminal(s)[1..] == OnTerminal(s[1..]);
      }
    }
  }

  lemma {:induction false} TerminalChars(s: string, c: char)
    ensures c in OnTerminal(s) ==> c in s || c == '\r'
  {
    if s != "" {
      TerminalChars(s[1..], c);
    }
  }

  /** Length of the run of non-blank characters that `s` starts with. */
  function WordLength(s: string): (n: nat)
    ensures n <= |s|
    ensures forall i :: 0 <= i < n ==> !IsSpace(s[i])
    ensures n < |s| ==> IsSpace(s[n])
  {
    if s == [] || IsSpace(s[0]) then 0 else 1 + WordLength(s[1..])
  }

  /** strings.Fields */
  function Fields(s: string): (words: seq<string>)
    ensures forall w :: w in words ==> w != [] && forall i :: 0 <= i < |w| ==> !IsSpace(w[i])
  {
    if s == [] then []
    else if IsSpace(s[0]) then Fields(s[1..])
    else
      var n := WordLength(s);
      [s[..n]] + Fields(s[n..])
  }

  lemma {:induction false} WordLengthIs(w: string, rest: string)
    requires (forall c :: c in w ==> !IsSpace(c)) && (rest == "" || IsSpace(rest[0]))
    ensures WordLength(w + rest) == |w|
  {
    hide IsSpace;
    if w == "" {
      assert w + rest == rest;
    } else {
      assert w[0] in w && (w + rest)[1..] == w[1..] + rest;
      WordLengthIs(w[1..], rest);
    }
  }

  predicate IsWord(w: string) { w != "" && forall c :: c in w ==> !IsSpace(c) }

  predicate AreWords(words: seq<string>) { forall i :: 0 <= i < |words| ==> IsWord(words[i]) }

  predicate Blank(s: string) { forall c :: c in s ==> IsSpace(c) }

  lemma FieldsFirst(w: string, rest: string)
    requires IsWord(w) && (rest == "" || IsSpace(rest[0]))
    ensures Fields(w + rest) == [w] + Fields(rest)
  {
    hide IsSpace;
    assert w[0] in w && (w + rest)[0] == w[0];
    WordLengthIs(w, rest);
    assert (w + rest)[..|w|] == w && (w + rest)[|w|..] == rest;
  }

  /** A text without blanks is one word, or none if it is empty. */
  lemma FieldsOfWord(w: string)
    requires forall c :: c in w ==> !IsSpace(c)
    ensures Fields(w) == if w == "" then [] else [w]
  {
    if w != "" {
      FieldsFirst(w, "");
      assert w + "" == w;
    }
  }

  lemma {:induction false} FieldsBehind(blanks: string, s: string)
    requires Blank(blanks)
    ensures Fields(blanks + s) == Fields(s)
  {
    hide IsSpace;
    if blanks == "" {
      assert blanks + s == s;
    } else {
      assert blanks[0] in blanks && (blanks + s)[1..] == blanks[1..] + s;
      FieldsBehind(blanks[1..], s);
    }
  }

  /** The first word of a text, and what is behind it. */
  lemma FirstWord(s: string) returns (w: string, rest: string)
    requires s != "" && !IsSpace(s[0])
    ensures s == w + rest && IsWord(w) && (rest == "" || IsSpace(rest[0]))
  {
    hide IsSpace;
    var n := WordLength(s);
    w, rest := s[..n], s[n..];
  }

  /** A blank parts the words in front of it from the words behind it. */
  lemma {:induction false} FieldsAppend(a: string, c: char, b: string)
    requires IsSpace(c)
    ensures Fields(a + [c] + b) == Fields(a) + Fields(b)
    decreases |a|
  {
    hide IsSpace, Fields;
    if a == "" {
      FieldsBehind([c], b);
      FieldsOfWord("");
      assert a + [c] + b == [c] + b;
    } else if IsSpace(a[0]) {
      FieldsBehind([a[0]], a[1..]);
      FieldsBehind([a[0]], a[1..] + [c] + b);
      FieldsAppend(a[1..], c, b);
      assert a == [a[0]] + a[1..] && a + [c] + b == [a[0]] + (a[1..] + [c] + b);
    } else {
      var w, more := FirstWord(a);
      FieldsFirst(w, more);
      assert (more + [c] + b)[0] == if more == "" then c else more[0];
      FieldsFirst(w, more + [c] + b);
      FieldsAppend(more, c, b);
      assert a + [c] + b == w + (more + [c] + b);
    }
  }

  /** Words with any blanks between them come back exactly, in their order. */
  lemma {:induction false} FieldsOfJoined(words: seq<string>, blanks: string)
    requires AreWords(words) && blanks != "" && Blank(blanks)
    ensures Fields(Join(words, blanks)) == words
  {
    hide IsSpace, Fields, IsWord;
    if words == [] {
      FieldsOfWord("");
    } else if |words| == 1 {
      FieldsFirst(words[0], "");
      FieldsOfWord("");
      assert words[0] + "" == words[0];
    } else {
      var w, rest := words[0], Join(words[1..], blanks);
      assert blanks[0] in blanks;
      assert w + blanks + rest == w + (blanks + rest) && (blanks + rest)[0] == blanks[0];
      FieldsFirst(w, blanks + rest);
      FieldsBehind(blanks, rest);
      FieldsOfJoined(words[1..], blanks);
      assert words == [w] + words[1..];
    }
  }

  /** Lines as a command prints them. */
  function Lines(words: seq<string>): string { if words == [] then "" else words[0] + "\n" + Lines(words[1..]) }

  lemma LineOnTerminal(w: string, rest: string)
    requires IsWord(w)
    ensures OnTerminal(w + "\n" + rest) == w + ("\r\n" + OnTerminal(rest))
  {
    hide IsSpace;
    TerminalAppend(w + "\n", rest);
    TerminalAppend(w, "\n");
    NewlineBlank();
    TerminalLine(w);
    assert OnTerminal("\n") == "\r\n";
  }

  lemma NewlineBlank()
    ensures IsSpace('\n') && IsSpace('\r') && Blank("\r\n")
  {
  }

  /** A listing, one name a line, comes back from the terminal name by name. */
  lemma {:induction false} FieldsOfListing(names: seq<string>)
    requires AreWords(names)
    ensures Fields(OnTerminal(Lines(names))) == names
  {
    hide IsSpace, Fields, IsWord, Blank, OnTerminal;
    if names == [] {
      TerminalLine("");
      FieldsOfWord("");
    } else {
      var name, rest := names[0], OnTerminal(Lines(names[1..]));
      LineOnTerminal(name, Lines(names[1..]));
      NewlineBlank();
      FieldsFirst(name, "\r\n" + rest);
      FieldsBehind("\r\n", rest);
      FieldsOfListing(names[1..]);
      assert names == [name] + names[1..];
    }
  }

  /** strings.Join */
  function Join(parts: seq<string>, sep: string): string {
    if parts == [] then []
    else if |parts| == 1 then parts[0]
    else parts[0] + sep + Join(parts[1..], sep)
  }

  /** Position of the first `c`, or the length of `s`. */
  function IndexOf(s: string, c: char): (n: nat)
    ensures n <= |s| && c !in s[..n]
    ensures n < |s| ==> s[n] == c
  {
    if s == [] || s[0] == c then 0 else 1 + IndexOf(s[1..], c)
  }

  /** strings.Split with a one-character separator: never empty. */
  function Split(s: string, c: char): (parts: seq<string>)
    ensures parts != []
    ensures forall p :: p in parts ==> c !in p
  {
    var n := IndexOf(s, c);
    if n == |s| then [s] else [s[..n]] + Split(s[n + 1..], c)
  }

  lemma {:induction false} IndexOfPrefix(a: string, c: char, b: string)
    requires c !in a
    ensures IndexOf(a + [c] + b, c) == |a|
  {
    if a != [] {
      assert (a + [c] + b)[1..] == a[1..] + [c] + b;
      IndexOfPrefix(a[1..], c, b);
    }
  }

  lemma {:induction false} IndexOfAbsent(a: string, c: char)
    requires c !in a
    ensures IndexOf(a, c) == |a|
  {
    if a != [] {
      IndexOfAbsent(a[1..], c);
    }
  }

  lemma {:induction false} IndexOfAt(s: string, c: char, n: nat)
    requires n < |s| && s[n] == c && c !in s[..n]
    ensures IndexOf(s, c) == n
  {
    if n > 0 {
      assert s[0] == s[..n][0];
      assert s[1..][..n - 1] == s[..n][1..];
      IndexOfAt(s[1..], c, n - 1);
    }
  }

  lemma SplitAt(s: string, c: char, n: nat)
    requires n < |s| && s[n] == c && c !in s[..n]
    ensures Split(s, c) == [s[..n]] + Split(s[n + 1..], c)
  {
    hide IndexOf;
    IndexOfAt(s, c, n);
  }

  lemma SplitNowhere(s: string, c: char)
    requires c !in s
    ensures Split(s, c) == [s]
  {
    hide IndexOf;
    IndexOfAbsent(s, c);
  }

  /** The parts of `a + [c] + b` around an occurrence of `c` in `a`, and around the one between. */
  lemma Around(a: string, c: char, b: string, n: nat)
    requires n < |a|
    ensures var s := a + [c] + b;
            s[..n] == a[..n] && s[n] == a[n] && s[n + 1..] == a[n + 1..] + [c] + b
            && s[..|a|] == a && s[|a|] == c && s[|a| + 1..] == b
  {
  }

  /** Splitting at a separator splits the two sides independently. */
  lemma {:induction false} SplitAppend(a: string, c: char, b: string)
    ensures Split(a + [c] + b, c) == Split(a, c) + Split(b, c)
    decreases |a|
  {
    hide Split, IndexOf;
    var s, n := a + [c] + b, IndexOf(a, c);
    if n == |a| {
      assert s[..n] == a && s[n] == c && s[n + 1..] == b;
      SplitNowhere(a, c);
      SplitAt(s, c, n);
    } else {
      Around(a, c, b, n);
      SplitAt(a, c, n);
      SplitAt(s, c, n);
      SplitAppend(a[n + 1..], c, b);
      Regroup(a[..n], Split(a[n + 1..], c), Split(b, c));
    }
  }

  lemma Regroup<T>(first: T, more: seq<T>, rest: seq<T>)
    ensures [first] + (more + rest) == [first] + more + rest
  {
  }

  /** What is put in front goes to the first part, what is put behind to the last. */
  lemma SplitPrefixed(a: string, s: string, c: char)
    requires c !in a
    ensures Split(a + s, c) == [a + Split(s, c)[0]] + Split(s, c)[1..]
  {
    var n := IndexOf(s, c);
    hide IndexOf;
    if n == |s| {
      SplitNowhere(s, c);
      SplitNowhere(a + s, c);
    } else {
      assert c !in (a + s)[..|a| + n] by {
        assert (a + s)[..|a| + n] == a + s[..n];
      }
      SplitAt(s, c, n);
      SplitAt(a + s, c, |a| + n);
      assert (a + s)[..|a| + n] == a + s[..n] && (a + s)[|a| + n + 1..] == s[n + 1..];
    }
  }

  lemma {:induction false} SplitSuffixed(s: string, b: string, c: char)
    requires c !in b
    ensures var parts := Split(s, c);
            Split(s + b, c) == parts[..|parts| - 1] + [parts[|parts| - 1] + b]
    decreases |s|
  {
    var n := IndexOf(s, c);
    hide IndexOf, Split;
    if n == |s| {
      SplitNowhere(s, c);
      SplitNowhere(s + b, c);
    } else {
      assert (s + b)[..n] == s[..n] && (s + b)[n + 1..] == s[n + 1..] + b;
      SplitAt(s, c, n);
      SplitAt(s + b, c, n);
      SplitSuffixed(s[n + 1..], b, c);
      var more := Split(s[n + 1..], c);
      assert ([s[..n]] + more)[..|more|] == [s[..n]] + more[..|more| - 1];
    }
  }

  /** Joining what was split gives the text back. */
  lemma {:induction false} JoinSplit(s: string, c: char)
    ensures Join(Split(s, c), [c]) == s
  {
    var n := IndexOf(s, c);
    if n < |s| {
      JoinSplit(s[n + 1..], c);
      assert s == s[..n] + [c] + s[n + 1..];
    }
  }

  /** Splitting what was joined gives the parts back. */
  lemma {:induction false} SplitJoin(parts: seq<string>, c: char)
    requires parts != [] && forall p :: p in parts ==> c !in p
    ensures Split(Join(parts, [c]), c) == parts
  {
    if |parts| == 1 {
      IndexOfAbsent(parts[0], c);
    } else {
      SplitJoin(parts[1..], c);
      SplitAppend(parts[0], c, Join(parts[1..], [c]));
      IndexOfAbsent(parts[0], c);
      assert parts == [parts[0]] + parts[1..];
    }
  }

  lemma Join3(a: string, b: string, c: string, sep: string)
    ensures Join([a, b, c], sep) == a + sep + (b + sep + c)
  {
    var x, y := [a, b, c], [b, c];
    assert x[1..] == y;
    assert y[1..] == [c];
    assert Join(y, sep) == b + sep + c;
  }

  lemma Split3(a: string, b: string, c: string, sep: char)
    requires sep !in a && sep !in b
    ensures Split(a + [sep] + (b + [sep] + c), sep) == [a, b] + Split(c, sep)
  {
    SplitAppend(a, sep, b + [sep] + c);
    SplitAppend(b, sep, c);
    IndexOfAbsent(a, sep);
    IndexOfAbsent(b, sep);
    assert [a] + ([b] + Split(c, sep)) == [a, b] + Split(c, sep);
  }

  /** strings.TrimLeft: `cutset` is a set of characters, not a prefix. */
  function TrimLeft(s: string, cutset: string): string {
    if s != [] && s[0] in cutset then TrimLeft(s[1..], cutset) else s
  }
}
