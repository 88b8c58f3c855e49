/**
 A lexer for the quoting and token rules of the POSIX.1-2017 Shell Command Language (sections 2.2.1, 2.2.2
 and 2.3), and the proof that it reads back exactly the program that LanguageConfig.Script embedded.
 */
module Shell {
  import opened Types
  import opened LanguageConfigs

  /** A character of a word, and whether quoting has taken any special meaning from it. */
  datatype QChar = QChar(c: char, quoted: bool)

  datatype Token = Word(chars: seq<QChar>) | IoNumber(digits: seq<QChar>) | Operator(text: string)

  predicate Blank(c: char) {
    c == ' ' || c == '\t'
  }

  /** Characters that start an operator; a newline is one as well. */
  predicate StartsOperator(c: char) {
    c == '&' || c == '|' || c == ';' || c == '<' || c == '>' || c == '(' || c == ')' || c == '\n'
  }

  /**
   The longest operator at the head of `s`. An operator that a backslash-newline splits, which section 2.2.1
   would join, is not recognised as one; no template contains a backslash.
   */
  function OperatorAt(s: string): (op: string)
    requires s != "" && StartsOperator(s[0])
    ensures 0 < |op| <= |s| && op == s[..|op|]
  {
    if |s| >= 3 && s[..3] == "<<-" then s[..3]
    else if |s| >= 2 && (s[..2] == "&&" || s[..2] == "||" || s[..2] == ";;" || s[..2] == "<<" || s[..2] == ">>"
                         || s[..2] == "<&" || s[..2] == ">&" || s[..2] == "<>" || s[..2] == ">|") then s[..2]
    else s[..1]
  }

  /** The token a finished word makes; digits just before a redirection are an IO number. */
  function Finish(word: Option<seq<QChar>>, next: string): seq<Token> {
    match word
    case None => []
    case Some(w) =>
      if next != "" && (next[0] == '<' || next[0] == '>') && w != []
         && forall q <- w :: !q.quoted && '0' <= q.c <= '9'
      then [IoNumber(w)] else [Word(w)]
  }

  function Grown(word: Option<seq<QChar>>, c: char, quoted: bool): Option<seq<QChar>> {
    Some((if word.Some? then word.value else []) + [QChar(c, quoted)])
  }

  function Prefixed(ts: seq<Token>, rest: Option<seq<Token>>): Option<seq<Token>> {
    if rest.Some? then Some(ts + rest.value) else None
  }

  /**
   The tokens of `s`, given the word begun before it. `None` if a quote is never closed, or for what these
   sections leave to others: double quotes, expansions, and a backslash at the very end.
   */
  function Lex(s: string, word: Option<seq<QChar>>): Option<seq<Token>>
    decreases |s|, 0
  {
    if s == "" then Some(Finish(word, s))
    else if StartsOperator(s[0]) then
      var op := OperatorAt(s);
      Prefixed(Finish(word, s) + [Operator(op)], Lex(s[|op|..], None))
    else if s[0] == '\'' then LexQuoted(s[1..], if word.Some? then word.value else [])
    else if s[0] == '\\' then
      if |s| == 1 then None
      else if s[1] == '\n' then Lex(s[2..], word)
      else Lex(s[2..], Grown(word, s[1], true))
    else if s[0] == '"' || s[0] == '$' || s[0] == '`' then None
    else if Blank(s[0]) then Prefixed(Finish(word, s), Lex(s[1..], None))
    else if s[0] == '#' && word.None? then LexComment(s[1..])
    else Lex(s[1..], Grown(word, s[0], false))
  }

  /** Inside single quotes every character up to the closing quote stands for itself. */
  function LexQuoted(s: string, word: seq<QChar>): Option<seq<Token>>
    decreases |s|, 0
  {
    if s == "" then None
    else if s[0] == '\'' then Lex(s[1..], Some(word))
    else LexQuoted(s[1..], word + [QChar(s[0], true)])
  }

  /** A comment runs up to the end of the line. */
  function LexComment(s: string): Option<seq<Token>>
    decreases |s|, 1
  {
    if s == "" then Some([])
    else if s[0] == '\n' then Lex(s, None)
    else LexComment(s[1..])
  }

  // ---------------------------------------------------------------- the rules of the standard, one by one

  /** Section 2.3: these characters begin an operator, and blank or tab separates words. */
  lemma Metacharacters(c: char)
    ensures StartsOperator(c) <==> c in "&|;<>()\n"
    ensures Blank(c) <==> c in " \t"
  {
  }

  /** Section 2.3, rules 6 and 7: an operator or a blank ends the word before it. */
  lemma WordsEnd(s: string, w: seq<QChar>)
    requires s != "" && s[0] in "&|;()\n \t"
    ensures Lex(s, Some(w)) == Prefixed([Word(w)], Lex(s, None))
  {
    Metacharacters(s[0]);
    if Blank(s[0]) {
      assert Lex(s, None) == Prefixed([], Lex(s[1..], None));
      assert forall ts: seq<Token> :: [] + ts == ts;
      assert [Word(w)] + [] == [Word(w)];
    } else {
      var op := OperatorAt(s);
      assert Finish(None, s) + [Operator(op)] == [Operator(op)];
      assert Lex(s, None) == Prefixed([Operator(op)], Lex(s[|op|..], None));
      PrefixedTwice([Word(w)], [Operator(op)], Lex(s[|op|..], None));
    }
  }

  lemma PrefixedTwice(a: seq<Token>, b: seq<Token>, rest: Option<seq<Token>>)
    ensures Prefixed(a, Prefixed(b, rest)) == Prefixed(a + b, rest)
  {
    if rest.Some? {
      assert a + (b + rest.value) == (a + b) + rest.value;
    }
  }

  /** Section 2.2.1: a backslash quotes the next character, and with a newline it is removed. */
  lemma Backslash(c: char, s: string, word: Option<seq<QChar>>)
    ensures Lex(['\\', c] + s, word) == if c == '\n' then Lex(s, word) else Lex(s, Grown(word, c, true))
  {
    var t := ['\\', c] + s;
    assert t[0] == '\\' && t[1] == c && t[2..] == s;
  }

  /** Section 2.2.2: single quotes keep everything up to the next one, which must come. */
  lemma {:induction false} SingleQuotes(s: string, rest: string, word: seq<QChar>)
    requires '\'' !in s
    ensures LexQuoted(s, word) == None
    ensures LexQuoted(s + ['\''] + rest, word) == Lex(rest, Some(word + AllQuoted(s)))
    decreases |s|
  {
    var t := s + ['\''] + rest;
    if s == "" {
      assert t[0] == '\'' && t[1..] == rest;
      assert word + AllQuoted(s) == word;
    } else {
      assert s[0] in s;
      var grown := word + [QChar(s[0], true)];
      SingleQuotes(s[1..], rest, grown);
      assert t[0] == s[0] && t[1..] == s[1..] + ['\''] + rest;
      assert word + AllQuoted(s) == grown + AllQuoted(s[1..]);
    }
  }

  /** Section 2.3, rule 9: a comment is skipped up to the end of its line. */
  lemma {:induction false} Comments(s: string, rest: string)
    requires '\n' !in s
    ensures LexComment(s) == Some([])
    ensures LexComment(s + ['\n'] + rest) == Lex(['\n'] + rest, None)
    decreases |s|
  {
    var t := s + ['\n'] + rest;
    if s == "" {
      assert t == ['\n'] + rest;
    } else {
      assert s[0] in s;
      assert t[0] == s[0] && t[1..] == s[1..] + ['\n'] + rest;
      Comments(s[1..], rest);
    }
  }

  // ---------------------------------------------------------------- the quoted program

  function AllQuoted(code: string): seq<QChar> {
    if code == "" then [] else [QChar(code[0], true)] + AllQuoted(code[1..])
  }

  /** The text of a word after quote removal (section 2.6.7). */
  function Unquoted(w: seq<QChar>): string {
    if w == [] then "" else [w[0].c] + Unquoted(w[1..])
  }

  lemma {:induction false} UnquotedQuoted(code: string)
    ensures Unquoted(AllQuoted(code)) == code
  {
    if code != "" {
      UnquotedQuoted(code[1..]);
      assert AllQuoted(code)[1..] == AllQuoted(code[1..]);
    }
  }

  /** The escape for one quote closes the string, adds the quote, and opens the string again. */
  lemma LexEscapedQuote(rest: string, word: seq<QChar>)
    ensures LexQuoted("'\\''" + rest, word) == LexQuoted(rest, word + [QChar('\'', true)])
  {
    var s := "'\\''" + rest;
    var t := s[1..];
    assert t[0] == '\\' && t[1] == '\'';
    var u := t[2..];
    assert u[0] == '\'' && u[1..] == rest;
    assert LexQuoted(s, word) == Lex(t, Some(word));
    assert Lex(t, Some(word)) == Lex(u, Grown(Some(word), '\'', true));
  }

  /** One character of an escaped program. */
  lemma LexEscapedChar(c: char, tail: string, word: seq<QChar>)
    ensures LexQuoted((if c == '\'' then "'\\''" else [c]) + tail, word) == LexQuoted(tail, word + [QChar(c, true)])
  {
    if c == '\'' {
      LexEscapedQuote(tail, word);
    } else {
      assert ([c] + tail)[1..] == tail;
    }
  }

  /** Reading an escaped program inside quotes yields all its characters, quoted, whatever they are. */
  lemma {:induction false} LexEscaped(code: string, rest: string, word: seq<QChar>)
    ensures LexQuoted(Escape(code) + rest, word) == LexQuoted(rest, word + AllQuoted(code))
    decreases |code|
  {
    if code == "" {
      assert Escape(code) + rest == rest;
      assert word + AllQuoted(code) == word;
    } else {
      var c, tail := code[0], Escape(code[1..]) + rest;
      assert Escape(code) + rest == (if c == '\'' then "'\\''" else [c]) + tail;
      LexEscapedChar(c, tail, word);
      LexEscaped(code[1..], rest, word + [QChar(c, true)]);
      assert word + AllQuoted(code) == word + [QChar(c, true)] + AllQuoted(code[1..]);
    }
  }

  // ---------------------------------------------------------------- the fixed rest of a script

  predicate Plain(c: char) {
    !StartsOperator(c) && !Blank(c) && c != '\'' && c != '\\' && c != '"' && c != '$' && c != '`' && c != '#'
  }

  function AllPlain(text: string): seq<QChar> {
    if text == "" then [] else [QChar(text[0], false)] + AllPlain(text[1..])
  }

  lemma {:induction false} LexPlain(text: string, rest: string, word: seq<QChar>)
    requires forall c <- text :: Plain(c)
    ensures Lex(text + rest, Some(word)) == Lex(rest, Some(word + AllPlain(text)))
    decreases |text|
  {
    if text == "" {
      assert text + rest == rest;
      assert word + AllPlain(text) == word;
    } else {
      assert text[0] in text;
      assert text + rest == [text[0]] + (text[1..] + rest);
      assert (text + rest)[1..] == text[1..] + rest;
      LexPlain(text[1..], rest, word + [QChar(text[0], false)]);
      assert word + AllPlain(text) == word + [QChar(text[0], false)] + AllPlain(text[1..]);
    }
  }

  predicate IsOperator(word: string) {
    word == ">" || word == "&&"
  }

  /** Words whose characters have no special meaning, and the two operators the templates use. */
  predicate Spellable(word: string) {
    word != "" && (IsOperator(word) || forall c <- word :: Plain(c))
  }

  function TokenOf(word: string): Token {
    if IsOperator(word) then Operator(word) else Word(AllPlain(word))
  }

  function TokensOf(words: seq<string>): seq<Token> {
    if words == [] then [] else [TokenOf(words[0])] + TokensOf(words[1..])
  }

  lemma LexText(text: string, rest: string)
    requires text != "" && forall c <- text :: Plain(c)
    ensures Lex(text + rest, None) == Lex(rest, Some(AllPlain(text)))
  {
    var first := [QChar(text[0], false)];
    assert text[0] in text;
    var s := text + rest;
    assert s[0] == text[0] && s[1..] == text[1..] + rest;
    assert [] + first == first;
    assert Lex(s, None) == Lex(text[1..] + rest, Some(first));
    LexPlain(text[1..], rest, first);
  }

  lemma LexOp(op: string, rest: string)
    requires IsOperator(op) && (rest == "" || rest[0] == ' ')
    ensures Lex(op + rest, None) == Prefixed([Operator(op)], Lex(rest, None))
  {
    var s := op + rest;
    assert s[0] == op[0] && StartsOperator(s[0]);
    if op == ">" {
      if |s| >= 2 {
        assert s[1] == ' ';
        assert s[..2][1] == ' ';
      }
      if |s| >= 3 {
        assert s[..3][0] == '>';
      }
      assert OperatorAt(s) == s[..1] == op;
    } else {
      if |s| >= 3 {
        assert s[..3][0] == '&';
      }
      assert s[..2] == "&&";
    }
    assert s[|op|..] == rest;
    assert Finish(None, s) + [Operator(op)] == [Operator(op)];
  }

  /** An operator is a token of its own at once; a word is begun and ended by what follows. */
  lemma LexWord(w: string, rest: string)
    requires Spellable(w) && (rest == "" || rest[0] == ' ')
    ensures IsOperator(w) ==> Lex(w + rest, None) == Prefixed([Operator(w)], Lex(rest, None))
    ensures !IsOperator(w) ==> Lex(w + rest, None) == Lex(rest, Some(AllPlain(w)))
  {
    if IsOperator(w) {
      LexOp(w, rest);
    } else {
      LexText(w, rest);
    }
  }

  /** Lexing a spaced list of words gives one token a word, after the word begun before them. */
  lemma {:induction false} LexSpaced(words: seq<string>, begun: Option<seq<QChar>>)
    requires forall w <- words :: Spellable(w)
    ensures Lex(Spaced(words), begun) == Some((if begun.Some? then [Word(begun.value)] else []) + TokensOf(words))
    decreases |words|
  {
    if words == [] {
      var before := if begun.Some? then [Word(begun.value)] else [];
      assert Lex("", begun) == Some(Finish(begun, "")) == Some(before);
      assert before + [] == before;
    } else {
      var w, rest := words[0], Spaced(words[1..]);
      assert w in words;
      LexBlank(w + rest, begun);
      LexWord(w, rest);
      LexSpaced(words[1..], if IsOperator(w) then None else Some(AllPlain(w)));
      assert [] + TokensOf(words[1..]) == TokensOf(words[1..]);
      assert Lex(w + rest, None) == Some([TokenOf(w)] + TokensOf(words[1..]));
      assert Spaced(words) == " " + (w + rest);
    }
  }

  lemma LexBlank(s: string, begun: Option<seq<QChar>>)
    ensures Lex(" " + s, begun) == Prefixed(if begun.Some? then [Word(begun.value)] else [], Lex(s, None))
  {
    assert (" " + s)[1..] == s;
  }

  // ---------------------------------------------------------------- the scripts

  predicate AllSpellable(words: seq<string>) {
    forall w <- words :: Spellable(w)
  }

  lemma OperatorsSpellable()
    ensures Spellable(">") && Spellable("&&")
  {
  }

  lemma GoTool()
    ensures Spellable("go") && Spellable("run")
  {
  }

  lemma JsTool()
    ensures Spellable("node")
  {
  }

  lemma PythonTool()
    ensures Spellable("python3")
  {
  }

  lemma CppTool()
    ensures Spellable("g++") && Spellable("-o")
  {
  }

  lemma GoFile()
    ensures Spellable("/app/temp/code.go")
  {
  }

  lemma JsFile()
    ensures Spellable("/app/temp/code.js")
  {
  }

  lemma PythonFile()
    ensures Spellable("/app/temp/code.py")
  {
  }

  lemma CppFile()
    ensures Spellable("/app/temp/code.cpp")
  {
  }

  lemma ExeFile()
    ensures Spellable("/app/temp/exe")
  {
  }

  lemma GoSpellable()
    ensures AllSpellable(GO.rest)
  {
    OperatorsSpellable();
    GoTool();
    GoFile();
    assert forall w <- GO.rest :: w == ">" || w == "&&" || w == "/app/temp/code.go" || w == "go" || w == "run";
  }
  lemma JsSpellable()
    ensures AllSpellable(JS.rest)
  {
    OperatorsSpellable();
    JsTool();
    JsFile();
    assert forall w <- JS.rest :: w == ">" || w == "&&" || w == "/app/temp/code.js" || w == "node";
  }
  lemma PythonSpellable()
    ensures AllSpellable(PYTHON.rest)
  {
    OperatorsSpellable();
    PythonTool();
    PythonFile();
    assert forall w <- PYTHON.rest :: w == ">" || w == "&&" || w == "/app/temp/code.py" || w == "python3";
  }
  lemma CppSpellable()
    ensures AllSpellable(CPP.rest)
  {
    OperatorsSpellable();
    CppTool();
    CppFile();
    ExeFile();
    assert forall w <- CPP.rest ::
        w == ">" || w == "&&" || w == "/app/temp/code.cpp" || w == "g++" || w == "-o" || w == "/app/temp/exe";
  }
  lemma TemplatesSpellable(language: string)
    requires Supported(language)
    ensures AllSpellable(GetLanguageConfig(language).value.rest)
  {
    if language == "go" {
      GoSpellable();
    } else if language == "js" {
      JsSpellable();
    } else if language == "python" {
      PythonSpellable();
    } else {
      CppSpellable();
    }
  }

  /** The tokens of a script: `echo`, the program as one fully quoted word, and the fixed rest. */
  function ScriptTokens(k: LanguageConfig, code: string): seq<Token> {
    [Word(AllPlain("echo")), Word(AllQuoted(code))] + TokensOf(k.rest)
  }

  lemma LexProgram(code: string, rest: string)
    ensures Lex("'" + (Escape(code) + ("'" + rest)), None) == Lex(rest, Some(AllQuoted(code)))
  {
    var closing := "'" + rest;
    var quoted := Escape(code) + closing;
    var s := "'" + quoted;
    assert s[0] == '\'' && s[1..] == quoted;
    assert Lex(s, None) == LexQuoted(quoted, []);
    LexEscaped(code, closing, []);
    assert [] + AllQuoted(code) == AllQuoted(code);
    assert closing[0] == '\'' && closing[1..] == rest;
    assert LexQuoted(closing, AllQuoted(code)) == Lex(rest, Some(AllQuoted(code)));
  }

  lemma LexScript(k: LanguageConfig, code: string)
    requires AllSpellable(k.rest)
    ensures Lex(k.Script(code), None) == Some(ScriptTokens(k, code))
  {
    var rest, echo := Spaced(k.rest), "echo";
    var program := "'" + (Escape(code) + ("'" + rest));
    assert k.Script(code) == echo + (" " + program);
    LexText(echo, " " + program);
    LexBlank(program, Some(AllPlain(echo)));
    LexProgram(code, rest);
    LexSpaced(k.rest, Some(AllQuoted(code)));
    var e, p := Word(AllPlain(echo)), Word(AllQuoted(code));
    assert [e] + ([p] + TokensOf(k.rest)) == [e, p] + TokensOf(k.rest);
  }

  /**
   Shell quoting round trip: for every program and language the script lexes to a fixed list of tokens in
   which only the argument of `echo` depends on the program. That argument is a single word, all of it
   quoted, and after quote removal it is the program.
   */
  lemma ScriptRoundTrip(language: string, code: string)
    requires Supported(language)
    ensures var k := GetLanguageConfig(language).value; var tokens := Lex(k.Script(code), None);
      && tokens == Some([Word(AllPlain("echo")), Word(AllQuoted(code))] + TokensOf(k.rest))
      && Unquoted(AllQuoted(code)) == code
      && forall q <- AllQuoted(code) :: q.quoted
  {
    TemplatesSpellable(language);
    LexScript(GetLanguageConfig(language).value, code);
    UnquotedQuoted(code);
    AllAreQuoted(code);
  }

  // ---------------------------------------------------------------- the commands, spelled out

  /** A word that quote removal turns into `text`. */
  predicate Names(t: Token, text: string) {
    t.Word? && Unquoted(t.chars) == text
  }

  /**
   `ts` is the script `echo <code> > <file> && <tail>`, token by token: the program is one fully quoted word, and
   of the words of `tail` only `&&` is an operator.
   */
  predicate Spells(ts: seq<Token>, code: string, file: string, tail: seq<string>) {
    && |ts| == 5 + |tail|
    && Names(ts[0], "echo") && Names(ts[1], code) && (forall q <- ts[1].chars :: q.quoted)
    && ts[2] == Operator(">") && Names(ts[3], file) && ts[4] == Operator("&&")
    && forall i :: 0 <= i < |tail| ==>
      if tail[i] == "&&" then ts[5 + i] == Operator("&&") else Names(ts[5 + i], tail[i])
  }

  /** The script that has `code` run as a program of `language`: all of its tokens, spelled out. */
  predicate RunsProgram(ts: seq<Token>, language: string, code: string) {
    if language == "go" then Spells(ts, code, "/app/temp/code.go", ["go", "run", "/app/temp/code.go"])
    else if language == "js" then Spells(ts, code, "/app/temp/code.js", ["node", "/app/temp/code.js"])
    else if language == "python" then Spells(ts, code, "/app/temp/code.py", ["python3", "/app/temp/code.py"])
    else Spells(ts, code, "/app/temp/code.cpp",
                ["g++", "-o", "/app/temp/exe", "/app/temp/code.cpp", "&&", "/app/temp/exe"])
  }

  /** A shell is asked to run the script for `job`. */
  predicate RunsJob(args: seq<string>, job: Job) {
    && |args| == 3 && args[0] == "sh" && args[1] == "-c"
    && var tokens := Lex(args[2], None);
    tokens.Some? && RunsProgram(tokens.value, job.language, job.code)
  }

  /** Docker is asked to do so in the container called `container`. */
  predicate RunsJobIn(argv: seq<string>, container: string, job: Job) {
    |argv| == 6 && argv[0] == "docker" && argv[1] == "exec" && argv[2] == container && RunsJob(argv[3..], job)
  }

  lemma {:induction false} UnquotedPlain(text: string)
    ensures Unquoted(AllPlain(text)) == text
  {
    if text != "" {
      UnquotedPlain(text[1..]);
      assert AllPlain(text)[1..] == AllPlain(text[1..]);
    }
  }

  lemma TokenNames(word: string)
    requires !IsOperator(word)
    ensures Names(TokenOf(word), word)
  {
    UnquotedPlain(word);
  }

  lemma {:induction false} TokensAt(words: seq<string>, i: nat)
    requires i < |words|
    ensures |TokensOf(words)| == |words| && TokensOf(words)[i] == TokenOf(words[i])
  {
    var rest := words[1..];
    assert TokensOf(words) == [TokenOf(words[0])] + TokensOf(rest);
    if rest != [] {
      TokensAt(rest, if i > 0 then i - 1 else 0);
      if i > 0 {
        assert rest[i - 1] == words[i];
      }
    }
  }

  /** Token `i + 2` of a script stands for word `i` of its template. */
  lemma RestAt(k: LanguageConfig, code: string, i: nat)
    requires i < |k.rest|
    ensures var ts := ScriptTokens(k, code);
      && |ts| == |k.rest| + 2
      && (if IsOperator(k.rest[i]) then ts[i + 2] == Operator(k.rest[i]) else Names(ts[i + 2], k.rest[i]))
  {
    TokensAt(k.rest, i);
    if !IsOperator(k.rest[i]) {
      TokenNames(k.rest[i]);
    }
  }

  lemma ScriptHead(k: LanguageConfig, code: string)
    ensures var ts := ScriptTokens(k, code);
      && |ts| >= 2 && Names(ts[0], "echo") && Names(ts[1], code) && forall q <- ts[1].chars :: q.quoted
  {
    UnquotedPlain("echo");
    UnquotedQuoted(code);
    AllAreQuoted(code);
  }

  lemma TemplateSpells(k: LanguageConfig, code: string, file: string, tail: seq<string>)
    requires k.rest == [">", file, "&&"] + tail && file != ">" && file != "&&" && ">" !in tail
    ensures Spells(ScriptTokens(k, code), code, file, tail)
  {
    ScriptHead(k, code);
    RestAt(k, code, 0);
    RestAt(k, code, 1);
    RestAt(k, code, 2);
    forall i | 0 <= i < |tail|
      ensures var t := ScriptTokens(k, code)[5 + i];
        if tail[i] == "&&" then t == Operator("&&") else Names(t, tail[i])
    {
      RestAt(k, code, i + 3);
      assert k.rest[i + 3] == tail[i] && tail[i] in tail;
    }
  }

  lemma GoSpells(code: string)
    ensures Spells(ScriptTokens(GO, code), code, "/app/temp/code.go", ["go", "run", "/app/temp/code.go"])
  {
    TemplateSpells(GO, code, "/app/temp/code.go", ["go", "run", "/app/temp/code.go"]);
  }

  lemma JsSpells(code: string)
    ensures Spells(ScriptTokens(JS, code), code, "/app/temp/code.js", ["node", "/app/temp/code.js"])
  {
    TemplateSpells(JS, code, "/app/temp/code.js", ["node", "/app/temp/code.js"]);
  }

  lemma PythonSpells(code: string)
    ensures Spells(ScriptTokens(PYTHON, code), code, "/app/temp/code.py", ["python3", "/app/temp/code.py"])
  {
    TemplateSpells(PYTHON, code, "/app/temp/code.py", ["python3", "/app/temp/code.py"]);
  }

  lemma CppSpells(code: string)
    ensures Spells(ScriptTokens(CPP, code), code, "/app/temp/code.cpp",
                   ["g++", "-o", "/app/temp/exe", "/app/temp/code.cpp", "&&", "/app/temp/exe"])
  {
    TemplateSpells(CPP, code, "/app/temp/code.cpp",
                   ["g++", "-o", "/app/temp/exe", "/app/temp/code.cpp", "&&", "/app/temp/exe"]);
  }

  lemma ScriptRuns(language: string, code: string)
    requires Supported(language)
    ensures RunsProgram(ScriptTokens(GetLanguageConfig(language).value, code), language, code)
    ensures GetLanguageConfig(language).value.timeoutSeconds == 10
  {
    if language == "go" {
      GoSpells(code);
    } else if language == "js" {
      JsSpells(code);
    } else if language == "python" {
      PythonSpells(code);
    } else {
      CppSpells(code);
    }
  }

  /**
   What a job's command is, spelled out: a shell is given a script of exactly these tokens, which writes the
   job's own code to the language's file and hands that file to the language's tool.
   */
  lemma CommandRunsJob(job: Job)
    requires Supported(job.language)
    ensures RunsJob(Command(job), job)
  {
    var k := GetLanguageConfig(job.language).value;
    TemplatesSpellable(job.language);
    LexScript(k, job.code);
    ScriptRuns(job.language, job.code);
  }

  /** The same for the whole command line, with the container it runs in. */
  lemma DockerRunsJob(container: string, job: Job)
    requires Supported(job.language)
    ensures RunsJobIn(DockerExec(container, job), container, job)
  {
    CommandRunsJob(job);
    assert DockerExec(container, job)[3..] == Command(job);
  }

  lemma {:induction false} AllAreQuoted(code: string)
    ensures forall q <- AllQuoted(code) :: q.quoted
  {
    if code != "" {
      AllAreQuoted(code[1..]);
    }
  }

  lemma {:induction false} PlainDetermines(a: string, b: string)
    requires AllPlain(a) == AllPlain(b)
    ensures a == b
  {
    if a != "" && b != "" {
      assert AllPlain(a)[0] == AllPlain(b)[0] && AllPlain(a)[1..] == AllPlain(b)[1..];
      PlainDetermines(a[1..], b[1..]);
      assert a == [a[0]] + a[1..] && b == [b[0]] + b[1..];
    }
  }

  lemma SecondToken(words: seq<string>)
    requires |words| >= 2 && !IsOperator(words[1])
    ensures |TokensOf(words)| >= 2 && TokensOf(words)[1] == Word(AllPlain(words[1]))
  {
    var rest := words[1..];
    assert rest != [] && rest[0] == words[1];
    assert TokensOf(rest) == [TokenOf(rest[0])] + TokensOf(rest[1..]);
    assert TokensOf(words) == [TokenOf(words[0])] + TokensOf(rest);
  }

  lemma ScriptDetermines(k: LanguageConfig, l: LanguageConfig, a: string, b: string)
    requires AllSpellable(k.rest) && AllSpellable(l.rest)
    requires k.Script(a) == l.Script(b)
    ensures a == b && TokensOf(k.rest) == TokensOf(l.rest)
  {
    LexScript(k, a);
    LexScript(l, b);
    var s, t := ScriptTokens(k, a), ScriptTokens(l, b);
    assert s[1] == t[1] && s[2..] == t[2..];
    UnquotedQuoted(a);
    UnquotedQuoted(b);
  }

  function Mark(language: string): char {
    if language == "go" then 'g' else if language == "js" then 'j' else if language == "python" then 'p' else 'c'
  }

  /** The languages write their programs to files that differ in the first letter of the extension. */
  lemma FileMark(language: string)
    requires Supported(language)
    ensures var rest := GetLanguageConfig(language).value.rest;
      |rest| >= 2 && !IsOperator(rest[1]) && |rest[1]| > 15 && rest[1][15] == Mark(language)
  {
  }

  lemma RestDetermines(u: seq<string>, v: seq<string>)
    requires |u| >= 2 && !IsOperator(u[1]) && |v| >= 2 && !IsOperator(v[1]) && TokensOf(u) == TokensOf(v)
    ensures u[1] == v[1]
  {
    SecondToken(u);
    SecondToken(v);
    PlainDetermines(u[1], v[1]);
  }

  lemma SameArgs(k: LanguageConfig, l: LanguageConfig, a: string, b: string)
    requires AllSpellable(k.rest) && AllSpellable(l.rest)
    requires |k.rest| >= 2 && !IsOperator(k.rest[1]) && |l.rest| >= 2 && !IsOperator(l.rest[1])
    requires k.Args(a) == l.Args(b)
    ensures a == b && k.rest[1] == l.rest[1]
  {
    assert k.Args(a)[2] == l.Args(b)[2];
    ScriptDetermines(k, l, a, b);
    RestDetermines(k.rest, l.rest);
  }

  /** No two jobs share a command: neither programs nor languages are confused on the way to the shell. */
  lemma CommandIsInjective(a: Job, b: Job)
    requires Supported(a.language) && Supported(b.language) && Command(a) == Command(b)
    ensures a == b
  {
    TemplatesSpellable(a.language);
    TemplatesSpellable(b.language);
    FileMark(a.language);
    FileMark(b.language);
    SameArgs(GetLanguageConfig(a.language).value, GetLanguageConfig(b.language).value, a.code, b.code);
  }
}
