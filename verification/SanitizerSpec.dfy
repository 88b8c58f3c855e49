/** What SanitizeCode answers, told from the rule table alone: length, then the first category that matches. */
module SanitizerSpec {
  import opened Types
  import opened Regex
  import opened Sanitizer

  /** Category `i` of the list is the first one with a pattern found in the code. */
  ghost predicate FirstHit(rules: seq<Category>, i: int, code: string) {
    && 0 <= i < |rules|
    && (exists p | p in rules[i].patterns :: Found(p.re, code))
    && (forall h, p :: 0 <= h < i && p in rules[h].patterns ==> !Found(p.re, code))
  }

  /** No pattern of any category of the list is found in the code. */
  ghost predicate Clean(rules: seq<Category>, code: string) {
    forall i, p :: 0 <= i < |rules| && p in rules[i].patterns ==> !Found(p.re, code)
  }

  /** The list of categories the table has for a language. */
  predicate RulesOf(language: string, rules: seq<Category>) {
    || (language == "python" && rules == PYTHON_RULES)
    || (language == "go" && rules == GO_RULES)
    || (language == "js" && rules == JS_RULES)
    || (language == "cpp" && rules == CPP_RULES)
  }

  lemma {:induction false} SearchFinds(rules: seq<Category>, code: string)
    ensures FirstMatch(rules, code, false).None? <==> Clean(rules, code)
    ensures forall i :: FirstHit(rules, i, code) ==> FirstMatch(rules, code, false) == Some(rules[i])
    ensures Clean(rules, code) || exists i :: FirstHit(rules, i, code)
    decreases |rules|
  {
    if rules != [] {
      var rest := rules[1..];
      SearchFinds(rest, code);
      if HasMatchingPattern(rules[0], code, false) {
        HeadHits(rules, code);
      } else {
        HeadMisses(rules, code);
        if !Clean(rest, code) {
          var i :| FirstHit(rest, i, code);
          assert FirstHit(rules, i + 1, code) by {
            MissShifts(rules, i + 1, code);
          }
        }
      }
    }
  }

  lemma HeadHits(rules: seq<Category>, code: string)
    requires rules != [] && HasMatchingPattern(rules[0], code, false)
    ensures FirstHit(rules, 0, code) && !Clean(rules, code)
    ensures forall i :: FirstHit(rules, i, code) ==> i == 0
  {
    var p :| p in rules[0].patterns && Found(p.re, code);
  }

  lemma HeadMisses(rules: seq<Category>, code: string)
    requires rules != [] && !HasMatchingPattern(rules[0], code, false)
    ensures Clean(rules, code) <==> Clean(rules[1..], code)
    ensures forall i :: FirstHit(rules, i, code) <==> FirstHit(rules[1..], i - 1, code)
  {
    var rest := rules[1..];
    assert forall p :: p in rules[0].patterns ==> !Found(p.re, code);
    assert forall i :: 0 <= i < |rest| ==> rest[i] == rules[i + 1];
    if Clean(rest, code) {
      forall i, p | 0 <= i < |rules| && p in rules[i].patterns ensures !Found(p.re, code) {
        assert i > 0 ==> rules[i] == rest[i - 1];
      }
    }
    forall i ensures FirstHit(rules, i, code) <==> FirstHit(rest, i - 1, code) {
      MissShifts(rules, i, code);
    }
  }

  lemma MissShifts(rules: seq<Category>, i: int, code: string)
    requires rules != [] && forall p :: p in rules[0].patterns ==> !Found(p.re, code)
    ensures FirstHit(rules, i, code) <==> FirstHit(rules[1..], i - 1, code)
  {
    var rest := rules[1..];
    if FirstHit(rules, i, code) {
      assert i > 0 && rest[i - 1] == rules[i];
      forall h, p | 0 <= h < i - 1 && p in rest[h].patterns ensures !Found(p.re, code) {
        assert rest[h] == rules[h + 1];
      }
    }
    if FirstHit(rest, i - 1, code) {
      assert rest[i - 1] == rules[i];
      forall h, p | 0 <= h < i && p in rules[h].patterns ensures !Found(p.re, code) {
        assert h > 0 ==> rules[h] == rest[h - 1];
      }
    }
  }

  /** The search for given lists of categories, every answer under its exact condition. */
  lemma AnswerOf(common: seq<Category>, own: Option<seq<Category>>, code: SourceText, language: string, limit: int)
    ensures var r := SanitizeBy(common, own, code, language, limit, false);
      && (r == Some(TooLong(limit)) <==> code.bytes > limit)
      && (r == None <==> code.bytes <= limit && Clean(common, code.runes) && own.Some? && Clean(own.value, code.runes))
      && (r == Some(NoRulesFor(language)) <==> code.bytes <= limit && Clean(common, code.runes) && own.None?)
    ensures var r := SanitizeBy(common, own, code, language, limit, false);
      && (forall i :: code.bytes <= limit && FirstHit(common, i, code.runes) ==>
            r == Some(Prohibited(common[i].name, common[i].description)))
      && (own.Some? && code.bytes <= limit && Clean(common, code.runes) ==>
            forall i :: FirstHit(own.value, i, code.runes) ==>
              r == Some(ProhibitedIn(language, own.value[i].name, own.value[i].description)))
  {
    SearchFinds(common, code.runes);
    if own.Some? {
      SearchFinds(own.value, code.runes);
    }
  }

  /**
   Accepted means: short enough, in a language the table knows, and free of every pattern of every common
   category and of every category of that language.
   */
  lemma AcceptedExactly(code: SourceText, language: string, limit: int)
    ensures Sanitize(code, language, limit, false) == None <==>
      && code.bytes <= limit && Clean(COMMON, code.runes)
      && exists own :: RulesOf(language, own) && Clean(own, code.runes)
  {
    AnswerOf(COMMON, LanguageRules(language), code, language, limit);
    OwnRules(language);
  }

  lemma OwnRules(language: string)
    ensures forall own :: RulesOf(language, own) <==> LanguageRules(language) == Some(own)
  {
  }

  /** And every refusal names its exact reason: the length, else the first common category, else the language. */
  lemma RefusedExactly(code: SourceText, language: string, limit: int)
    ensures var r := Sanitize(code, language, limit, false);
      && (r == Some(TooLong(limit)) <==> code.bytes > limit)
      && (forall i :: code.bytes <= limit && FirstHit(COMMON, i, code.runes) ==>
            r == Some(Prohibited(COMMON[i].name, COMMON[i].description)))
      && (r == Some(NoRulesFor(language)) <==>
            code.bytes <= limit && Clean(COMMON, code.runes) && !exists own :: RulesOf(language, own))
    ensures code.bytes <= limit && Clean(COMMON, code.runes) ==>
      forall own: seq<Category>, i: int :: RulesOf(language, own) && FirstHit(own, i, code.runes) ==>
        Sanitize(code, language, limit, false) == Some(ProhibitedIn(language, own[i].name, own[i].description))
  {
    AnswerOf(COMMON, LanguageRules(language), code, language, limit);
    OwnRules(language);
  }

  /** These conditions leave nothing out: what is not clean has a first hit. */
  lemma CleanOrHit(rules: seq<Category>, code: string)
    ensures Clean(rules, code) <==> !exists i :: FirstHit(rules, i, code)
  {
    SearchFinds(rules, code);
    forall i | FirstHit(rules, i, code) ensures !Clean(rules, code) {
      var p :| p in rules[i].patterns && Found(p.re, code);
    }
  }

  // ---------------------------------------------------------------- two families of programs the table refuses

  lemma {:induction false} BlanksMatch(s: string, i: nat, j: nat)
    requires i <= j <= |s| && forall k :: i <= k < j ==> s[k] == ' ' || s[k] == '\t'
    ensures MatchesTimes(Class(Space), j - i, false, s, i, j)
    decreases j - i
  {
    if i < j {
      BlanksMatch(s, i + 1, j);
      assert Matches(Class(Space), false, s, i, i + 1);
    }
  }

  lemma LitMatches(text: string, s: string, i: nat)
    requires ContainsAt(s, i, text)
    ensures Matches(Lit(text), false, s, i, i + |text|)
  {
    forall k | 0 <= k < |text| ensures SameChar(text[k], s[i + k], false) {
      assert s[i..i + |text|][k] == text[k];
    }
  }

  lemma SpacedFound(a: string, b: string, s: string, i: nat, j: nat)
    requires ContainsAt(s, i, a) && i + |a| < j && ContainsAt(s, j, b)
    requires forall k :: i + |a| <= k < j ==> s[k] == ' ' || s[k] == '\t'
    ensures Found(Exact([Lit(a), S1, Lit(b)]), s)
  {
    var m, n := i + |a|, j + |b|;
    LitMatches(a, s, i);
    LitMatches(b, s, j);
    BlanksMatch(s, m, j);
    assert Matches(S1, false, s, m, j);
    assert MatchesAll([], false, s, n, n);
    assert [Lit(b)][1..] == [];
    assert MatchesAll([Lit(b)], false, s, j, n);
    assert [S1, Lit(b)][1..] == [Lit(b)];
    assert MatchesAll([S1, Lit(b)], false, s, m, n);
    assert [Lit(a), S1, Lit(b)][1..] == [S1, Lit(b)];
    assert MatchesAll([Lit(a), S1, Lit(b)], false, s, i, n);
    assert Matches(Exact([Lit(a), S1, Lit(b)]), false, s, i, n);
  }

  lemma NotClean(rules: seq<Category>, i: nat, p: Pattern, code: string)
    requires i < |rules| && p in rules[i].patterns && Found(p.re, code)
    ensures !Clean(rules, code)
  {
  }

  /** Python code that imports a process or system module, with whatever blanks, is never accepted. */
  lemma SystemImportsAreRefused(code: SourceText, i: nat, j: nat, name: string, limit: int)
    requires name == "subprocess" || name == "shutil" || name == "ctypes" || name == "sys"
    requires ContainsAt(code.runes, i, "import") && i + 6 < j && ContainsAt(code.runes, j, name)
    requires forall k :: i + 6 <= k < j ==> code.runes[k] == ' ' || code.runes[k] == '\t'
    ensures Sanitize(code, "python", limit, false) != None
  {
    SpacedFound("import", name, code.runes, i, j);
    ImportPattern(name);
    NotClean(PYTHON_RULES, 0, Kept(Exact([Lit("import"), S1, Lit(name)])), code.runes);
    AcceptedExactly(code, "python", limit);
  }

  lemma ImportPattern(name: string)
    requires name == "subprocess" || name == "shutil" || name == "ctypes" || name == "sys"
    ensures Kept(Exact([Lit("import"), S1, Lit(name)])) in PYTHON_RULES[0].patterns
  {
  }

  /** Code that calls eval or exec is never accepted, in any language. */
  lemma EvalAndExecAreRefused(code: SourceText, i: nat, text: string, language: string, limit: int)
    requires (text == "eval(" || text == "exec(") && ContainsAt(code.runes, i, text)
    ensures Sanitize(code, language, limit, false) != None
  {
    LitFound(text, code.runes, i);
    CallPattern(text);
    NotClean(COMMON, 1, Kept(Exact([Lit(text)])), code.runes);
    AcceptedExactly(code, language, limit);
  }

  lemma CallPattern(text: string)
    requires text == "eval(" || text == "exec("
    ensures Kept(Exact([Lit(text)])) in COMMON[1].patterns
  {
  }

  lemma LitFound(text: string, s: string, i: nat)
    requires ContainsAt(s, i, text)
    ensures Found(Exact([Lit(text)]), s)
  {
    LitMatches(text, s, i);
    var n := i + |text|;
    assert [Lit(text)][1..] == [] && MatchesAll([], false, s, n, n);
    assert MatchesAll([Lit(text)], false, s, i, n);
    assert Matches(Exact([Lit(text)]), false, s, i, n);
  }
}
