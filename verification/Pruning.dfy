/** Deleting the subsumed patterns from the rule table changes no answer of the sanitizer. */
module Pruning {
  import opened Types
  import opened Regex
  import opened Sanitizer

  ghost predicate NoKeptMatch(rules: seq<Category>, code: string) {
    forall i :: 0 <= i < |rules| ==> !HasMatchingPattern(rules[i], code, true)
  }

  /** If a subsumed pattern of `k` matches, so does a kept one, in `k` or in an earlier category. */
  ghost predicate Covered(earlier: seq<Category>, k: Category, code: string) {
    NoKeptMatch(earlier, code) && HasMatchingPattern(k, code, false) ==> HasMatchingPattern(k, code, true)
  }

  ghost predicate AllCovered(earlier: seq<Category>, rules: seq<Category>, code: string) {
    forall i :: 0 <= i < |rules| ==> Covered(earlier + rules[..i], rules[i], code)
  }

  lemma TailCovered(earlier: seq<Category>, rules: seq<Category>, code: string)
    requires rules != [] && AllCovered(earlier, rules, code)
    ensures AllCovered(earlier + [rules[0]], rules[1..], code)
  {
    var next, rest := earlier + [rules[0]], rules[1..];
    forall i | 0 <= i < |rest| ensures Covered(next + rest[..i], rest[i], code) {
      assert next + rest[..i] == earlier + rules[..i + 1];
      assert Covered(earlier + rules[..i + 1], rules[i + 1], code);
    }
  }

  /** A list of covered categories gives the same first match with and without the subsumed patterns. */
  lemma {:induction false} SameFirstMatch(earlier: seq<Category>, rules: seq<Category>, code: string)
    requires AllCovered(earlier, rules, code) && NoKeptMatch(earlier, code)
    ensures FirstMatch(rules, code, true) == FirstMatch(rules, code, false)
    ensures FirstMatch(rules, code, true).None? ==> NoKeptMatch(earlier + rules, code)
    decreases |rules|
  {
    if rules == [] {
      assert earlier + rules == earlier;
    } else {
      assert earlier + rules[..0] == earlier;
      assert Covered(earlier, rules[0], code);
      assert HasMatchingPattern(rules[0], code, true) ==> HasMatchingPattern(rules[0], code, false);
      if !HasMatchingPattern(rules[0], code, true) {
        TailCovered(earlier, rules, code);
        SameFirstMatch(earlier + [rules[0]], rules[1..], code);
        assert earlier + [rules[0]] + rules[1..] == earlier + rules;
      }
    }
  }

  // ---------------------------------------------------------------- reading the table

  predicate OnlySubsumed(k: Category, res: seq<Re>) {
    forall p <- k.patterns :: p.Subsumed? ==> p.re in res
  }

  predicate Keeps(rules: seq<Category>, re: Re) {
    exists i :: 0 <= i < |rules| && Kept(re) in rules[i].patterns
  }

  lemma KeptMatches(rules: seq<Category>, re: Re, code: string)
    requires Keeps(rules, re) && Found(re, code)
    ensures !NoKeptMatch(rules, code)
  {
    var i :| 0 <= i < |rules| && Kept(re) in rules[i].patterns;
    assert HasMatchingPattern(rules[i], code, true);
  }

  lemma LastMatches(earlier: seq<Category>, k: Category, code: string)
    requires NoKeptMatch(earlier, code) && !NoKeptMatch(earlier + [k], code)
    ensures HasMatchingPattern(k, code, true)
  {
    var rules := earlier + [k];
    assert forall i :: 0 <= i < |earlier| ==> rules[i] == earlier[i];
    assert rules[|earlier|] == k;
  }

  /** A category is covered if each of its subsumed patterns implies one that is kept there or earlier. */
  lemma CoveredIf(earlier: seq<Category>, k: Category, code: string, res: seq<Re>)
    requires OnlySubsumed(k, res)
    requires forall re <- res :: Found(re, code) ==> exists q :: Found(q, code) && Keeps(earlier + [k], q)
    ensures Covered(earlier, k, code)
  {
    if NoKeptMatch(earlier, code) && HasMatchingPattern(k, code, false) {
      var p :| p in k.patterns && Found(p.re, code);
      if p.Subsumed? {
        var q :| Found(q, code) && Keeps(earlier + [k], q);
        KeptMatches(earlier + [k], q, code);
        LastMatches(earlier, k, code);
      }
    }
  }

  // ---------------------------------------------------------------- inclusions between patterns

  /** The four ways in which a shared stretch can stand in a longer pattern. */
  lemma PartFound(before: seq<Re>, group: seq<Re>, after: seq<Re>, code: string)
    ensures Found(Exact(before + group + after), code) ==> Found(Exact(group), code) && Found(AnyCase(group), code)
    ensures Found(Exact(before + group), code) ==> Found(Exact(group), code) && Found(AnyCase(group), code)
    ensures Found(Exact(group + after), code) ==> Found(Exact(group), code) && Found(AnyCase(group), code)
    ensures Found(Exact(group), code) ==> Found(AnyCase(group), code)
  {
    if Found(Exact(before + group + after), code) {
      FoundPart(before, group, after, code);
    }
    if Found(Exact(before + group), code) {
      assert before + group + [] == before + group;
      FoundPart(before, group, [], code);
    }
    if Found(Exact(group + after), code) {
      assert [] + group + after == group + after;
      FoundPart([], group, after, code);
    }
    if Found(Exact(group), code) {
      assert [] + group + [] == group;
      FoundPart([], group, [], code);
    }
  }

  lemma FoldedPartFound(before: seq<Re>, group: seq<Re>, after: seq<Re>, code: string)
    ensures Found(AnyCase(before + group), code) ==> Found(AnyCase(group), code)
    ensures Found(AnyCase(group + after), code) ==> Found(AnyCase(group), code)
  {
    if Found(AnyCase(before + group), code) {
      assert before + group + [] == before + group;
      FoundFoldedPart(before, group, [], code);
    }
    if Found(AnyCase(group + after), code) {
      assert [] + group + after == group + after;
      FoundFoldedPart([], group, after, code);
    }
  }

  /** Two optional items put into a concatenation under (?i). */
  lemma LoosenedFound(a: seq<Re>, b: seq<Re>, c: seq<Re>, item: Re, code: string)
    requires Found(AnyCase(a + b + c), code)
    ensures Found(AnyCase(a + [Rep(item, 0)] + b + [Rep(item, 0)] + c), code)
  {
    var o := [Rep(item, 0)];
    var i: nat, j: nat :| Matches(AnyCase(a + b + c), false, code, i, j);
    assert Matches(Exact(a + b + c), true, code, i, j);
    assert a + b + c == a + (b + c);
    InsertOptional(a, item, b + c, true, code, i, j);
    assert a + o + (b + c) == (a + o + b) + c;
    InsertOptional(a + o + b, item, c, true, code, i, j);
    assert Matches(Exact(a + o + b + o + c), true, code, i, j);
    assert Matches(AnyCase(a + o + b + o + c), false, code, i, j);
  }

  /** Each subsumed pattern, with the pattern that makes it redundant. */
  lemma WhileForkImplied(code: string)
    ensures Found(WHILE_FORK, code) ==> Found(AnyCase(WHILE_TRUE), code)
  {
    FoldedPartFound([], WHILE_TRUE, [S0, Lit("{"), S0, Lit("fork"), S0, Lit("("), S0, Lit(")")], code);
  }

  lemma ForForkImplied(code: string)
    ensures Found(FOR_FORK, code) ==> Found(AnyCase(FOREVER), code)
  {
    var head, tight := [Lit("for"), S0, Lit("(")], [Lit("for"), S0, Lit("("), Lit(";;"), Lit(")")];
    FoldedPartFound([], tight, [S0, Lit("{"), S0, Lit("fork"), S0, Lit("("), S0, Lit(")")], code);
    if Found(FOR_FORK, code) {
      assert tight == head + [Lit(";;")] + [Lit(")")];
      LoosenedFound(head, [Lit(";;")], [Lit(")")], Class(Space), code);
      assert head + [S0] + [Lit(";;")] + [S0] + [Lit(")")] == FOREVER;
    }
  }

  lemma TimeoutLoopImplied(code: string)
    ensures Found(TIMEOUT_LOOP, code) ==> Found(AnyCase(WHILE_TRUE), code)
  {
    FoldedPartFound([Lit("setTimeout"), S0, Lit("("), S0, Lit("function"), S0, Lit("("), S0, Lit(")"), S0,
                     Lit("{"), S0],
                    WHILE_TRUE, [], code);
  }

  lemma ThreadLoopImplied(code: string)
    ensures Found(THREAD_LOOP, code) ==> Found(AnyCase(WHILE_TRUE), code)
  {
    PartFound([Lit("std::thread"), S0, Lit("("), S0, Lit("[]"), S0, Lit("("), S0, Lit(")"), S0, Lit("{"), S0],
              WHILE_TRUE, [], code);
  }

  lemma PlainLoopsImplied(code: string)
    ensures Found(Exact(WHILE_TRUE), code) ==> Found(AnyCase(WHILE_TRUE), code)
    ensures Found(Exact(FOREVER), code) ==> Found(AnyCase(FOREVER), code)
  {
    PartFound([], WHILE_TRUE, [], code);
    PartFound([], FOREVER, [], code);
  }

  lemma ArraysImplied(code: string)
    ensures Found(ARRAY_SPREAD, code) || Found(NEW_ARRAY, code) ==> Found(Exact(HUGE_ARRAY), code)
  {
    PartFound([Lit("["), S0, Lit("...")], HUGE_ARRAY, [S0, Lit("]")], code);
    PartFound([Lit("new"), S1], HUGE_ARRAY, [], code);
  }

  lemma OsExecImplied(code: string)
    ensures Found(OS_EXEC, code) ==> Found(Exact(EXEC_CALL), code)
  {
    PartFound([Lit("os.")], EXEC_CALL, [], code);
  }

  lemma OsForksImplied(code: string)
    ensures Found(FOR_OS_FORK, code) || Found(WHILE_OS_FORK, code) ==> Found(Exact(OS_FORK), code)
  {
    PartFound([Lit("for"), S0, Lit("("), Rep(Class(NotNewline), 0), S0], OS_FORK, [Lit(")")], code);
    PartFound([Lit("while"), S0, Lit("True"), S0, Lit(":"), S0], OS_FORK, [Lit(")")], code);
  }

  lemma GoFuncLoopImplied(code: string)
    ensures Found(GO_FUNC_LOOP, code) ==> Found(Exact(GO_LOOP), code)
  {
    PartFound([Lit("go"), S1, Lit("func"), S0, Lit("("), S0, Lit(")"), S0, Lit("{"), S0], GO_LOOP, [], code);
  }

  lemma OsRemoveImplied(code: string)
    ensures Found(Exact(OS_REMOVE), code) || Found(OS_REMOVE_ALL, code) ==> Found(ANY_OS_REMOVE, code)
  {
    PartFound([], OS_REMOVE, [Lit("All")], code);
    if Found(AnyCase(OS_REMOVE), code) {
      FoundOption(Exact(OS_REMOVE), [Exact(OS_REMOVE), OS_REMOVE_ALL], code);
    }
  }

  // ---------------------------------------------------------------- the categories with subsumed patterns

  lemma KeepsMore(a: seq<Category>, b: seq<Category>, re: Re)
    requires Keeps(a, re)
    ensures Keeps(a + b, re)
  {
    var i :| 0 <= i < |a| && Kept(re) in a[i].patterns;
    assert (a + b)[i] == a[i];
  }

  lemma ResourceDepletionCovered(earlier: seq<Category>, code: string)
    ensures Covered(earlier, RESOURCE_DEPLETION, code)
  {
    var rules := earlier + [RESOURCE_DEPLETION];
    assert OnlySubsumed(RESOURCE_DEPLETION, [ARRAY_SPREAD, TIMEOUT_LOOP]);
    assert rules[|earlier|] == RESOURCE_DEPLETION;
    assert Keeps(rules, Exact(HUGE_ARRAY));
    assert Keeps(rules, AnyCase(WHILE_TRUE));
    ArraysImplied(code);
    TimeoutLoopImplied(code);
    CoveredIf(earlier, RESOURCE_DEPLETION, code, [ARRAY_SPREAD, TIMEOUT_LOOP]);
  }

  lemma ForkBombsCovered(earlier: seq<Category>, code: string)
    requires Keeps(earlier, AnyCase(WHILE_TRUE))
    requires Keeps(earlier, AnyCase(FOREVER))
    ensures Covered(earlier, FORK_BOMBS, code)
  {
    var rules := earlier + [FORK_BOMBS];
    assert OnlySubsumed(FORK_BOMBS, [WHILE_FORK, FOR_FORK]);
    KeepsMore(earlier, [FORK_BOMBS], AnyCase(WHILE_TRUE));
    KeepsMore(earlier, [FORK_BOMBS], AnyCase(FOREVER));
    WhileForkImplied(code);
    ForForkImplied(code);
    CoveredIf(earlier, FORK_BOMBS, code, [WHILE_FORK, FOR_FORK]);
  }

  lemma PythonOperationsCovered(earlier: seq<Category>, code: string)
    requires Keeps(earlier, Exact(EXEC_CALL))
    ensures Covered(earlier, PYTHON_DANGEROUS_OPERATIONS, code)
  {
    var rules := earlier + [PYTHON_DANGEROUS_OPERATIONS];
    assert OnlySubsumed(PYTHON_DANGEROUS_OPERATIONS, [OS_EXEC, FOR_OS_FORK, WHILE_OS_FORK]);
    KeepsMore(earlier, [PYTHON_DANGEROUS_OPERATIONS], Exact(EXEC_CALL));
    assert rules[|earlier|] == PYTHON_DANGEROUS_OPERATIONS;
    assert Keeps(rules, Exact(OS_FORK));
    OsExecImplied(code);
    OsForksImplied(code);
    CoveredIf(earlier, PYTHON_DANGEROUS_OPERATIONS, code, [OS_EXEC, FOR_OS_FORK, WHILE_OS_FORK]);
  }

  lemma GoOsFunctionsCovered(earlier: seq<Category>, code: string)
    requires Keeps(earlier, ANY_OS_REMOVE)
    ensures Covered(earlier, GO_DANGEROUS_OS_FUNCTIONS, code)
  {
    var rules := earlier + [GO_DANGEROUS_OS_FUNCTIONS];
    assert OnlySubsumed(GO_DANGEROUS_OS_FUNCTIONS, [Exact(OS_REMOVE), OS_REMOVE_ALL]);
    KeepsMore(earlier, [GO_DANGEROUS_OS_FUNCTIONS], ANY_OS_REMOVE);
    OsRemoveImplied(code);
    CoveredIf(earlier, GO_DANGEROUS_OS_FUNCTIONS, code, [Exact(OS_REMOVE), OS_REMOVE_ALL]);
  }

  lemma GoDepletionCovered(earlier: seq<Category>, code: string)
    requires Keeps(earlier, Exact(GO_LOOP))
    ensures Covered(earlier, GO_RESOURCE_DEPLETION, code)
  {
    var rules := earlier + [GO_RESOURCE_DEPLETION];
    assert OnlySubsumed(GO_RESOURCE_DEPLETION, [GO_FUNC_LOOP, Invalid]);
    KeepsMore(earlier, [GO_RESOURCE_DEPLETION], Exact(GO_LOOP));
    GoFuncLoopImplied(code);
    CoveredIf(earlier, GO_RESOURCE_DEPLETION, code, [GO_FUNC_LOOP, Invalid]);
  }

  lemma JsDepletionCovered(earlier: seq<Category>, code: string)
    requires Keeps(earlier, AnyCase(WHILE_TRUE))
    requires Keeps(earlier, AnyCase(FOREVER))
    requires Keeps(earlier, Exact(HUGE_ARRAY))
    ensures Covered(earlier, JS_RESOURCE_DEPLETION, code)
  {
    var rules := earlier + [JS_RESOURCE_DEPLETION];
    assert OnlySubsumed(JS_RESOURCE_DEPLETION,
      [Exact(WHILE_TRUE), Exact(FOREVER), Exact(HUGE_ARRAY), NEW_ARRAY, ARRAY_SPREAD]);
    KeepsMore(earlier, [JS_RESOURCE_DEPLETION], AnyCase(WHILE_TRUE));
    KeepsMore(earlier, [JS_RESOURCE_DEPLETION], AnyCase(FOREVER));
    KeepsMore(earlier, [JS_RESOURCE_DEPLETION], Exact(HUGE_ARRAY));
    PlainLoopsImplied(code);
    ArraysImplied(code);
    CoveredIf(earlier, JS_RESOURCE_DEPLETION, code,
      [Exact(WHILE_TRUE), Exact(FOREVER), Exact(HUGE_ARRAY), NEW_ARRAY, ARRAY_SPREAD]);
  }

  lemma CppOperationsCovered(earlier: seq<Category>, code: string)
    requires Keeps(earlier, Exact(EXEC_CALL))
    ensures Covered(earlier, CPP_DANGEROUS_OPERATIONS, code)
  {
    var rules := earlier + [CPP_DANGEROUS_OPERATIONS];
    assert OnlySubsumed(CPP_DANGEROUS_OPERATIONS, [Exact(EXEC_CALL)]);
    KeepsMore(earlier, [CPP_DANGEROUS_OPERATIONS], Exact(EXEC_CALL));
    CoveredIf(earlier, CPP_DANGEROUS_OPERATIONS, code, [Exact(EXEC_CALL)]);
  }

  lemma CppDepletionCovered(earlier: seq<Category>, code: string)
    requires Keeps(earlier, AnyCase(WHILE_TRUE))
    requires Keeps(earlier, AnyCase(FOREVER))
    ensures Covered(earlier, CPP_RESOURCE_DEPLETION, code)
  {
    var rules := earlier + [CPP_RESOURCE_DEPLETION];
    assert OnlySubsumed(CPP_RESOURCE_DEPLETION, [Exact(WHILE_TRUE), Exact(FOREVER), THREAD_LOOP]);
    KeepsMore(earlier, [CPP_RESOURCE_DEPLETION], AnyCase(WHILE_TRUE));
    KeepsMore(earlier, [CPP_RESOURCE_DEPLETION], AnyCase(FOREVER));
    PlainLoopsImplied(code);
    ThreadLoopImplied(code);
    CoveredIf(earlier, CPP_RESOURCE_DEPLETION, code, [Exact(WHILE_TRUE), Exact(FOREVER), THREAD_LOOP]);
  }

  lemma PlainCovered(earlier: seq<Category>, k: Category, code: string)
    requires OnlySubsumed(k, [])
    ensures Covered(earlier, k, code)
  {
    CoveredIf(earlier, k, code, []);
  }

  // ---------------------------------------------------------------- the table as a whole

  lemma CoveredThree(earlier: seq<Category>, x: Category, y: Category, z: Category, code: string)
    requires Covered(earlier, x, code) && Covered(earlier + [x], y, code) && Covered(earlier + [x, y], z, code)
    ensures AllCovered(earlier, [x, y, z], code)
  {
    var rules := [x, y, z];
    assert rules[..0] == [] && rules[..1] == [x] && rules[..2] == [x, y];
    assert earlier + [] == earlier;
  }

  lemma CoveredTwo(earlier: seq<Category>, x: Category, y: Category, code: string)
    requires Covered(earlier, x, code) && Covered(earlier + [x], y, code)
    ensures AllCovered(earlier, [x, y], code)
  {
    var rules := [x, y];
    assert rules[..0] == [] && rules[..1] == [x];
    assert earlier + [] == earlier;
  }

  lemma CoveredFour(x: Category, y: Category, z: Category, u: Category, code: string)
    requires Covered([], x, code) && Covered([x], y, code) && Covered([x, y], z, code) && Covered([x, y, z], u, code)
    ensures AllCovered([], [x, y, z, u], code)
  {
    var rules := [x, y, z, u];
    assert [] + rules[..0] == [] && [] + rules[..1] == [x] && [] + rules[..2] == [x, y] && [] + rules[..3] == [x, y, z];
  }

  /** The kept patterns of the common categories that make others redundant. */
  ghost predicate KeepsShared(rules: seq<Category>) {
    && Keeps(rules, AnyCase(WHILE_TRUE)) && Keeps(rules, AnyCase(FOREVER)) && Keeps(rules, Exact(HUGE_ARRAY))
    && Keeps(rules, ANY_OS_REMOVE) && Keeps(rules, Exact(EXEC_CALL))
  }

  lemma SharedKept(rules: seq<Category>)
    requires |rules| >= 3
    requires rules[0] == SYSTEM_OPERATIONS && rules[1] == CODE_EXECUTION && rules[2] == RESOURCE_DEPLETION
    ensures KeepsShared(rules)
  {
    assert Kept(ANY_OS_REMOVE) in rules[0].patterns;
    assert Kept(Exact(EXEC_CALL)) in rules[1].patterns;
    assert Kept(AnyCase(WHILE_TRUE)) in rules[2].patterns;
    assert Kept(AnyCase(FOREVER)) in rules[2].patterns;
    assert Kept(Exact(HUGE_ARRAY)) in rules[2].patterns;
  }

  lemma SharedKeepsMore(a: seq<Category>, b: seq<Category>)
    requires KeepsShared(a)
    ensures KeepsShared(a + b)
  {
    KeepsMore(a, b, AnyCase(WHILE_TRUE));
    KeepsMore(a, b, AnyCase(FOREVER));
    KeepsMore(a, b, Exact(HUGE_ARRAY));
    KeepsMore(a, b, ANY_OS_REMOVE);
    KeepsMore(a, b, Exact(EXEC_CALL));
  }

  lemma CommonCovered(code: string)
    ensures AllCovered([], COMMON, code)
  {
    SharedKept([SYSTEM_OPERATIONS, CODE_EXECUTION, RESOURCE_DEPLETION]);
    PlainCovered([], SYSTEM_OPERATIONS, code);
    PlainCovered([SYSTEM_OPERATIONS], CODE_EXECUTION, code);
    ResourceDepletionCovered([SYSTEM_OPERATIONS, CODE_EXECUTION], code);
    ForkBombsCovered([SYSTEM_OPERATIONS, CODE_EXECUTION, RESOURCE_DEPLETION], code);
    CoveredFour(SYSTEM_OPERATIONS, CODE_EXECUTION, RESOURCE_DEPLETION, FORK_BOMBS, code);
  }

  lemma PythonPlain()
    ensures OnlySubsumed(PYTHON_DANGEROUS_MODULES, []) && OnlySubsumed(PYTHON_RESOURCE_DEPLETION, [])
  {
  }

  lemma JsPlain()
    ensures OnlySubsumed(JS_DANGEROUS_MODULES, []) && OnlySubsumed(JS_DANGEROUS_OPERATIONS, [])
  {
  }

  lemma PythonCovered(earlier: seq<Category>, code: string)
    requires KeepsShared(earlier)
    ensures AllCovered(earlier, PYTHON_RULES, code)
  {
    PythonPlain();
    var x, y, z := PYTHON_DANGEROUS_MODULES, PYTHON_DANGEROUS_OPERATIONS, PYTHON_RESOURCE_DEPLETION;
    SharedKeepsMore(earlier, [x]);
    PlainCovered(earlier, x, code);
    PythonOperationsCovered(earlier + [x], code);
    PlainCovered(earlier + [x, y], z, code);
    CoveredThree(earlier, x, y, z, code);
  }

  lemma GoCovered(earlier: seq<Category>, code: string)
    requires KeepsShared(earlier)
    ensures AllCovered(earlier, GO_RULES, code)
  {
    var x, y, z := GO_INFINITE_LOOPS, GO_DANGEROUS_OS_FUNCTIONS, GO_RESOURCE_DEPLETION;
    SharedKeepsMore(earlier, [x]);
    assert (earlier + [x, y])[|earlier|] == x && Kept(Exact(GO_LOOP)) in x.patterns;
    PlainCovered(earlier, x, code);
    GoOsFunctionsCovered(earlier + [x], code);
    GoDepletionCovered(earlier + [x, y], code);
    CoveredThree(earlier, x, y, z, code);
  }

  lemma JsCovered(earlier: seq<Category>, code: string)
    requires KeepsShared(earlier)
    ensures AllCovered(earlier, JS_RULES, code)
  {
    JsPlain();
    var x, y, z := JS_DANGEROUS_MODULES, JS_DANGEROUS_OPERATIONS, JS_RESOURCE_DEPLETION;
    SharedKeepsMore(earlier, [x, y]);
    PlainCovered(earlier, x, code);
    PlainCovered(earlier + [x], y, code);
    JsDepletionCovered(earlier + [x, y], code);
    CoveredThree(earlier, x, y, z, code);
  }

  lemma CppCovered(earlier: seq<Category>, code: string)
    requires KeepsShared(earlier)
    ensures AllCovered(earlier, CPP_RULES, code)
  {
    var x, y := CPP_DANGEROUS_OPERATIONS, CPP_RESOURCE_DEPLETION;
    SharedKeepsMore(earlier, [x]);
    CppOperationsCovered(earlier, code);
    CppDepletionCovered(earlier + [x], code);
    CoveredTwo(earlier, x, y, code);
  }

  lemma RulesCovered(earlier: seq<Category>, language: string, code: string)
    requires KeepsShared(earlier) && LanguageRules(language).Some?
    ensures AllCovered(earlier, LanguageRules(language).value, code)
  {
    if language == "python" {
      PythonCovered(earlier, code);
    } else if language == "go" {
      GoCovered(earlier, code);
    } else if language == "js" {
      JsCovered(earlier, code);
    } else {
      CppCovered(earlier, code);
    }
  }

  lemma SameAnswer(common: seq<Category>, own: Option<seq<Category>>, code: SourceText, language: string, limit: int)
    requires FirstMatch(common, code.runes, true) == FirstMatch(common, code.runes, false)
    requires FirstMatch(common, code.runes, true).None? && own.Some? ==>
      FirstMatch(own.value, code.runes, true) == FirstMatch(own.value, code.runes, false)
    ensures SanitizeBy(common, own, code, language, limit, true)
         == SanitizeBy(common, own, code, language, limit, false)
  {
  }

  lemma SameAnswerIfCovered(common: seq<Category>, own: Option<seq<Category>>, code: SourceText, language: string,
                            limit: int)
    requires AllCovered([], common, code.runes) && (own.Some? ==> AllCovered(common, own.value, code.runes))
    ensures SanitizeBy(common, own, code, language, limit, true)
         == SanitizeBy(common, own, code, language, limit, false)
  {
    SameFirstMatch([], common, code.runes);
    assert [] + common == common;
    if FirstMatch(common, code.runes, true).None? && own.Some? {
      SameFirstMatch(common, own.value, code.runes);
    }
    SameAnswer(common, own, code, language, limit);
  }

  lemma CommonShared()
    ensures KeepsShared(COMMON)
  {
    SharedKept(COMMON);
  }

  /** For every code, language and limit the sanitizer answers the same with and without the subsumed patterns. */
  lemma PruningPreservesMeaning(code: SourceText, language: string, limit: int)
    ensures Sanitize(code, language, limit, true) == Sanitize(code, language, limit, false)
  {
    var own := LanguageRules(language);
    CommonCovered(code.runes);
    if own.Some? {
      CommonShared();
      RulesCovered(COMMON, language, code.runes);
    }
    SameAnswerIfCovered(COMMON, own, code, language, limit);
  }
}
