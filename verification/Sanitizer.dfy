/** internal/sanitize.go: the rule table and the ordered search through it. */
module Sanitizer {
  import opened Types
  import opened Regex

  /** A pattern of the table. `Subsumed` marks the ones that could be deleted, see module Pruning. */
  datatype Pattern = Kept(re: Re) | Subsumed(re: Re)

  datatype Category = Category(name: string, description: string, patterns: seq<Pattern>)

  /** A Go string: the runes a regular expression sees, and its length in bytes. */
  datatype SourceText = SourceText(runes: string, bytes: nat)

  datatype SanitizationError =
    | TooLong(limit: int)
    | Prohibited(category: string, details: string)
    | ProhibitedIn(language: string, category: string, details: string)
    | NoRulesFor(language: string)

  // ---------------------------------------------------------------- the search

  /** hasMatchingPattern, over all patterns of a category or over those that are kept when `pruned`. */
  ghost predicate HasMatchingPattern(k: Category, code: string, pruned: bool) {
    exists p | p in k.patterns :: (pruned ==> p.Kept?) && Found(p.re, code)
  }

  /** The first category of the list with a matching pattern. */
  ghost function FirstMatch(rules: seq<Category>, code: string, pruned: bool): Option<Category> {
    if rules == [] then None
    else if HasMatchingPattern(rules[0], code, pruned) then Some(rules[0])
    else FirstMatch(rules[1..], code, pruned)
  }

  /** SanitizeCode on the rule table: `None` is Go's nil. */
  ghost function Sanitize(code: SourceText, language: string, limit: int, pruned: bool): Option<SanitizationError> {
    SanitizeBy(COMMON, LanguageRules(language), code, language, limit, pruned)
  }

  /** Length first, then the common categories, then the language's own, each list up to its first match. */
  ghost function SanitizeBy(common: seq<Category>, own: Option<seq<Category>>, code: SourceText, language: string,
                            limit: int, pruned: bool): Option<SanitizationError> {
    if code.bytes > limit then Some(TooLong(limit))
    else
      match FirstMatch(common, code.runes, pruned)
      case Some(k) => Some(Prohibited(k.name, k.description))
      case None =>
        match own
        case None => Some(NoRulesFor(language))
        case Some(rules) =>
          match FirstMatch(rules, code.runes, pruned)
          case Some(k) => Some(ProhibitedIn(language, k.name, k.description))
          case None => None
  }

  /** The table lookup: `None` is Go's `ok == false`. */
  function LanguageRules(language: string): Option<seq<Category>> {
    if language == "python" then Some(PYTHON_RULES)
    else if language == "go" then Some(GO_RULES)
    else if language == "js" then Some(JS_RULES)
    else if language == "cpp" then Some(CPP_RULES)
    else None
  }

  // ---------------------------------------------------------------- notation of the table

  /** A concatenation, plain and under (?i). */
  function Exact(parts: seq<Re>): Re { Cat(parts) }

  function AnyCase(parts: seq<Re>): Re { Fold(Cat(parts)) }

  const S0 := Rep(Class(Space), 0)
  const S1 := Rep(Class(Space), 1)
  const QUOTE := Class(OneOf("'\""))

  // Stretches that several patterns share.
  const WHILE_TRUE: seq<Re> := [Lit("while"), S0, Lit("("), S0, Lit("true"), S0, Lit(")")]
  const FOREVER: seq<Re> := [Lit("for"), S0, Lit("("), S0, Lit(";;"), S0, Lit(")")]
  const HUGE_ARRAY: seq<Re> := [Lit("Array"), S0, Lit("("), S0, Lit("1e"), Rep(Class(Digit), 1), S0, Lit(")")]
  const EXEC_CALL: seq<Re> := [Lit("exec(")]
  const OS_FORK: seq<Re> := [Lit("os.fork(")]
  const OS_REMOVE: seq<Re> := [Lit("os.Remove")]
  const GO_LOOP: seq<Re> := [Lit("for"), S0, Lit("{")]

  // Patterns named because one of them subsumes another.
  const ARRAY_SPREAD := Exact([Lit("["), S0, Lit("...")] + HUGE_ARRAY + [S0, Lit("]")])
  const TIMEOUT_LOOP := AnyCase([Lit("setTimeout"), S0, Lit("("), S0, Lit("function"), S0, Lit("("), S0, Lit(")"),
    S0, Lit("{"), S0] + WHILE_TRUE)
  const WHILE_FORK := AnyCase(WHILE_TRUE + [S0, Lit("{"), S0, Lit("fork"), S0, Lit("("), S0, Lit(")")])
  const FOR_FORK := AnyCase([Lit("for"), S0, Lit("("), Lit(";;"), Lit(")")] + [S0, Lit("{"), S0, Lit("fork"), S0,
    Lit("("), S0, Lit(")")])
  const OS_EXEC := Exact([Lit("os.")] + EXEC_CALL)
  const FOR_OS_FORK := Exact([Lit("for"), S0, Lit("("), Rep(Class(NotNewline), 0), S0] + OS_FORK + [Lit(")")])
  const WHILE_OS_FORK := Exact([Lit("while"), S0, Lit("True"), S0, Lit(":"), S0] + OS_FORK + [Lit(")")])
  const GO_FUNC_LOOP := Exact([Lit("go"), S1, Lit("func"), S0, Lit("("), S0, Lit(")"), S0, Lit("{"), S0] + GO_LOOP)
  const NEW_ARRAY := Exact([Lit("new"), S1] + HUGE_ARRAY)
  const THREAD_LOOP := Exact([Lit("std::thread"), S0, Lit("("), S0, Lit("[]"), S0, Lit("("), S0, Lit(")"), S0,
    Lit("{"), S0] + WHILE_TRUE)
  const OS_REMOVE_ALL := Exact(OS_REMOVE + [Lit("All")])
  const ANY_OS_REMOVE := Fold(Alt([Exact(OS_REMOVE), OS_REMOVE_ALL]))

  // ---------------------------------------------------------------- the table

  const SYSTEM_OPERATIONS := Category("systemOperations", "Dangerous system operations", [
    Kept(ANY_OS_REMOVE),
    Kept(Fold(Alt([Lit("net.Listen"), Lit("net.Dial")]))),
    Kept(AnyCase([Lit("exec.Command")])),
    Kept(AnyCase([Lit("syscall.Exec")]))])

  const CODE_EXECUTION := Category("codeExecution", "Dynamic code execution", [
    Kept(Exact([Lit("eval(")])),
    Kept(Exact(EXEC_CALL))])

  const RESOURCE_DEPLETION := Category("resourceDepletion", "Resource depletion attacks", [
    Kept(AnyCase(WHILE_TRUE)),
    Kept(AnyCase([Lit("while"), S0, Lit("("), S0, Lit("1"), S0, Lit(")")])),
    Kept(AnyCase(FOREVER)),
    Kept(AnyCase([Lit("for"), S0, Lit("(;"), S0, Lit("true"), S0, Lit(";)")])),
    Kept(AnyCase([Lit(".repeat"), S0, Lit("("), S0, Lit("Infinity"), S0, Lit(")")])),
    Subsumed(ARRAY_SPREAD),
    Kept(Exact(HUGE_ARRAY)),
    Kept(Exact([Lit("BigInt"), S0, Lit("("), S0, Lit("Number.MAX_SAFE_INTEGER"), S0, Lit(")"), S0, Lit("*"), S0,
      Lit("BigInt")])),
    Subsumed(TIMEOUT_LOOP)])

  const FORK_BOMBS := Category("forkBombs", "Fork bomb attacks", [
    Subsumed(WHILE_FORK),
    Subsumed(FOR_FORK),
    Kept(Exact([Lit(":"), S0, Lit("()"), S0, Lit("{"), S0, Lit(":|:"), S0, Lit("&"), S0, Lit("}"), S0, Lit(";"), S0,
      Lit(":")])),
    Kept(Exact([Lit("define"), S1, Lit("f"), S1, Lit("()"), S1, Lit("(f)&"), S0, Lit("f")])),
    Kept(AnyCase([Lit("while"), S1, Lit("1;"), S1, Lit("do"), S1, Lit("sh"), S1, Lit("-c"), S1, Lit("\"$0"), S1,
      Lit("&\"")])),
    Kept(Exact([Lit("Process.fork()")])),
    Kept(Exact([Lit("cluster.fork()")])),
    Kept(Exact([Lit("multiprocessing.Process")])),
    Kept(Exact([Lit("pthread_create")]))])

  const PYTHON_DANGEROUS_MODULES := Category("dangerousModules", "Dangerous Python modules", [
    Kept(Exact([Lit("import"), S1, Lit("os"), S0, EndOfText])),
    Kept(Exact([Lit("from"), S1, Lit("os"), S1, Lit("import"), S1,
      Alt([Lit("system"), Lit("popen"), Lit("execl"), Lit("execle"), Lit("execlp"), Lit("execv"), Lit("execve"),
        Lit("execvp"), Lit("execvpe"), Lit("spawn")])])),
    Kept(Exact([Lit("import"), S1, Lit("subprocess")])),
    Kept(Exact([Lit("import"), S1, Lit("shutil")])),
    Kept(Exact([Lit("import"), S1, Lit("ctypes")])),
    Kept(Exact([Lit("import"), S1, Lit("sys")])),
    Kept(Exact([Lit("__import__("), QUOTE, Lit("os"), QUOTE]))])

  const PYTHON_DANGEROUS_OPERATIONS := Category("dangerousOperations", "Dangerous Python operations", [
    Kept(Exact([Lit("open("), Rep(Class(NotNewline), 1), Lit(","), S0, QUOTE, Lit("w"), QUOTE])),
    Kept(Exact([Lit("__import__(")])),
    Kept(Exact([Lit("globals().")])),
    Kept(Exact([Lit("locals().")])),
    Kept(Exact([Lit("os.system(")])),
    Subsumed(OS_EXEC),
    Kept(Exact([Lit("subprocess.Popen(")])),
    Kept(Exact(OS_FORK)),
    Kept(Exact([Lit("threading.Thread"), S0, Lit("("), Rep(Class(NotNewline), 0), Lit("bomb()")])),
    Subsumed(FOR_OS_FORK),
    Subsumed(WHILE_OS_FORK)])

  const PYTHON_RESOURCE_DEPLETION := Category("pythonResourceDepletion", "Python resource depletion attacks", [
    Kept(Exact([Lit("while"), S1, Lit("True"), S0, Lit(":")])),
    Kept(Exact([Class(OneOf("[")), S0, Lit("0"), S0, Lit("]"), S0, Lit("*"), S0, Lit("10**"), Rep(Class(Digit), 1)])),
    Kept(Exact([Lit("range"), S0, Lit("("), S0, Lit("10"), S0, Lit("**"), S0, Rep(Class(Digit), 2), S0, Lit(")")])),
    Kept(Exact([Lit("'"), S0, Lit("'"), S0, Lit(".join"), S0, Lit("("), S0, Lit("["), S0, Lit("'A'"), S0, Lit("]"),
      S0, Lit("*"), S0, Lit("10**"), Rep(Class(Digit), 1), S0, Lit(")")])),
    Kept(Exact([Lit("multiprocessing.Pool"), S0, Lit("("), S0, Lit("processes"), S0, Lit("="), S0,
      Rep(Class(Digit), 3), S0, Lit(")")])),
    Kept(Exact([Lit("threading.Thread"), S0, Lit("("), S0, Lit("target"), S0, Lit("="), S0,
      Rep(Class(NotNewline), 1), S0, Lit(")"), S0, Lit(".start"), S0, Lit("("), S0, Lit(")")])),
    Kept(Exact([Lit("{"), S0, Lit(".*"), S0, Lit(".*"), S0, Lit(".*"), S0, Lit(".*"), S0, Lit("}")]))])

  const GO_INFINITE_LOOPS := Category("infiniteLoops", "Potential infinite loops", [
    Kept(Exact(GO_LOOP)),
    Kept(Exact([Lit("for"), S1, Lit("true"), S0, Lit("{")])),
    Kept(Exact([Lit("for"), S1, Lit(";"), S0, Lit(";"), S0, Lit("{")]))])

  const GO_DANGEROUS_OS_FUNCTIONS := Category("dangerousOsFunctions", "Dangerous OS functions", [
    Subsumed(Exact(OS_REMOVE)),
    Subsumed(OS_REMOVE_ALL),
    Kept(Exact([Lit("os.Chdir")])),
    Kept(Exact([Lit("os.Chmod")])),
    Kept(Exact([Lit("os.Chown")])),
    Kept(Exact([Lit("os.Exit")])),
    Kept(Exact([Lit("os.Link")])),
    Kept(Exact([Lit("os.MkdirAll")])),
    Kept(Exact([Lit("os.Rename")])),
    Kept(Exact([Lit("os.Symlink")]))])

  const GO_RESOURCE_DEPLETION := Category("goResourceDepletion", "Go resource depletion attacks", [
    Kept(Exact([Lit("make"), S0, Lit("("), S0, Lit("[]"), Rep(Class(WordChar), 1), S0, Lit(","), S0,
      Rep(Class(Digit), 8), S0, Lit(")")])),
    Subsumed(GO_FUNC_LOOP),
    Subsumed(Invalid),
    Kept(Exact([Lit("runtime.GOMAXPROCS"), S0, Lit("("), S0, Rep(Class(Digit), 3), S0, Lit(")")])),
    Kept(Exact([Lit("len"), S0, Lit("("), S0, Lit("make"), S0, Lit("("), S0, Lit("[]byte"), S0, Lit(","), S0,
      Lit("1<<"), Rep(Class(Digit), 2), S0, Lit(")"), S0, Lit(")")]))])

  const JS_DANGEROUS_MODULES := Category("dangerousModules", "Dangerous JS modules", [
    Kept(Exact([Lit("require("), QUOTE, Lit("fs"), QUOTE])),
    Kept(Exact([Lit("require("), QUOTE, Lit("child_process"), QUOTE])),
    Kept(Exact([Lit("require("), QUOTE, Lit("http"), QUOTE])),
    Kept(Exact([Lit("require("), QUOTE, Lit("https"), QUOTE])),
    Kept(Exact([Lit("require("), QUOTE, Lit("os"), QUOTE])),
    Kept(Exact([Lit("import"), S1, Rep(Class(NotNewline), 0), S1, Lit("from"), S1, QUOTE, Lit("fs"), QUOTE])),
    Kept(Exact([Lit("import"), S1, Rep(Class(NotNewline), 0), S1, Lit("from"), S1, QUOTE, Lit("child_process"),
      QUOTE]))])

  const JS_DANGEROUS_OPERATIONS := Category("dangerousOperations", "Dangerous JS operations", [
    Kept(Exact([Lit("process.exit")])),
    Kept(Exact([Lit("Function("), Rep(Class(NotNewline), 0), Lit(")")])),
    Kept(Exact([Lit("new Function")])),
    Kept(Exact([Lit("window.")])),
    Kept(Exact([Lit("document.")])),
    Kept(Exact([Lit("localStorage")])),
    Kept(Exact([Lit("sessionStorage")])),
    Kept(Exact([Lit("indexedDB")])),
    Kept(Exact([Lit("WebSocket")]))])

  const JS_RESOURCE_DEPLETION := Category("jsResourceDepletion", "JavaScript resource depletion attacks", [
    Subsumed(Exact(WHILE_TRUE)),
    Subsumed(Exact(FOREVER)),
    Kept(Exact([Lit("setTimeout"), S0, Lit("("), S0, Lit("function"), S0, Lit("("), S0, Lit(")"), S0, Lit("{"), S0,
      Lit("location.reload"), S0, Lit("("), S0, Lit(")")])),
    Kept(Exact([Lit(".repeat"), S0, Lit("("), S0, Lit("1e"), Rep(Class(Digit), 1), S0, Lit(")")])),
    Subsumed(Exact(HUGE_ARRAY)),
    Subsumed(NEW_ARRAY),
    Subsumed(ARRAY_SPREAD),
    Kept(AnyCase([Lit("(+[]+[]+[]+[]+[]+[]+[]")]))])

  const CPP_DANGEROUS_OPERATIONS := Category("dangerousOperations", "Dangerous C++ operations", [
    Kept(Exact([Lit("system(")])),
    Subsumed(Exact(EXEC_CALL)),
    Kept(Exact([Lit("fork(")])),
    Kept(Exact([Lit("popen(")])),
    Kept(Exact([Lit("delete"), S1, Rep(Class(NotNewline), 0), S1, Lit(";")])),
    Kept(Exact([Lit("new"), S1, Rep(Class(NotNewline), 0), S0, Lit(";")])),
    Kept(Exact([Lit("std::system")]))])

  const CPP_RESOURCE_DEPLETION := Category("cppResourceDepletion", "C++ resource depletion attacks", [
    Subsumed(Exact(WHILE_TRUE)),
    Subsumed(Exact(FOREVER)),
    Kept(Exact([Lit("malloc"), S0, Lit("("), S0, Lit("UINT_MAX"), S0, Lit(")")])),
    Kept(Exact([Lit("calloc"), S0, Lit("("), S0, Lit("UINT_MAX")])),
    Kept(Exact([Lit("new"), S1, Lit("char"), S0, Lit("["), S0, Lit("UINT_MAX"), S0, Lit("]")])),
    Kept(Exact([Lit("std::vector<"), Rep(Class(WordChar), 1), Lit(">"), S0, Lit("("), S0, Rep(Class(Digit), 9), S0,
      Lit(")")])),
    Subsumed(THREAD_LOOP),
    Kept(Exact([Lit("#include"), S0, Lit("<fork"), Class(NotNewline), Lit("h>")]))])

  const COMMON: seq<Category> := [SYSTEM_OPERATIONS, CODE_EXECUTION, RESOURCE_DEPLETION, FORK_BOMBS]
  const PYTHON_RULES: seq<Category> := [PYTHON_DANGEROUS_MODULES, PYTHON_DANGEROUS_OPERATIONS,
    PYTHON_RESOURCE_DEPLETION]
  const GO_RULES: seq<Category> := [GO_INFINITE_LOOPS, GO_DANGEROUS_OS_FUNCTIONS, GO_RESOURCE_DEPLETION]
  const JS_RULES: seq<Category> := [JS_DANGEROUS_MODULES, JS_DANGEROUS_OPERATIONS, JS_RESOURCE_DEPLETION]
  const CPP_RULES: seq<Category> := [CPP_DANGEROUS_OPERATIONS, CPP_RESOURCE_DEPLETION]
}
