/** service/service.go: from a request to a response. */
module Service {
  import opened Types
  import opened LanguageConfigs
  import opened Machine
  import opened Invariants
  import opened RunProofs
  import opened Engines
  import opened Sanitizer
  import JobSafety
  import SanitizerSpec

  const COMPILE_LIMIT := 10000
  const PROBLEM_LIMIT := 1000000000000

  /** The alias table, applied to a name already in lower case; other names stay as they are. */
  function NormalizeLanguage(lowered: string): string {
    if lowered in ["js", "jscript", "javscript", "javsscript", "javascipt", "javasript", "javascript",
      "java script", "jscipt"] then "js"
    else if lowered in ["python", "pyt", "pyn", "pythn", "phyton", "py", "py thon", "pthon"] then "python"
    else if lowered in ["go", "golang", "gol", "goo", "g o", "golangg"] then "go"
    else if lowered in ["cpp", "c++", "cp", "cppp", "c plus", "cxx", "cc", "cpp "] then "cpp"
    else lowered
  }

  /** The names the tables use stand for themselves. */
  lemma SupportedIsNormal(language: string)
    requires Supported(language)
    ensures NormalizeLanguage(language) == language
  {
  }

  /** Normalisation leaves a name alone or gives one the tables use, so a second one changes nothing. */
  lemma NormalFormsAreFixed(lowered: string)
    ensures NormalizeLanguage(lowered) == lowered || Supported(NormalizeLanguage(lowered))
    ensures NormalizeLanguage(NormalizeLanguage(lowered)) == NormalizeLanguage(lowered)
  {
    var normal := NormalizeLanguage(lowered);
    assert normal == lowered || normal == "js" || normal == "python" || normal == "go" || normal == "cpp";
    if normal != lowered {
      SupportedIsNormal(normal);
    }
  }

  lemma JsAliases(lowered: string)
    requires lowered == "javascript" || lowered == "jscript" || lowered == "java script"
    ensures NormalizeLanguage(lowered) == "js"
  {
  }

  lemma PythonAliases(lowered: string)
    requires lowered == "py" || lowered == "pyt" || lowered == "phyton"
    ensures NormalizeLanguage(lowered) == "python"
  {
  }

  lemma GoAliases(lowered: string)
    requires lowered == "golang" || lowered == "gol" || lowered == "g o"
    ensures NormalizeLanguage(lowered) == "go"
  {
  }

  lemma CppAliases(lowered: string)
    requires lowered == "c++" || lowered == "cxx" || lowered == "cc"
    ensures NormalizeLanguage(lowered) == "cpp"
  {
  }

  /** The two requests differ in their limits: ten thousand bytes, and a million times a million. */
  lemma LengthLimits(code: SourceText, language: string)
    ensures Sanitize(code, language, COMPILE_LIMIT, false) == Some(TooLong(10000)) <==> code.bytes > 10000
    ensures Sanitize(code, language, PROBLEM_LIMIT, false) == Some(TooLong(1000000000000))
       <==> code.bytes > 1000000000000
  {
    SanitizerSpec.RefusedExactly(code, language, COMPILE_LIMIT);
    SanitizerSpec.RefusedExactly(code, language, PROBLEM_LIMIT);
  }

  datatype ResponseError = NotBase64 | Refused(reason: SanitizationError) | Failed(cause: Failure)

  datatype Response = Response(success: bool, output: string, error: Option<ResponseError>)

  /** The rule table and the configuration table know the same languages. */
  lemma RulesAndConfigsAgree(language: string)
    ensures LanguageRules(language).Some? <==> GetLanguageConfig(language).Some?
  {
  }

  /** Code that the sanitizer accepts never reaches executeCode's unsupported-language branch. */
  lemma AcceptedIsSupported(code: SourceText, language: string, limit: int, pruned: bool)
    requires Sanitize(code, language, limit, pruned) == None
    ensures Supported(language)
  {
    assert LanguageRules(language).Some?;
    RulesAndConfigsAgree(language);
  }

  // ---------------------------------------------------------------- responses

  /** The end of both requests: the result of a job becomes the response. */
  function Respond(r: Result): (resp: Response)
    ensures resp.success <==> resp.error.None?
  {
    match r.error
    case None => Response(true, r.output, None)
    case Some(cause) => Response(false, r.output, Some(Failed(cause)))
  }

  /** The command of job `j` was run: once, for its own language and code, in the container its worker had acquired. */
  ghost predicate Ran(g: Ledger, j: JobId) {
    && j in g.execs && j in g.leases && j < |g.jobs|
    && g.execs[j].lease == g.leases[j] && g.execs[j].job == g.jobs[j] && Supported(g.jobs[j].language)
  }

  /** What a response says about what happened to its job, every case under its exact condition. */
  ghost predicate Honest(g: Ledger, j: JobId, resp: Response) {
    && j < |g.jobs|
    && (resp.success <==> resp.error.None?)
    && (resp.success <==> Ran(g, j) && g.execs[j].failure.None?)
    && (Ran(g, j) ==> resp.output == g.execs[j].output)
    && (Ran(g, j) && g.execs[j].failure.Some? <==>
      resp.error.Some? && resp.error.value.Failed? && resp.error.value.cause.ExecutionError?)
    && (Ran(g, j) && g.execs[j].failure.Some? ==> resp.error == Some(Failed(ExecutionError(g.execs[j].failure.value))))
    && (resp.error == Some(Failed(JobQueueFull)) <==> j in g.rejected)
    && (resp.error == Some(Failed(NoAvailableContainer)) <==> j !in g.rejected && j !in g.leases)
    && (resp.error == Some(Failed(UnsupportedLanguage(g.jobs[j].language))) <==>
      j in g.leases && !Supported(g.jobs[j].language))
  }

  lemma RejectedIsHonest(c: Config, s: State, j: JobId)
    requires JobInv(c, s) && LedgerInv(s.ledger) && j in s.ledger.rejected
    ensures Honest(s.ledger, j, Respond(QueueFull()))
  {
    JobSafety.OnePlace(c, s, j);
    assert JobSafety.At(s, j, JobSafety.Rejected);
  }

  lemma AnswerIsHonest(c: Config, s: State, j: JobId, r: Result)
    requires JobInv(c, s) && LedgerInv(s.ledger) && JobSafety.HasAnswer(s, j, r)
    ensures Honest(s.ledger, j, Respond(r))
  {
    assert Faithful(s.ledger, j, r);
    JobSafety.AnsweredIsDone(c, s, j, r);
  }

  /**
   End to end: in every reachable state of the concurrent engine, the response made of a job's reply says
   exactly what happened to that job.
   */
  lemma RepliesAreHonest(c: Config, s: State, j: JobId, r: Result)
    requires Reachable(c, s) && Replied(s, j, r)
    ensures Honest(s.ledger, j, Respond(r))
  {
    assert JobInv(c, s) && LedgerInv(s.ledger) by {
      ReachableInv(c, s);
    }
    if JobSafety.HasAnswer(s, j, r) {
      AnswerIsHonest(c, s, j, r);
    } else {
      RejectedIsHonest(c, s, j);
    }
  }

  class CompilerService {
    const engine: Engine

    constructor (engine: Engine)
      ensures this.engine == engine
    {
      this.engine := engine;
    }

    /**
     Compile, called by goroutine `k` of an engine in which everybody else keeps moving: `decoded` is the
     outcome of base64 decoding and `verdict` what the sanitizer, library code included, says about it. Code
     that is not decoded or not accepted never reaches the engine; other code becomes job `j`, and the
     response says what happened to it, which is never that its language is not supported.
     */
    method Compile(decoded: Option<SourceText>, lowered: string, verdict: Option<SanitizationError>, k: nat,
                   sched: Schedule)
      returns (resp: Response, ghost j: JobId)
      requires engine.Valid()
      requires decoded.Some? ==> verdict == Sanitize(decoded.value, NormalizeLanguage(lowered), COMPILE_LIMIT, false)
      requires decoded.Some? && verdict.None? ==>
        Fits(engine.config, engine.state, k, Job(NormalizeLanguage(lowered), decoded.value.runes), sched)
      modifies engine`state
      ensures engine.Valid() && (resp.success <==> resp.error.None?)
      ensures decoded.None? ==> resp == Response(false, "", Some(NotBase64)) && engine.state == old(engine.state)
      ensures decoded.Some? && verdict.Some? ==>
        resp == Response(false, "", Some(Refused(verdict.value))) && engine.state == old(engine.state)
      ensures decoded.Some? && verdict.None? ==>
        Served(old(engine.state).ledger, engine.state.ledger,
               Job(NormalizeLanguage(lowered), decoded.value.runes), j, resp)
    {
      var language := NormalizeLanguage(lowered);
      j := 0;
      if decoded.None? {
        return Response(false, "", Some(NotBase64)), j;
      }
      if verdict.Some? {
        return Response(false, "", Some(Refused(verdict.value))), j;
      }
      AcceptedIsSupported(decoded.value, language, COMPILE_LIMIT, false);
      resp, j := Run(language, decoded.value.runes, k, sched);
    }

    /** ExecuteProblemCode: the same without the decoding and with a wider limit. */
    method ExecuteProblemCode(code: SourceText, lowered: string, verdict: Option<SanitizationError>, k: nat,
                              sched: Schedule)
      returns (resp: Response, ghost j: JobId)
      requires engine.Valid()
      requires verdict == Sanitize(code, NormalizeLanguage(lowered), PROBLEM_LIMIT, false)
      requires verdict.None? ==>
        Fits(engine.config, engine.state, k, Job(NormalizeLanguage(lowered), code.runes), sched)
      modifies engine`state
      ensures engine.Valid() && (resp.success <==> resp.error.None?)
      ensures verdict.Some? ==>
        resp == Response(false, "", Some(Refused(verdict.value))) && engine.state == old(engine.state)
      ensures verdict.None? ==>
        Served(old(engine.state).ledger, engine.state.ledger, Job(NormalizeLanguage(lowered), code.runes), j, resp)
    {
      var language := NormalizeLanguage(lowered);
      j := 0;
      if verdict.Some? {
        return Response(false, "", Some(Refused(verdict.value))), j;
      }
      AcceptedIsSupported(code, language, PROBLEM_LIMIT, false);
      resp, j := Run(language, code.runes, k, sched);
    }

    /** The common end of both: a job is executed and its result becomes the response. */
    method Run(language: string, code: string, k: nat, sched: Schedule) returns (resp: Response, ghost j: JobId)
      requires Supported(language) && engine.Valid() && Fits(engine.config, engine.state, k, Job(language, code), sched)
      modifies engine`state
      ensures engine.Valid() && (resp.success <==> resp.error.None?)
      ensures Served(old(engine.state).ledger, engine.state.ledger, Job(language, code), j, resp)
    {
      var result;
      result, j := engine.ExecuteJob(k, language, code, sched);
      RepliesAreHonest(engine.config, engine.state, j, result);
      if result.error.Some? {
        return Response(false, result.output, Some(Failed(result.error.value))), j;
      }
      return Response(true, result.output, None), j;
    }
  }

  /** `resp` is the honest response to `job`, submitted as number `j` while the history grew from `g` to `g'`. */
  ghost predicate Served(g: Ledger, g': Ledger, job: Job, j: JobId, resp: Response) {
    && Extends(g, g') && |g.jobs| <= j < |g'.jobs| && g'.jobs[j] == job
    && Supported(job.language) && Honest(g', j, resp)
  }

  // ---------------------------------------------------------------- the unsupported-language branch

  /** A submission that went through Compile or ExecuteProblemCode. */
  ghost predicate Sanitized(job: Job) {
    exists code: SourceText, limit: int :: code.runes == job.code && Sanitize(code, job.language, limit, false) == None
  }

  lemma SanitizedIsSupported(job: Job)
    requires Sanitized(job)
    ensures Supported(job.language)
  {
    var code: SourceText, limit: int :| code.runes == job.code && Sanitize(code, job.language, limit, false) == None;
    AcceptedIsSupported(code, job.language, limit, false);
  }

  ghost predicate AllSupported(jobs: seq<Job>) {
    forall job <- jobs :: Supported(job.language)
  }

  lemma {:induction false} RunSubmitsSupported(c: Config, s: State, ls: seq<Label>)
    requires Runs(c, s, ls) && AllSupported(s.ledger.jobs)
    requires forall l <- ls, job <- Submitted(l) :: Supported(job.language)
    ensures AllSupported(After(c, s, ls).ledger.jobs)
    decreases |ls|
  {
    if ls != [] {
      StepSubmits(c, s, ls[0]);
      RunSubmitsSupported(c, Apply(c, s, ls[0]), ls[1..]);
    }
  }

  lemma SupportedIsLaunched(s: State, w: nat)
    requires ResultInv(s) && AllSupported(s.ledger.jobs) && w < |s.workers| && s.workers[w].Launching?
    ensures WorkerApply(s, w, Launch).workers[w].Running?
  {
    var j := s.workers[w].j;
    assert WorkerResultInv(s.ledger, w, s.workers[w]);
    assert s.ledger.jobs[j] in s.ledger.jobs;
  }

  lemma SupportedIsAnswered(s: State, j: JobId, r: Result)
    requires LedgerInv(s.ledger) && AllSupported(s.ledger.jobs) && Replied(s, j, r)
    ensures !(r.error.Some? && r.error.value.UnsupportedLanguage?)
  {
    if JobSafety.HasAnswer(s, j, r) {
      assert Faithful(s.ledger, j, r);
      assert s.ledger.jobs[j] in s.ledger.jobs;
    }
  }

  /**
   When every submission has passed the sanitizer, no worker of any run ever takes executeCode's
   unsupported-language branch, and no reply names it.
   */
  lemma UnsupportedBranchIsDead(c: Config, s0: State, ls: seq<Label>)
    requires Init(c, s0) && Runs(c, s0, ls)
    requires forall l <- ls, job <- Submitted(l) :: Sanitized(job)
    ensures var s := After(c, s0, ls);
      && (forall w: nat :: w < |s.workers| && s.workers[w].Launching? ==> WorkerApply(s, w, Launch).workers[w].Running?)
      && (forall j, r :: Replied(s, j, r) ==> !(r.error.Some? && r.error.value.UnsupportedLanguage?))
  {
    forall l <- ls, job <- Submitted(l) ensures Supported(job.language) {
      SanitizedIsSupported(job);
    }
    SupportedRun(c, s0, ls);
  }

  lemma SupportedRun(c: Config, s0: State, ls: seq<Label>)
    requires Init(c, s0) && Runs(c, s0, ls)
    requires forall l <- ls, job <- Submitted(l) :: Supported(job.language)
    ensures var s := After(c, s0, ls);
      && (forall w: nat :: w < |s.workers| && s.workers[w].Launching? ==> WorkerApply(s, w, Launch).workers[w].Running?)
      && (forall j, r :: Replied(s, j, r) ==> !(r.error.Some? && r.error.value.UnsupportedLanguage?))
  {
    var s := After(c, s0, ls);
    RunSubmitsSupported(c, s0, ls);
    assert ResultInv(s) by {
      ReachableInv(c, s);
    }
    forall w: nat | w < |s.workers| && s.workers[w].Launching? ensures WorkerApply(s, w, Launch).workers[w].Running? {
      SupportedIsLaunched(s, w);
    }
    forall j, r | Replied(s, j, r) ensures !(r.error.Some? && r.error.value.UnsupportedLanguage?) {
      SupportedIsAnswered(s, j, r);
    }
  }

  /**
   A job in a language for which the sanitizer accepts anything is answered with its own command's outcome or no
   container.
   */
  lemma AcceptedJobsAreNeverUnsupported(c: Config, s: State, j: JobId, r: Result, code: SourceText, limit: int)
    requires Reachable(c, s) && JobSafety.HasAnswer(s, j, r)
    requires Sanitize(code, JobAt(s.ledger, j).language, limit, false) == None
    ensures r == NoContainer()
      || (j in s.ledger.execs && r == FromRun(s.ledger.execs[j].output, s.ledger.execs[j].failure))
  {
    assert Supported(JobAt(s.ledger, j).language) by {
      AcceptedIsSupported(code, JobAt(s.ledger, j).language, limit, false);
    }
    JobSafety.SupportedJobAnswer(c, s, j, r);
  }
}
