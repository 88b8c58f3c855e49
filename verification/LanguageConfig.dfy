/** executor/config.go: how a program is handed to the container's shell. */
module LanguageConfigs {
  import opened Types

  /** `strings.ReplaceAll(code, "'", "'\\''")`: every quote closes the string, stands escaped, and reopens it. */
  function Escape(code: string): string {
    if code == "" then ""
    else (if code[0] == '\'' then "'\\''" else [code[0]]) + Escape(code[1..])
  }

  /** The words of a template, each after one blank. */
  function Spaced(words: seq<string>): string {
    if words == [] then "" else " " + words[0] + Spaced(words[1..])
  }

  /** One entry of the configuration table; `rest` is the words of its template after the quoted program. */
  datatype LanguageConfig = LanguageConfig(timeoutSeconds: nat, rest: seq<string>) {

    function Script(code: string): string {
      "echo '" + Escape(code) + "'" + Spaced(rest)
    }

    function Args(code: string): seq<string> {
      ["sh", "-c", Script(code)]
    }
  }

  const GO := LanguageConfig(10, [">", "/app/temp/code.go", "&&", "go", "run", "/app/temp/code.go"])
  const JS := LanguageConfig(10, [">", "/app/temp/code.js", "&&", "node", "/app/temp/code.js"])
  const PYTHON := LanguageConfig(10, [">", "/app/temp/code.py", "&&", "python3", "/app/temp/code.py"])
  const CPP := LanguageConfig(10,
    [">", "/app/temp/code.cpp", "&&", "g++", "-o", "/app/temp/exe", "/app/temp/code.cpp", "&&", "/app/temp/exe"])

  predicate Supported(language: string) {
    language == "go" || language == "js" || language == "python" || language == "cpp"
  }

  /** The table lookup: `None` is Go's `ok == false`. */
  function GetLanguageConfig(language: string): (r: Option<LanguageConfig>)
    ensures r.Some? <==> Supported(language)
  {
    if language == "go" then Some(GO)
    else if language == "js" then Some(JS)
    else if language == "python" then Some(PYTHON)
    else if language == "cpp" then Some(CPP)
    else None
  }

  /** Every template redirects the program into a file and goes on to a command that names this very file. */
  lemma WrittenFileIsRun(language: string)
    requires Supported(language)
    ensures var rest := GetLanguageConfig(language).value.rest;
      |rest| >= 3 && rest[0] == ">" && rest[2] == "&&" && exists i :: 3 <= i < |rest| && rest[i] == rest[1]
  {
    var rest := GetLanguageConfig(language).value.rest;
    assert rest[if language == "go" then 5 else if language == "cpp" then 6 else 4] == rest[1];
  }

  /** The command `docker exec` runs for a job. */
  function Command(job: Job): seq<string>
    requires Supported(job.language)
  {
    GetLanguageConfig(job.language).value.Args(job.code)
  }

  /** The whole command line executeCode starts, in the container with the given id. */
  function DockerExec(container: string, job: Job): seq<string>
    requires Supported(job.language)
  {
    ["docker", "exec", container] + Command(job)
  }
}
