/**
  A model of the action gateway in main.py: three stub handlers (`run_code`,
  `file_gen`, `search_docs`) and the `/action` dispatcher that builds the
  request of the selected handler from a record of optional fields.

  Every handler builds a fresh record from its input and returns it, so the
  whole module is functions and lemmas. The JSON dictionaries the handlers
  return are datatypes with one field per key.
 */
module ActionServer {

  datatype Option<T> = None | Some(value: T)

  // ---------------------------------------------------------------------------
  // Request records, with the source's default values
  // ---------------------------------------------------------------------------

  datatype RunReq = RunReq(
    language: string,
    code: string,
    stdin: Option<string> := None,
    timeoutMs: int := 5000)

  datatype FileReq = FileReq(
    path: string,
    content: string,
    overwrite: bool := true)

  datatype SearchReq = SearchReq(
    query: string,
    scope: string := "manual",
    maxResults: int := 5)

  /** The union record of `/action`: every field of the three requests, the
      strings optional, the rest with the same defaults as above. */
  datatype ActionReq = ActionReq(
    mode: string,
    language: Option<string> := None,
    code: Option<string> := None,
    stdin: Option<string> := None,
    timeoutMs: int := 5000,
    path: Option<string> := None,
    content: Option<string> := None,
    overwrite: bool := true,
    query: Option<string> := None,
    scope: string := "manual",
    maxResults: int := 5)

  // ---------------------------------------------------------------------------
  // Responses
  // ---------------------------------------------------------------------------

  datatype RunResult = RunResult(stdout: string, stderr: string, exitCode: int)
  datatype FileResult = FileResult(status: string, path: string)
  datatype SearchResult = SearchResult(results: seq<string>)

  datatype Response =
    | RunResponse(run: RunResult)
    | FileResponse(file: FileResult)
    | SearchResponse(search: SearchResult)

  /** An `HTTPException`: a status code and its detail text. */
  datatype HttpError = HttpError(statusCode: int, detail: string)

  datatype Outcome = Ok(response: Response) | Err(error: HttpError)

  // ---------------------------------------------------------------------------
  // Splitting a formatted string back into its interpolated part
  // ---------------------------------------------------------------------------

  /** The part of `s` between `prefix` and `suffix`, when `s` has that shape. */
  function Between(prefix: string, suffix: string, s: string): (m: Option<string>)
    ensures m.Some? ==> s == prefix + m.value + suffix
  {
    if |prefix| + |suffix| <= |s| && s[..|prefix|] == prefix && s[|s| - |suffix|..] == suffix then
      var middle := s[|prefix|..|s| - |suffix|];
      assert s == s[..|prefix|] + middle + s[|s| - |suffix|..];
      Some(middle)
    else
      None
  }

  /** Between undoes the formatting of an f-string with one hole. */
  lemma {:induction false} BetweenOfFormatted(prefix: string, suffix: string, x: string)
    ensures Between(prefix, suffix, prefix + x + suffix) == Some(x)
  {
    var s := prefix + x + suffix;
    assert s[..|prefix|] == prefix;
    assert s[|s| - |suffix|..] == suffix;
    assert s[|prefix|..|s| - |suffix|] == x;
  }

  /** An f-string with one hole and a fixed prefix and suffix is injective. */
  lemma FormattedInjective(prefix: string, suffix: string, x: string, y: string)
    ensures prefix + x + suffix == prefix + y + suffix <==> x == y
  {
    if prefix + x + suffix == prefix + y + suffix {
      BetweenOfFormatted(prefix, suffix, x);
      BetweenOfFormatted(prefix, suffix, y);
    }
  }

  // ---------------------------------------------------------------------------
  // Handlers
  // ---------------------------------------------------------------------------

  const RunPrefix: string := "Executed "
  const RunSuffix: string := " code"

  /** The language named in a `run_code` stdout. */
  function RunLanguage(stdout: string): Option<string>
  {
    Between(RunPrefix, RunSuffix, stdout)
  }

  /** `run_code`: executes nothing, always succeeds, and reports the language. */
  function RunCode(req: RunReq): (r: RunResult)
    ensures r.exitCode == 0 && r.stderr == ""
    ensures RunLanguage(r.stdout) == Some(req.language)
  {
    BetweenOfFormatted(RunPrefix, RunSuffix, req.language);
    RunResult(RunPrefix + req.language + RunSuffix, "", 0)
  }

  /** Only the language reaches the result: `code`, `stdin` and `timeoutMs`
      are ignored, and distinct languages give distinct results. */
  lemma RunCodeDeterminedByLanguage(a: RunReq, b: RunReq)
    ensures RunCode(a) == RunCode(b) <==> a.language == b.language
  {
    FormattedInjective(RunPrefix, RunSuffix, a.language, b.language);
  }

  /** `file_gen`: writes nothing and echoes the path. */
  function FileGen(req: FileReq): (r: FileResult)
    ensures r.status == "written"
    ensures r.path == req.path
  {
    FileResult("written", req.path)
  }

  /** Only the path reaches the result: `content` and `overwrite` are ignored. */
  lemma FileGenDeterminedByPath(a: FileReq, b: FileReq)
    ensures FileGen(a) == FileGen(b) <==> a.path == b.path
  {
  }

  const SearchPrefix: string := "Found "

  function SearchSuffix(scope: string): string
  {
    " in " + scope
  }

  /** The query named in a `search_docs` result line, given the scope. */
  function SearchQuery(line: string, scope: string): Option<string>
  {
    Between(SearchPrefix, SearchSuffix(scope), line)
  }

  /** `search_docs`: fetches nothing and returns one line naming the query
      and the scope; `maxResults` is ignored. */
  function SearchDocs(req: SearchReq): (r: SearchResult)
    ensures |r.results| == 1
    ensures SearchQuery(r.results[0], req.scope) == Some(req.query)
    ensures r.results[0][|r.results[0]| - |req.scope|..] == req.scope
  {
    var line := SearchPrefix + req.query + SearchSuffix(req.scope);
    BetweenOfFormatted(SearchPrefix, SearchSuffix(req.scope), req.query);
    assert line == (SearchPrefix + req.query + " in ") + req.scope;
    SearchResult([line])
  }

  /** For a fixed scope, the result determines the query and nothing but the
      query reaches it. */
  lemma SearchDocsDeterminedByQuery(a: SearchReq, b: SearchReq)
    requires a.scope == b.scope
    ensures SearchDocs(a) == SearchDocs(b) <==> a.query == b.query
  {
    FormattedInjective(SearchPrefix, SearchSuffix(a.scope), a.query, b.query);
  }

  /** Across scopes the result line is ambiguous: the query and the scope
      are joined by " in " with no escaping. */
  lemma SearchDocsAmbiguousAcrossScopes()
    ensures SearchReq("a in b", "c") != SearchReq("a", "b in c")
    ensures SearchDocs(SearchReq("a in b", "c")) == SearchDocs(SearchReq("a", "b in c"))
  {
    assert SearchPrefix + "a in b" + SearchSuffix("c") == SearchPrefix + "a" + SearchSuffix("b in c");
  }

  // ---------------------------------------------------------------------------
  // The dispatcher
  // ---------------------------------------------------------------------------

  /** Python's `x or ""` on an optional string: None and "" are both falsy. */
  function OrEmpty(x: Option<string>): (s: string)
    ensures x.Some? ==> s == x.value
    ensures x.None? ==> s == ""
  {
    if x.None? || x.value == "" then "" else x.value
  }

  datatype Mode = Run | Write | Search | Other(name: string)

  /** The comparisons of `mode` against the three literals, in source order. */
  function ModeOf(s: string): (m: Mode)
    ensures m == Run <==> s == "run"
    ensures m == Write <==> s == "write"
    ensures m == Search <==> s == "search"
    ensures m.Other? <==> s != "run" && s != "write" && s != "search"
  {
    if s == "run" then Run
    else if s == "write" then Write
    else if s == "search" then Search
    else Other(s)
  }

  function ModeName(m: Mode): string
  {
    match m
    case Run => "run"
    case Write => "write"
    case Search => "search"
    case Other(name) => name
  }

  /** Classifying a mode string loses nothing. */
  lemma ModeNameOfMode(s: string)
    ensures ModeName(ModeOf(s)) == s
  {
  }

  /** The request `run_code` receives from the dispatcher. */
  function RunReqOf(req: ActionReq): (r: RunReq)
    ensures r.language == OrEmpty(req.language)
    ensures r.code == OrEmpty(req.code)
    ensures r.stdin == Some(OrEmpty(req.stdin))
    ensures r.timeoutMs == req.timeoutMs
  {
    RunReq(OrEmpty(req.language), OrEmpty(req.code), Some(OrEmpty(req.stdin)), req.timeoutMs)
  }

  /** The request `file_gen` receives from the dispatcher. */
  function FileReqOf(req: ActionReq): (r: FileReq)
    ensures r.path == OrEmpty(req.path)
    ensures r.content == OrEmpty(req.content)
    ensures r.overwrite == req.overwrite
  {
    FileReq(OrEmpty(req.path), OrEmpty(req.content), req.overwrite)
  }

  /** The request `search_docs` receives from the dispatcher. */
  function SearchReqOf(req: ActionReq): (r: SearchReq)
    ensures r.query == OrEmpty(req.query)
    ensures r.scope == req.scope
    ensures r.maxResults == req.maxResults
  {
    SearchReq(OrEmpty(req.query), req.scope, req.maxResults)
  }

  const ModeError: HttpError := HttpError(400, "mode must be run|write|search")

  /** `dispatcher`: the handler selected by `mode`, or a 400 error. */
  function Dispatch(req: ActionReq): (out: Outcome)
    ensures out.Err? <==> req.mode != "run" && req.mode != "write" && req.mode != "search"
    ensures out.Err? ==> out.error == ModeError
    ensures req.mode == "run" ==> out.Ok? && out.response.RunResponse?
    ensures req.mode == "write" ==> out.Ok? && out.response.FileResponse?
    ensures req.mode == "search" ==> out.Ok? && out.response.SearchResponse?
  {
    match ModeOf(req.mode)
    case Run => Ok(RunResponse(RunCode(RunReqOf(req))))
    case Write => Ok(FileResponse(FileGen(FileReqOf(req))))
    case Search => Ok(SearchResponse(SearchDocs(SearchReqOf(req))))
    case Other(_) => Err(ModeError)
  }

  /** Dispatcher transparency: for each mode the result is exactly what the
      handler returns on the request built from the union record. */
  lemma DispatchTransparent(req: ActionReq)
    ensures req.mode == "run" ==> Dispatch(req) == Ok(RunResponse(RunCode(RunReqOf(req))))
    ensures req.mode == "write" ==> Dispatch(req) == Ok(FileResponse(FileGen(FileReqOf(req))))
    ensures req.mode == "search" ==> Dispatch(req) == Ok(SearchResponse(SearchDocs(SearchReqOf(req))))
  {
  }

  /** `/action` with mode "run" and the fields of a `/run` request answers
      exactly as `/run` does, although the dispatcher turns an absent stdin
      into "". */
  lemma DispatchAgreesWithRun(r: RunReq)
    ensures Dispatch(ActionReq("run", language := Some(r.language), code := Some(r.code),
                               stdin := r.stdin, timeoutMs := r.timeoutMs))
            == Ok(RunResponse(RunCode(r)))
  {
    var req := ActionReq("run", language := Some(r.language), code := Some(r.code),
                         stdin := r.stdin, timeoutMs := r.timeoutMs);
    RunCodeDeterminedByLanguage(RunReqOf(req), r);
  }

  /** The same for `/write`. */
  lemma DispatchAgreesWithWrite(r: FileReq)
    ensures Dispatch(ActionReq("write", path := Some(r.path), content := Some(r.content),
                               overwrite := r.overwrite))
            == Ok(FileResponse(FileGen(r)))
  {
  }

  /** The same for `/search`; here even the built request equals the direct one. */
  lemma DispatchAgreesWithSearch(r: SearchReq)
    ensures SearchReqOf(ActionReq("search", query := Some(r.query), scope := r.scope,
                                  maxResults := r.maxResults)) == r
    ensures Dispatch(ActionReq("search", query := Some(r.query), scope := r.scope,
                               maxResults := r.maxResults))
            == Ok(SearchResponse(SearchDocs(r)))
  {
  }

  /** Lenient defaulting: an absent string field acts as the empty string. */
  lemma AbsentFieldIsEmpty(req: ActionReq)
    ensures Dispatch(req.(language := None)) == Dispatch(req.(language := Some("")))
    ensures Dispatch(req.(code := None)) == Dispatch(req.(code := Some("")))
    ensures Dispatch(req.(stdin := None)) == Dispatch(req.(stdin := Some("")))
    ensures Dispatch(req.(path := None)) == Dispatch(req.(path := Some("")))
    ensures Dispatch(req.(content := None)) == Dispatch(req.(content := Some("")))
    ensures Dispatch(req.(query := None)) == Dispatch(req.(query := Some("")))
  {
  }

  /** With no language, run mode reports "Executed  code", with two spaces. */
  lemma DispatchRunWithoutLanguage(req: ActionReq)
    requires req.mode == "run" && req.language == None
    ensures Dispatch(req) == Ok(RunResponse(RunResult("Executed  code", "", 0)))
  {
  }

  /** What reaches each handler when only the mode is given, and the
      defaults that are forwarded unchanged. */
  lemma DispatchDefaults(mode: string)
    ensures RunReqOf(ActionReq(mode)) == RunReq("", "", Some(""), 5000)
    ensures FileReqOf(ActionReq(mode)) == FileReq("", "", true)
    ensures SearchReqOf(ActionReq(mode)) == SearchReq("", "manual", 5)
    ensures Dispatch(ActionReq("search", query := Some("q")))
            == Ok(SearchResponse(SearchResult(["Found q in manual"])))
  {
    assert SearchPrefix + "q" + SearchSuffix("manual") == "Found q in manual";
  }

  /** The fields each mode builds its request from. */
  predicate SameSelectedFields(a: ActionReq, b: ActionReq)
  {
    && a.mode == b.mode
    && (a.mode == "run" ==>
          a.language == b.language && a.code == b.code && a.stdin == b.stdin && a.timeoutMs == b.timeoutMs)
    && (a.mode == "write" ==>
          a.path == b.path && a.content == b.content && a.overwrite == b.overwrite)
    && (a.mode == "search" ==>
          a.query == b.query && a.scope == b.scope && a.maxResults == b.maxResults)
  }

  /** Fields irrelevant to the selected mode are ignored. */
  lemma DispatchIgnoresOtherFields(a: ActionReq, b: ActionReq)
    requires SameSelectedFields(a, b)
    ensures Dispatch(a) == Dispatch(b)
  {
  }

  /** In run mode the answer is decided by the language alone. */
  lemma DispatchRunDeterminedByLanguage(a: ActionReq, b: ActionReq)
    requires a.mode == "run" && b.mode == "run"
    ensures Dispatch(a) == Dispatch(b) <==> OrEmpty(a.language) == OrEmpty(b.language)
  {
    RunCodeDeterminedByLanguage(RunReqOf(a), RunReqOf(b));
  }

  /** In write mode the answer is decided by the path alone. */
  lemma DispatchWriteDeterminedByPath(a: ActionReq, b: ActionReq)
    requires a.mode == "write" && b.mode == "write"
    ensures Dispatch(a) == Dispatch(b) <==> OrEmpty(a.path) == OrEmpty(b.path)
  {
  }

  /** In search mode, for a fixed scope, the answer is decided by the query alone. */
  lemma DispatchSearchDeterminedByQuery(a: ActionReq, b: ActionReq)
    requires a.mode == "search" && b.mode == "search" && a.scope == b.scope
    ensures Dispatch(a) == Dispatch(b) <==> OrEmpty(a.query) == OrEmpty(b.query)
  {
    SearchDocsDeterminedByQuery(SearchReqOf(a), SearchReqOf(b));
  }

  /** An unknown mode yields the 400 error and no handler's response. */
  lemma DispatchUnknownMode(req: ActionReq)
    requires ModeOf(req.mode).Other?
    ensures Dispatch(req) == Err(HttpError(400, "mode must be run|write|search"))
    ensures forall r: RunReq :: Dispatch(req) != Ok(RunResponse(RunCode(r)))
    ensures forall r: FileReq :: Dispatch(req) != Ok(FileResponse(FileGen(r)))
    ensures forall r: SearchReq :: Dispatch(req) != Ok(SearchResponse(SearchDocs(r)))
  {
  }
}
