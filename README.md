# Action gateway model

This project models the deterministic core of a small HTTP action gateway, `main.py`. It is a FastAPI app with three stub endpoints and one multiplexing endpoint:

- `run_code` (`/run`) executes nothing. It reports `stdout` "Executed <language> code", an empty `stderr` and `exitCode` 0.
- `file_gen` (`/write`) writes nothing. It reports `status` "written" and echoes the request path.
- `search_docs` (`/search`) fetches nothing. It returns a one-element `results` list "Found <query> in <scope>".
- `dispatcher` (`/action`) takes a union record of optional fields and a `mode` string. It builds the request of the selected handler, turning every missing string into `""` with Python's `x or ""`. It then returns exactly what that handler returns, or raises an HTTP 400 error for any other mode.

Everything in `main.py` builds a new record from its inputs, so the model (`action_server.dfy`, module `ActionServer`) consists of datatypes, functions and lemmas:

- Request records keep the source's defaults as constructor default parameters: `timeoutMs` 5000, `overwrite` true, `scope` "manual", `maxResults` 5, and `None` for the optional strings.
- The returned dictionaries become datatypes with one field per key.
- The `HTTPException` becomes the `Err` side of an `Outcome`.
- `x or ""` is modelled as written: `None` and `""` both give `""`.

Each handler is paired with an inverse for its formatted string. `RunLanguage` recovers the language from a `stdout`. `SearchQuery` recovers the query from a result line, given the scope. From these round trips, if-and-only-if lemmas show exactly which request fields reach each response.

The documented design of this gateway describes much more: sandboxed subprocess execution, timeouts, path-traversal defence, SHA-256 digests, overwrite refusal, and sitemap search with title/url/snippet records. None of this exists in `main.py`. The model follows the code: `/write` answers `{status, path}` and `/search` answers a list of plain strings.

## Model

| member | source | states |
|---|---|---|
| ActionServer.RunCode | main.py:31-34 | `run_code` always has exit code 0 and an empty stderr, and its stdout names exactly the request's language (the stdout parses back to that language) |
| ActionServer.RunCodeDeterminedByLanguage | main.py:32-34 | two run requests get the same response if and only if their languages are equal, so `code`, `stdin` and `timeoutMs` do not affect the result |
| ActionServer.FileGen | main.py:36-38 | `file_gen` always reports status "written" and the request path unchanged |
| ActionServer.FileGenDeterminedByPath | main.py:37-38 | two write requests get the same response if and only if their paths are equal, so `content` and `overwrite` do not affect the result |
| ActionServer.SearchDocs | main.py:40-42 | `search_docs` returns exactly one result line; it ends with the scope, and the query parses back out of it given that scope; `maxResults` plays no part |
| ActionServer.SearchDocsDeterminedByQuery | main.py:41-42 | for a fixed scope, two search requests get the same response if and only if their queries are equal |
| ActionServer.SearchDocsAmbiguousAcrossScopes | main.py:42 | the result line does not determine query and scope together: ("a in b", "c") and ("a", "b in c") give the same line |
| ActionServer.OrEmpty | main.py:69-71 | `x or ""` yields the string itself when present (a present `""` included) and `""` when absent |
| ActionServer.ModeOf | main.py:67-87 | the mode string selects run, write or search exactly when it equals "run", "write" or "search", and falls through otherwise |
| ActionServer.ModeNameOfMode | main.py:67-86 | classifying a mode string loses nothing: the string can be read back from its classification |
| ActionServer.RunReqOf | main.py:68-73 | the run request gets language, code and stdin defaulted to `""` when absent (stdin is always present), and `timeoutMs` unchanged |
| ActionServer.FileReqOf | main.py:75-79 | the file request gets path and content defaulted to `""` when absent, and `overwrite` unchanged |
| ActionServer.SearchReqOf | main.py:81-85 | the search request gets the query defaulted to `""` when absent, and `scope` and `maxResults` unchanged |
| ActionServer.Dispatch | main.py:61-87 | the dispatcher fails if and only if the mode is none of the three literals, and then with status 400 and detail "mode must be run\|write\|search"; each literal yields the response kind of its handler |
| ActionServer.DispatchTransparent | main.py:67-85 | for each mode, the dispatcher's result equals the matching handler applied to the request built from the union record |
| ActionServer.DispatchAgreesWithRun | main.py:48-73 | `/action` with mode "run" and the fields of a `/run` request gives the same response as `/run`, although an absent stdin becomes `""` |
| ActionServer.DispatchAgreesWithWrite | main.py:48-79 | `/action` with mode "write" and the fields of a `/write` request gives the same response as `/write` |
| ActionServer.DispatchAgreesWithSearch | main.py:48-85 | `/action` with mode "search" and the fields of a `/search` request builds that very request and gives the same response as `/search` |
| ActionServer.AbsentFieldIsEmpty | main.py:69-82 | for every mode, an absent `language`, `code`, `stdin`, `path`, `content` or `query` has the same effect as `""` |
| ActionServer.DispatchRunWithoutLanguage | main.py:68-73 | run mode without a language reports stdout "Executed  code" (two spaces), empty stderr, exit code 0 |
| ActionServer.DispatchDefaults | main.py:48-85 | with only the mode given, the handlers receive empty strings, stdin `""`, `timeoutMs` 5000, `overwrite` true, scope "manual" and `maxResults` 5; search for "q" yields "Found q in manual" |
| ActionServer.DispatchIgnoresOtherFields | main.py:67-85 | two union records with the same mode that agree on the fields that mode reads get the same result, whatever the other fields hold |
| ActionServer.DispatchRunDeterminedByLanguage | main.py:67-73 | in run mode, two records get the same result if and only if their defaulted languages are equal |
| ActionServer.DispatchWriteDeterminedByPath | main.py:74-79 | in write mode, two records get the same result if and only if their defaulted paths are equal |
| ActionServer.DispatchSearchDeterminedByQuery | main.py:80-85 | in search mode with equal scopes, two records get the same result if and only if their defaulted queries are equal |
| ActionServer.DispatchUnknownMode | main.py:86-87 | an unknown mode yields the 400 error, which equals no response that any handler can produce |

## Left out

- FastAPI app construction, route registration and JSON (de)serialisation (main.py:1-5 and the `@app.post` lines): framework plumbing.
- Pydantic validation: the `Literal["run", "write", "search"]` annotation makes pydantic reject other modes before `dispatcher` runs. The model has no validation layer, so `mode` is any string and the 400 fall-through branch is reachable, as the code is written.
- Type coercion by pydantic (for example a JSON string for `timeoutMs`): the model takes already-typed fields.
- Subprocess execution, timeouts, filesystem writes, path sanitisation, SHA-256 digests and sitemap fetching: the code does none of these.
- Any range check on `timeoutMs` or `maxResults`: the code performs none, so they are unbounded integers forwarded verbatim.
