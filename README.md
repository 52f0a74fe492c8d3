# Docker Hub deploy webhook: verified model of the request path

The program is a small HTTP listener for registry push notifications
(Docker Hub webhooks). A `POST /deploy/{token}` request carries the pushed tag
and a callback URL. The handler looks up the token among the configured
repositories, checks the tag against that repository's allowed tags and, if
both match, starts the repository's deploy script and posts a fixed "success"
status to the callback URL. While the script runs, its output is copied
chunk by chunk to the process's own output and captured in memory.

This project models that logic in Dafny and proves its properties:

- `Types` (`types.dfy`) holds the data shapes: `SingleConf` (one configured
  repository), `AppConfiguration`, the fields of `WebhookRequest` the handler
  reads (`callback_url` and `push_data.tag`), and `WebhookResponse` (the
  callback payload).
- `Search` (`search.dfy`) holds `Find`: an exact, case-sensitive linear
  search that returns the first index holding a value, or `(-1, false)`.
- `Handler` (`handler.dfy`) models the dispatch decision of the `post`
  handler as a pure function. It maps the path token, the decoded body and
  the configuration to an `Outcome`, which is one of:
  - `Terminated`: an undecodable body makes the handler call `log.Fatal`;
  - `Responded(status, actions)`: the HTTP status written, plus the
    background work started, in the order it is started. That work is
    `LaunchScript(script)` and `SendCallback(url, payload)`.

  Nothing is executed. The configuration is a value the function only reads,
  so it is unchanged by every request.
- `Capture` (`capture.dfy`) models `copyAndCapture` as a method with the
  source's endless `for` loop. Each of its two `return`s becomes a `break`
  that leaves the loop with the values the `return` would give. The reader is a list of
  `(chunk, error)` results, one per `Read` call; once the list is used up the
  reader reports `io.EOF`. The writer is a list of write errors, one per
  `Write` call; once that list is used up every write succeeds. The chunks
  handed to the writer come back as a log, in order. `k` is a ghost count of
  the `Read` calls made.
- `Wrappers` (`wrappers.dfy`) holds `Option`.

Behaviour worth noting:

- A body that cannot be decoded ends the process (`log.Fatal`, main.go:155-157).
  It does not produce a 400. The model's outcome for it is `Terminated`.
- A repository's allowed tags are a list searched with `Find`, not a set.
  Duplicate tokens are allowed, and the first repository with the token wins.
- The callback always reports `success`. The script's result never reaches it.

## Model

| member | source | states |
|---|---|---|
| `Search.FindFrom` | main.go:93-98 | The loop from index `i` on stops at the first position at or after `i` that holds `val`. If no later position holds `val`, it ends with index -1 and `found` unset. |
| `Search.Find` | main.go:92-99 | The result is `FindResult(i, true)` exactly when `val` is in the slice. Then `slice[i] == val` and no earlier element equals `val`. Otherwise the result is `FindResult(-1, false)`. The pair is Go's `(int, bool)` return. Equality is exact string equality. |
| `Handler.Decide` | main.go:163-182 | For the repository the token selected: a pushed tag that is one of its tags gives 201, launches its script and sends the success callback to the request's URL. Any other tag gives 404 and starts nothing. |
| `Handler.Scan` | main.go:161-187 | Every outcome of the scan is 400, 404 or 201. Only 201 starts anything. A 201 starts exactly two things: one script launch, then one callback of `{success, "", Deploy, ""}` to the request's `callback_url`. |
| `Handler.Post` | main.go:152-188 | The handler terminates the process exactly when the body could not be decoded. Otherwise it writes a status. |
| `Handler.ScanFirstMatch` | main.go:161-183 | When `i` is the first position holding the token, the scan's outcome is the decision for `repos[i]`. |
| `Handler.ScanNoMatch` | main.go:161-187 | When no repository holds the token, the scan ends in 400 with no actions. |
| `Handler.UnknownTokenIsBadRequest` | main.go:160-187 | An absent path token, or one no repository holds, gives 400. No script is launched and no callback is sent. |
| `Handler.BadRequestIffUnknownToken` | main.go:160-187 | For a decoded body, the status is 400 if and only if the path token is absent or held by no repository. |
| `Handler.OnlyFirstMatchDecides` | main.go:161-183 | The outcome is the first matching repository's decision. Replacing every repository after that one leaves the outcome unchanged, so later repositories with the same token are never consulted. |
| `Handler.UnmanagedTagIsNotFound` | main.go:163-168 | A known token with a tag its repository does not list gives 404 with no launch and no callback. |
| `Handler.ManagedTagDeploys` | main.go:170-181 | A known token with a listed tag gives 201. The outcome launches that repository's script once and sends the success payload once to the request's callback URL. |
| `Handler.DeployIffAuthorized` | main.go:161-181 | A script `s` is launched if and only if the path token selects a repository whose tags hold the pushed tag and whose script is `s`. |
| `Handler.ExampleScenarios` | main.go:152-188 | For a repository `api` with token `abc123` and tags `latest` and `v2`: tag `latest` deploys `deploy.sh` and calls back. Tag `staging` gives 404. Token `wrongtoken` gives 400. |
| `Capture.CopyAndCapture` | main.go:69-90 | `out` holds every byte read, in order. `written` holds every non-empty chunk, each written once, in order, and joining `written` gives exactly `out`. Every read before the last returned no error, and every write issued before the last read succeeded. A failed write of the last chunk returns that write's error, with the chunk already in `out`. Otherwise the last read's error ends the loop: io.EOF becomes no error, and any other error is returned unchanged. |
| `Capture.NonEmptyChunkSizes` | main.go:71-77 | Every chunk forwarded to the writer holds between 1 and 1024 bytes. |
| `Capture.CapturedIsForwarded` | main.go:74-77 | Joining the forwarded chunks in order gives exactly the captured output. |

## Left out

- `main` (main.go:191-209): the config-file check, opening the log file, reading the configuration, router setup and `ListenAndServe` are file and network I/O. The configuration is a parameter of `Handler.Post`.
- JSON decoding of the request body (main.go:153-154) is not modelled. Its result is a parameter, and `None` stands for a body that failed to decode.
- `execCommandScriptBash` (main.go:101-133) is not modelled: it spawns a child process, uses pipes, a goroutine and a `sync.WaitGroup`, and calls `log.Fatal`. Only its invocation with the repository's script appears, as `LaunchScript`.
- `sendCallback` (main.go:135-150) is not modelled: it marshals JSON, makes an HTTP POST and panics on failure. Only its URL and payload appear, as `SendCallback`.
- The `go` launches (main.go:171, main.go:181) run concurrently. The model records only the order the handler starts them. It does not model how they interleave with each other or with the response.
- The `Content-Type` header, the empty response bodies and every `log.Printf` call are left out: they do not affect the outcome.
- The registry metadata in `WebhookRequest` is left out, floats included (`pushed_at`, `date_created`). The handler never reads it.
- Capture.CopyAndCapture: a reader that never returns an error makes the source loop forever. The model cannot express that: its reader reports io.EOF once its finite list of results is used up.
- Capture.CopyAndCapture: the source reuses one 1024-byte buffer and passes slices of it to the writer. The model passes chunk values, so aliasing of that buffer is not captured. The byte count that `Write` returns is ignored, as the source ignores it.
