# config-map-controller: the reconcile step, in Dafny

This project models the per-ConfigMap reconcile step of config-map-controller. The step looks
up one configured annotation, reads its value as `key=url`, fetches the URL, and stores the
response body under `key` in the ConfigMap's `data`. A record whose `data` already holds `key`
is left alone. The repository has two versions of this step, and both are modelled:

- `processor/processor.go`, `ProcessResource` (module `Processor`). This is the current one.
  Every failure is returned as an error. The same text is filed as one error event on the
  ConfigMap. A URL without a scheme is fetched over `https`. A refused store update is a failure.
- `controller/controller.go`, `ProcessItem` (module `Controller`). This is the older one. A
  malformed annotation is skipped silently. The URL piece is fetched as written. No events are
  filed. A refused store update is ignored.

Layout, one module per file:

- `options.dfy`: `Option`, used for Go's nil values.
- `strings.dfy`: Go's `strings.Split` for a one-character separator, with `Join` as its
  inverse in both directions. Also the `%d` rendering of a status code, with a parser that
  reads it back.
- `urls.dfy`: a parsed URL, reduced to its scheme and an opaque rest. Also the `https` default.
- `http.dfy`: what a GET can come back with (`FetchOutcome`), and an `HttpClient` that answers
  from a fixed response function and records every request.
- `kube.dfy`: `ConfigMap` and `Event`, and a `Store` class standing for the clientset. It holds
  the ConfigMaps keyed by namespace and name, and the events filed so far.
- `reconcile.dfy`: what both versions share. This is the `key=url` split (`ParseDirective`)
  and the shape of a decision (`Plan`): skip, fail with a message, or write an updated ConfigMap.
- `processor.dfy`, `controller.dfy`: each version. There is a pure decision function `Decide`
  and lemmas about it. There is a class whose method (`ProcessResource`, `ProcessItem`) does
  the work step by step on the store and the HTTP client, and is proved to do what `Decide` says.
- `versions.dfy`: how the two versions relate.

Where the tests and the code disagree, the model follows the code:

- `processor/processor_test.go:118-134` expects a malformed annotation to give no error. But
  `processor/processor.go:50-56` returns an error and files an event, and the acceptance test
  (`acceptance_test/acceptance_test.go:103-115`) expects that event.
- `processor/processor_test.go:65` and `:144` expect the bare `example.com` to be requested.
  But `processor/processor.go:68-70` first gives the parsed URL the scheme `https`.

Both versions accept empty pieces (`=url`, `key=`). Only the number of `=` signs is checked
(`Reconcile.EmptyPiecesAccepted`). A stricter reading, two non-empty pieces, is not what the
code does.

The two versions disagree on a refused update. `controller/controller.go:67-69` has an empty
error branch, so `ProcessItem` returns no error. Its test at `controller/controller_test.go:205-209`
is named "returns an error" but is empty. `ProcessResource` reports the failure. Both
behaviours are modelled as written.

## Model

| member | source | states |
|---|---|---|
| `Strings.Split` | processor/processor.go:50 | `strings.Split` on `=` gives one more piece than there are `=` signs, and no piece contains `=` |
| `Strings.JoinSplit` | processor/processor.go:50 | joining the pieces of a split with `=` gives back the original annotation value |
| `Strings.SplitJoin` | processor/processor.go:50 | splitting the join of `=`-free pieces gives back those pieces, so the split loses nothing |
| `Strings.DecimalRoundTrip` | processor/processor.go:140 | the `%d` rendering of a status code can be read back to that code, negative codes included |
| `Strings.DecimalStringInjective` | processor/processor.go:140 | distinct integers give distinct `%d` renderings |
| `Processor.StatusMessagesDistinct` | processor/processor.go:139-141 | two different non-200 status codes give different error messages for the same URL, whatever the bodies |
| `Reconcile.ParseDirective` | processor/processor.go:50-59 | the annotation is well formed iff it holds exactly one `=`; then key, `=` and url concatenate back to the value, and neither piece holds `=` |
| `Reconcile.ParseDirectiveOfJoin` | controller/controller.go:41-47 | the split is unique: any `=`-free key and url are recovered from `key=url` |
| `Reconcile.EmptyPiecesAccepted` | processor/processor.go:50-59 | `=url` and `key=` are accepted, with an empty key or an empty url |
| `Reconcile.Requests` | processor/processor.go:78 | a decision is reached with at most one HTTP request |
| `Urls.WithDefaultScheme` | processor/processor.go:68-70 | the URL to fetch always has a scheme: one already present is kept, an empty one becomes `https`, and nothing else changes |
| `Kube.WithData` | processor/processor.go:86-92 | setting the key adds exactly that key with the fetched value, keeps every other key and value, turns a nil data map into the singleton map, and changes nothing but `data` |
| `Kube.Store.Update` | processor/processor.go:94 | an accepted update replaces the stored ConfigMap under its namespace and name; a refused one changes nothing and returns the store's error; events are untouched |
| `Kube.Store.CreateEvent` | processor/processor.go:124-127 | an accepted event is appended in the given namespace; a refused one changes nothing and returns the store's error |
| `Http.HttpClient.Do` | processor/processor.go:134 | one request is recorded and answered with the remote side's response for that URL |
| `Processor.Curl` | processor/processor.go:131-151 | the error text is empty exactly when the response has status 200 and a readable body; the value is then the body verbatim, and otherwise empty; a transport error gives `failed to curl <url>, got error: <err>`, a missing body `empty response body from <url>`, a read error `failed to read response body: <err>` |
| `Processor.CurlStatusBeforeBody` | processor/processor.go:139-141 | a status other than 200 is reported with that status, whatever the body; the status is checked before the body |
| `Processor.CurlStatus500` | processor/processor_test.go:153-166 | a 500 response gives `failed to curl <url>, got status code: 500` |
| `Processor.Decide` | processor/processor.go:42-92 | an absent annotation key means no-op; every failure message is non-empty, so a failure is never mistaken for success |
| `Processor.MalformedAnnotationFails` | processor/processor.go:50-56 | the call fails with `annotation value '<raw>' does not match expected format key=url` and no request, iff the value does not hold exactly one `=` |
| `Processor.NotCorrectIsReported` | acceptance_test/acceptance_test.go:103-115 | the value `not correct` is rejected with the format message |
| `Processor.InvalidUrlFails` | processor/processor.go:60-66 | a URL piece the library cannot parse fails with `invalid url provided: <raw>`, with no request, whether or not the data key is set |
| `Processor.PresentKeySkips` | processor/processor.go:72-76 | a parseable directive whose key is already in `data` is a no-op, whatever the remote side would answer |
| `Processor.FetchUsesDefaultScheme` | processor/processor.go:68-84 | with the key unset, exactly one request goes to the parsed URL with an empty scheme made `https`; the call writes iff that fetch succeeded, and otherwise fails with `curl`'s message |
| `Processor.WriteAddsOnlyTheKey` | processor/processor.go:86-92 | a write comes from a well-formed directive whose key was unset and a successful fetch; the new data is the old data (nil read as empty) plus key ↦ body, and nothing else changes |
| `Processor.ReprocessIsNoOp` | processor/processor.go:72-76 | reconciling the ConfigMap a successful call wrote is a no-op, whatever the remote side answers then |
| `Processor.ConfigMapProcessor.ProcessResource` | processor/processor.go:42-105 | requests made, error returned, stored ConfigMaps and events are exactly what `Decide` and the store's answer imply: the store changes only on an accepted update; a refused update returns `failed to update configmap: <err>`; every error appends one error event with the same message unless creating it is refused |
| `Processor.ConfigMapProcessor.AddEventLogAndError` | processor/processor.go:107-129 | files one event (kind `ConfigMap`, the record's namespace, name and uid, reason `-`, type `error`, component `config-map-controller`) carrying the message, and returns the message; a refused event is not reported |
| `Processor.ConfigMapProcessor.constructor` | processor/processor.go:28-34 | the processor keeps the clientset, HTTP client and annotation key it is given |
| `Controller.Curl` | controller/controller.go:74-94 | there is no error exactly when the response has status 200 and a readable body; the value is then the body verbatim; an error comes with an empty value and reads `failed to curl <url>, got error: <err>`, `failed to curl <url>, got status code: <code>`, `empty response body from <url>` or `failed to read response body: <err>` by case |
| `Controller.Decide` | controller/controller.go:34-65 | an absent annotation key means no-op; a failure always comes from a request and carries a non-empty message |
| `Controller.MalformedAnnotationSkips` | controller/controller.go:41-44 | a value without exactly one `=` is a silent no-op: no request, no write, no error |
| `Controller.PresentKeySkips` | controller/controller.go:49-52 | a directive whose key is already in `data` is a no-op with no request |
| `Controller.FetchesUrlVerbatim` | controller/controller.go:46-57 | with the key unset, exactly one request goes to the URL piece as written; the call writes iff the fetch succeeded, and otherwise returns `curl`'s error unchanged |
| `Controller.WriteAddsOnlyTheKey` | controller/controller.go:59-65 | a write requested the URL piece and follows a fetch with status 200 and a readable body; the new data is the old data (nil read as empty) plus key ↦ body, and nothing else changes |
| `Controller.ReprocessIsNoOp` | controller/controller.go:49-52 | reconciling the ConfigMap a successful call wrote is a no-op |
| `Controller.ConfigMapController.ProcessItem` | controller/controller.go:34-72 | requests made, error returned and stored ConfigMaps are exactly what `Decide` and the store's answer imply; a refused update still returns no error; no events are filed |
| `Controller.ConfigMapController.constructor` | controller/controller.go:20-26 | the controller keeps the clientset, HTTP client and annotation key it is given |
| `Versions.CurlVersionsAgree` | controller/controller.go:74-94 | the two `curl` functions return the same value, succeed together, and fail with the same text |
| `Versions.VersionsAgreeOnExplicitUrls` | processor/processor.go:60-78 | when the URL piece parses to a URL that has a scheme and renders back to the same text, both versions reach the same decision |
| `Versions.MalformedAnnotationDiverges` | controller/controller.go:41-44 | on a value without exactly one `=`, the processor fails with the format message and the controller skips |

The caller's ConfigMap is never changed. Both Go functions work on `cm.DeepCopy()`
(`processor/processor.go:43`, `controller/controller.go:35`). In the model a `ConfigMap` is a
value, so a call cannot change the caller's copy.

## Left out

- The watch, queue and worker loop is not part of this model. `controller/controller.go:14-18`
  declares no informer or queue fields, even though `controller/export_test.go:8-18` refers to
  them. The loop's concern is concurrency.
- HTTP transport (`http.NewRequest`, `httpClient.Do`, `ioutil.ReadAll`) is network I/O. The
  remote side is a function from URL to `FetchOutcome`. A URL that `http.NewRequest` rejects is
  not distinguished; it gets whatever outcome that function gives it. The Go code discards the
  `http.NewRequest` error (`controller/controller.go:75-77`, `processor/processor.go:132-134`) and
  would pass a nil request to `Do`, which a standard `http.Client` answers with a panic rather than
  an error. The model instead records the URL as requested and answers from the response function.
  This matters mainly for the controller, which fetches the URL piece without parsing it first.
- `url.Parse` and `URL.String` belong to Go's library. They are inputs (`UrlLibrary`). The model
  keeps only that parsing may fail and that an empty scheme becomes `https`.
- Kubernetes clientset calls are modelled by the in-memory `Store`. An update is refused when a
  configured fault is set, or when the ConfigMap is not stored. That second case uses the API
  server's not-found text, `configmaps "<name>" not found`. Conflicts and other server-side
  refusals are covered only by the configured fault. Event creation is refused only by its fault.
  Nothing else changes the store during a call: the update's answer is the one the store would
  give before the fetch. `processor/processor_test.go:222-230` deletes the ConfigMap from inside
  the fetch stub; the model reaches that outcome only with a store that lacks the ConfigMap from
  the start, and does not model a store changed concurrently with the call.
- Event name suffix and timestamp (`uuid.New`, `metav1.Now`) are nondeterministic. They are
  passed in as `EventNonce`.
- Logging (`log/log.go` and the `log.Debug` and `log.Error` calls) only writes output.
- `main.go` (flag parsing, process exit) and the generated test doubles in
  `controller/fakes/` are not modelled.
- `processor.New` builds its own `http.Client`. In the model the HTTP client is always passed
  in, the way the tests inject one.
