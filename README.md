# Helm OCI registry getter, modelled in Dafny

This project models the getter that lets Helm download charts from an OCI
registry through its generic "get by URL" interface
(`internal/experimental/registry/getter.go`). The model covers three parts:

- **Tag and version reconciliation** (`GetWithDetails`). The final element
  of the URL path is split on `:`.
  - With no `:` and no version, the call fails with "no version or tag provided".
  - With exactly one `:` (the URL carries a tag), the path is left unchanged and the version argument is ignored.
  - Otherwise `":" + version` is appended to the caller's `URL.Path` in place. With two or more colons this happens even when the version is empty.
- **The archive name** (`filename`). It is the final path element up to its first `:`, then `-`, the version and `.tgz`.
- **The fetch pipeline** (`Get`), in order: parse the URL, build a registry reference from host + path, pull, load, and write the chart into a fresh buffer. The first stage that fails ends the pipeline with a nil buffer and that stage's error. Once the chart is loaded, the buffer is returned together with whatever error writing produced. `GetWithDetails` runs `Get` on the rewritten URL, loads the archive back, and names it after the version in the archive's own metadata.

Files:

- `wrappers.dfy`: `Option` (nil or a value) and `Result` (a value or an error).
- `strings.dfy`: the module `Strings`, Go's `strings.Split` for a one-character separator, and `strings.Join`. The split is proved to be the unique separator-free decomposition of a string. It has one more part than the string has separators.
- `filepath.dfy`: the module `FilePath`, Go's `filepath.Base` with Unix semantics. Trailing slashes are stripped, the text after the last `/` is kept, `""` gives `"."`, and a path made only of slashes gives `"/"`.
- `registry.dfy`: the module `Registry`. It holds the URL, buffer, client and getter classes, plus the pure specifications `Reconcile`, `Filename`, `Fetch` and `WithDetails` and the lemmas about them.
  - The class `Url` is the `*url.URL` whose `Path` GetWithDetails rewrites (line 93). `Url.Fields` is the view of it that `url.URL.String` prints.
  - `TagParts` is the expression `strings.Split(filepath.Base(u.Path), ":")` of lines 86 and 109. `Colons` counts the colons in that final element, so `|TagParts| == Colons + 1`.

Collaborators of the source are parameters of the model:

- `url.Parse`, `(*url.URL).String`, `ParseReference`, `chartutil.Write` and `loader.LoadArchive` are the arrows of a `Library` value held by the getter.
- The client's `PullChart` and `LoadChart` answer from the arrows of a `Remote`. They also append each call to a log (`Client.calls`), so the order of stages and the point where a failure stops them can be observed.
- `Getter.Get` and `Getter.GetWithDetails` are imperative methods. They rewrite `Url.path` in place and allocate a `Buffer`. Their postconditions tie the new state and the results to the pure functions `Fetch` and `WithDetails`, and the properties are proved about those functions.

Four behaviours of the code that are easy to misread:

- The final path element is split on every `:`. The version is appended whenever the element does not split into exactly two parts, so names with several colons are not rejected (`Reconcile`).
- Trailing slashes are ignored when the tag is looked for but kept when the version is appended: `/charts/mychart/` with `1.0` becomes `/charts/mychart/:1.0`, and the archive is named `-1.0.tgz` (`TrailingSlashEdge`).
- A write error after a successful load comes back from `Get` together with the buffer. `GetWithDetails` then drops that buffer (`Fetch`, `FetchStages`, `DetailsWriteFailure`).
- The caller's `URL.Path` is assigned in place; no new URL value is built (`Getter.GetWithDetails`).

## Model

| member | source | states |
|---|---|---|
| `Strings.Split` | internal/experimental/registry/getter.go:86 | `strings.Split` on `:` gives one more part than the string has colons (so exactly one part when there is none, and one empty part for `""`) |
| `Strings.SplitPartsFree` | internal/experimental/registry/getter.go:86 | no part of a split contains the separator |
| `Strings.JoinSplit` | internal/experimental/registry/getter.go:86 | joining the parts with the separator gives back the string |
| `Strings.SplitJoin` | internal/experimental/registry/getter.go:86 | splitting a join of separator-free parts gives back those parts, so the split is the unique such decomposition |
| `Strings.SplitPair` | internal/experimental/registry/getter.go:92 | `name:tag` with colon-free halves splits into exactly `[name, tag]` |
| `Strings.SplitOnePart` | internal/experimental/registry/getter.go:88 | a split has one part if and only if the string holds no separator |
| `Strings.FirstIndexOf` | internal/experimental/registry/getter.go:109-111 | the position of the first `:` (or the length): nothing before it is a colon, and the character at it is one |
| `Strings.SplitFirst` | internal/experimental/registry/getter.go:109-111 | the first part `parts[0]` is the text before the first separator |
| `Strings.FirstIndexOfAppend` | internal/experimental/registry/getter.go:109-111 | appending text does not move an existing first colon |
| `Strings.FirstIndexOfAfter` | internal/experimental/registry/getter.go:109-111 | with no colon in the front part, the first colon is found in the appended text |
| `FilePath.TrimTrailingSlashes` | internal/experimental/registry/getter.go:86 | the result is a prefix of the path, does not end in `/`, and only slashes were removed |
| `FilePath.LastElement` | internal/experimental/registry/getter.go:86 | the longest slash-free suffix: a suffix, slash-free, and preceded by `/` or the whole text |
| `FilePath.Base` | internal/experimental/registry/getter.go:86 | `filepath.Base` is never empty, is `"."` for `""`, holds a `/` only when it is `"/"`, and is `"/"` exactly for non-empty all-slash paths |
| `FilePath.BaseOfName` | internal/experimental/registry/getter.go:86 | a non-empty slash-free name is its own base |
| `FilePath.BaseOfChild` | internal/experimental/registry/getter.go:86 | the base of `dir/name` is `name` |
| `FilePath.BaseAppend` | internal/experimental/registry/getter.go:93 | appending slash-free text to a path that does not end in `/` appends it to the base too |
| `Registry.Reconcile` | internal/experimental/registry/getter.go:86-94 | the decision table: an error ("no version or tag provided") if and only if the final element has no colon and the version is empty; one colon keeps the path whatever the version; otherwise `path + ":" + version`, even for an empty version when there are two or more colons |
| `Registry.ReconcileAddsTag` | internal/experimental/registry/getter.go:86-94 | a tagless `dir/name` with a plain version becomes `dir/name:version`, whose final element splits into `[name, version]`; reconciling it again with any version leaves it unchanged |
| `Registry.TaggedBase` | internal/experimental/registry/getter.go:93 | the final element of the rewritten path is the old final element, `:` and the version |
| `Registry.Filename` | internal/experimental/registry/getter.go:108-112 | the name is the final path element up to its first `:`, then `-`, the version and `.tgz`; it is a function of the path and the version alone |
| `Registry.FilenameDropsTag` | internal/experimental/registry/getter.go:108-111 | a `:tag` appended to the path never reaches the file name |
| `Registry.BeforeColonAppend` | internal/experimental/registry/getter.go:109-111 | text starting with `:` does not change what comes before the first colon |
| `Registry.FilenameOfChart` | internal/experimental/registry/getter.go:108-111 | `dir/name` and `dir/name:tag` both give `name-version.tgz` |
| `Registry.FilenameHasNoColon` | internal/experimental/registry/getter.go:108-111 | with a colon-free version the file name holds no colon, so no tag part |
| `Registry.FilenameExample` | internal/experimental/registry/getter.go:108-111 | `/charts/mychart:v1.2.3` with `v1.2.3` gives `mychart-v1.2.3.tgz` |
| `Registry.TrailingSlashEdge` | internal/experimental/registry/getter.go:86-93 | `/charts/mychart/` counts as untagged, the trailing slash is ignored for the check but not for the rewrite, so the path becomes `/charts/mychart/:1.0` |
| `Registry.FilenameOfBareTag` | internal/experimental/registry/getter.go:108-111 | a final element that starts with `:` gives a file name with an empty chart name, `-version.tgz` |
| `Registry.Fetch` | internal/experimental/registry/getter.go:50-83 | Get's outcome: no buffer only with an error; the client calls are none, a pull, or a pull then a load of the same reference; a load happens only after a successful pull; a buffer means a successful load, whose chart was written, and the write's error is returned with the buffer |
| `Registry.FetchStages` | internal/experimental/registry/getter.go:50-83 | each stage's failure returns a nil buffer and that stage's error unchanged and makes no later call; after a load the buffer is returned even when writing fails |
| `Registry.FetchPullsHostAndPath` | internal/experimental/registry/getter.go:57-64 | the reference pulled is the one ParseReference builds from exactly the parsed URL's host + path |
| `Registry.LoadOnlyAfterPull` | internal/experimental/registry/getter.go:63-75 | LoadChart is called only on the reference just pulled, and only once that pull succeeded |
| `Registry.WithDetails` | internal/experimental/registry/getter.go:85-106 | GetWithDetails' outcome: the reconcile error stops it before any call, path unchanged; otherwise the path is the reconciled one and the calls are exactly those of `Fetch` on the printed URL; any failed Get, a write failure included, gives an empty response with Get's own error; otherwise the content is Get's buffer, named from the version in the loaded archive's metadata, with the loader's error; it requires only that the one fetched buffer loads (`LoadsFetched`), the case in which the source does not panic |
| `Registry.DetailsMissingVersion` | internal/experimental/registry/getter.go:86-90 | no tag and an empty version: error "no version or tag provided", no client call, path unchanged, empty response |
| `Registry.DetailsIgnoreVersionWhenTagged` | internal/experimental/registry/getter.go:92-94 | when the URL carries a tag the whole outcome is the same for every version argument, and the path is unchanged |
| `Registry.DetailsPullHostAndPath` | internal/experimental/registry/getter.go:92-96 | when the rewritten URL prints and parses back unchanged, the reference pulled is built from the host and the reconciled path |
| `Registry.DetailsPullFailure` | internal/experimental/registry/getter.go:96-99 | a failed pull gives an empty response with the pull's error, after exactly one client call |
| `Registry.DetailsWriteFailure` | internal/experimental/registry/getter.go:96-99 | when writing the loaded chart fails (Get returns the buffer with the error, line 82), that buffer is dropped: empty response, the write error, after a pull and a load |
| `Registry.TaggedChartPath` | internal/experimental/registry/getter.go:86 | the final element of `dir/name:tag` has exactly one colon |
| `Registry.DetailsTaggedUrl` | internal/experimental/registry/getter.go:85-105 | for `dir/name:tag` the path is kept, host + path is resolved, and the archive is named `name-<metadata version>.tgz` whatever the tag and the version argument |
| `Registry.DetailsUntaggedUrl` | internal/experimental/registry/getter.go:85-105 | for `dir/name` with a version the path becomes `dir/name:version`, host + that path is resolved, and the archive is named `name-<metadata version>.tgz` |
| `Registry.Client.PullChart` | internal/experimental/registry/getter.go:64 | records the pull in the call log and returns the registry's answer for that reference |
| `Registry.Client.LoadChart` | internal/experimental/registry/getter.go:71 | records the load in the call log and returns the registry's answer for that reference |
| `Registry.Buffer.constructor` | internal/experimental/registry/getter.go:77 | `bytes.NewBuffer(nil)` starts empty |
| `Registry.Buffer.Write` | internal/experimental/registry/getter.go:80 | writing appends the bytes to the buffer |
| `Registry.Getter.constructor` | internal/experimental/registry/getter.go:37-39 | the getter keeps the client it is given |
| `Registry.Getter.Get` | internal/experimental/registry/getter.go:50-83 | Get's error, buffer (nil or fresh, with its contents) and appended client calls are those of `Fetch` |
| `Registry.Getter.GetWithDetails` | internal/experimental/registry/getter.go:85-106 | the caller's URL gets the reconciled path in place and no other field changes; response, error and client calls are those of `WithDetails` |

## Left out

- `NewRegistryGetterProvider` (lines 41-48): it only registers the getter for the OCI scheme.
- The `getter.Option` arguments: this file passes them along and never reads them.
- `url.Parse` and `(*url.URL).String` are left abstract. Lemmas that follow a rewritten URL into `Get` assume that printing that one URL and parsing it back gives the same fields (`PrintsBack`). Go's `net/url` does not guarantee this for every URL; for example, a path without a leading `/` comes back with one.
- Only the scheme, host, path and raw query of a `url.URL` are modelled. `RawPath`, `User`, `Fragment` and the other fields are abstracted into the printing function.
- `ParseReference`, `Client.PullChart`, `Client.LoadChart`, `chartutil.Write` and `loader.LoadArchive` are defined in other files and do network, storage or archive work. They are uninterpreted functions of their inputs: a pull or load always gives the same answer for the same reference, and the client's local content store is not modelled.
- `Getter.GetWithDetails` and `WithDetails` require that `loader.LoadArchive` returns a chart for the one buffer that `Get` returned without error on the rewritten URL (`LoadsFetched`). The source reads `ch.Metadata.Version` without checking the loader's error (lines 101-104), so when that load fails a nil chart is dereferenced and the program panics. That panic path is not modelled.
- Go strings are bytes and Dafny strings are characters. Only `:` and `/` are ever looked for, and in UTF-8 those bytes never occur inside a multi-byte character, so splitting and base-name results agree.
- `Strings.Split` models only a one-character separator, the only kind this file uses.

