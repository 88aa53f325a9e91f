# Docker push decision logic of the wercker pipeline runner

This project models in Dafny the decision logic of the `docker-push` and
`docker-scratch-push` steps of the wercker CI runner (docker/docker.go). Those
steps publish a pipeline's container, or a scratch image built from a collected
tarball, to a container registry. The model covers five parts:

- **Registry/repository inference** (`Registry`). `InferRegistryAndRepository`
  reconciles a possibly-empty repository and a possibly-empty registry into a
  (repository, registry) pair, or fails. The tail of `buildAutherOpts` then
  decides whether the push goes to the runner's built-in registry, and if so
  switches to its token credentials.
- **Tag policy** (`PushStep.TagPolicy`, `PushStep.PushStep.BuildTags`). The
  configured tags are used as they are. With none configured, the tags are
  `latest`, plus `{branch}-{commit}` for the built-in registry.
- **Scratch layer entry filter** (`ScratchLayer`). Copies the artifact tarball
  into the image layer. It drops `./`, strips one `output/` or `source/` root,
  and drops names left empty. A read error aborts the copy.
- **Repositories index** (`RepositoriesIndex`). Writes
  `{"repo":{"t1":"L",...}}` with commas only between entries. A small reader of
  that format is the writer's partner for a round-trip proof.
- **Push status and the tag-and-push driver** (`PushStatus`,
  `PushStep.PushStep.TagAndPush`). Each tag is tagged, pushed, and its decoded
  status records are classified. The driver stops at the first failure.
  `local` mode tags but does not push.

The step object is a class, `PushStep.PushStep`. Its fields are the ones the
source's methods update: `repository`, `tags`, `builtInPush` and `ports`. The
pure decisions are functions with lemmas. The loops in the source (the tar copy,
the index writer, the status decoder and classifier, the port loop and the tag
loop) are methods with loop invariants, each proved against a specification
function.

The library and engine calls are parameters:
- `reference.ParseNormalizedNamed` with `reference.Domain` is
  `domainOf: string -> Option<string>`. It returns `None` for a name that does
  not parse, `"docker.io"` for a name without a domain, and the domain
  otherwise.
- `url.Parse(...).Host` is `parseUrl: string -> Result<string>`.
- The engine's `TagImage` and `PushImage` are the two functions of an `Engine`
  value. `PushImage` yields either a failure or its raw JSON output, given as a
  sequence of decoder steps: a decoded `PushStatus` record, or a decode error.

Not every resolved repository is lower-cased. Two parts are used as given: the
registry host prefixed at docker/docker.go:773, and the default
`{host}/{owner}/{app}` repository at docker/docker.go:735.
`Registry.ConfiguredRepositoryIsLowerCased` states what the code guarantees.
An explicit registry is ignored entirely when the repository is empty
(docker/docker.go:734-740).

## Model

| member | source | states |
|---|---|---|
| `Registry.InferRegistryAndRepository` | docker/docker.go:732-782 | The function fails only when the repository is non-empty and the registry URL does not parse. On success with a configured repository, the result ends with that repository lower-cased. |
| `Registry.EmptyRepositoryUsesBuiltInRegistry` | docker/docker.go:734-740 | An empty repository always yields `{host}/{owner}/{app}` and the built-in registry URL, with no error, whatever registry was given. |
| `Registry.BlankRegistryFollowsRepositoryDomain` | docker/docker.go:741-780 | With a blank registry, the result is the lower-cased repository. The registry is `https://{domain}/v2/`, or `""` when the domain is `docker.io`. |
| `Registry.FailsOnlyForUnparsableRegistryOnHub` | docker/docker.go:752-763 | The result is an error if and only if: the repository is non-empty, the registry is not blank, the registry does not parse as a URL, and the repository's domain is `docker.io`. The error is the URL parser's. |
| `Registry.UnparsableRegistryFallsBackToDomain` | docker/docker.go:753-758 | An unparsable registry, with a repository on a domain other than the hub, is replaced by `https://{domain}/v2/` without error. |
| `Registry.ParsedRegistryCases` | docker/docker.go:764-777 | When the registry parses there are three cases. A different non-hub domain replaces the registry. The same domain changes nothing. A hub repository is prefixed with the registry host, and the registry is kept. |
| `Registry.ConfiguredRepositoryIsLowerCased` | docker/docker.go:741-775 | A configured repository comes out lower-cased. At most the registry URL's host is prefixed to it. |
| `PushStep.PushStep.BuildAutherOpts` | docker/docker.go:692-709 | Inference runs only when neither the Azure nor the AWS secret is set. An inference failure is returned (the source panics). Otherwise the repository and registry are the inferred ones. `builtInPush` becomes true, and the credentials become `"token"` and the auth token, exactly when the registry is the built-in registry URL. Other credentials are untouched. |
| `PushStep.TagPolicy` | docker/docker.go:878-886 | The result is never empty. Configured tags come back verbatim, in order, with duplicates. Without configured tags, the result is `["latest"]`, or `["latest", "{branch}-{commit}"]` for a built-in push. |
| `PushStep.TagPolicyDefaults` | docker/docker.go:878-886 | No tags with a built-in push, branch `main` and commit `abc123`, gives `["latest", "main-abc123"]`. Without a built-in push it gives `["latest"]`. |
| `PushStep.TagPolicyIdempotent` | docker/docker.go:878-886 | Applying the policy to its own result changes nothing. |
| `PushStep.PushStep.BuildTags` | docker/docker.go:878-886 | `tags` becomes the policy's result for the old tags. The returned list is that value and is non-empty, so `s.tags[0]` is safe. |
| `PushStep.NormalizePort` | docker/docker.go:545-550 | The port is trimmed of white space. It gets `/tcp` appended exactly when the trimmed text contains no `/`; otherwise it is kept as trimmed. So the result always contains `/` and has no surrounding white space. |
| `PushStep.NormalizePortIdempotent` | docker/docker.go:545-550 | Normalising a normalised port changes nothing. |
| `PushStep.NormalizePortKeepsProtocol` | docker/docker.go:547-549 | A trimmed port that names a protocol is kept unchanged. |
| `PushStep.PushStep.ConfigurePorts` | docker/docker.go:541-553 | `ports` becomes the set of the normalised parts. |
| `PushStep.TagOutcomeOfTagging` | docker/docker.go:900-905 | A tagging error is the tag's error. In local mode it is the only possible error. |
| `PushStep.TagOutcomeSucceedsIff` | docker/docker.go:919-963 | A non-local tag goes through exactly when three things hold: tagging succeeds, the push call succeeds, and the decoded status confirms the tag with no error record. |
| `PushStep.PushStep.PushTag` | docker/docker.go:895-963 | One iteration of the tag loop returns exactly the tag's outcome, and whether tagging succeeded. |
| `PushStep.PushStep.TagAndPush` | docker/docker.go:888-968 | Tags are processed strictly in order. The exit code is 0 exactly when every tag goes through; then every tag was tagged. Otherwise the code is 1 and the tags tagged are a prefix of the list ending at the first failing tag, so later tags are never touched. The error is that tag's error. Pushes happen only outside local mode. Cleanups are scheduled only when configured, and only for tags whose tagging succeeded. |
| `PushStatus.DecodedPrefixIsLongestDecodedRun` | docker/docker.go:930-941 | The records kept are those of the longest run of decodable items at the head of the output. |
| `PushStatus.DecodeStatuses` | docker/docker.go:930-941 | The decoding loop keeps exactly the records before the first decode error. |
| `PushStatus.ClassifyStatuses` | docker/docker.go:942-963 | The classification loop returns the verdict: the first error record rejects; otherwise the tag is confirmed or unconfirmed. |
| `PushStatus.ErrorAnywhereRejects` | docker/docker.go:943-951 | The first record with a non-blank error fails the push, even after a confirmation. Its message is `Code: c, Message: m` when error detail is present, else the raw error. |
| `PushStatus.ConfirmedIff` | docker/docker.go:942-963 | A tag is confirmed if and only if no record has an error and some record's `aux.tag` equals the tag. |
| `PushStatus.UnconfirmedIff` | docker/docker.go:960-963 | The verdict is "no confirmation" if and only if no record has an error and none acknowledges the tag. |
| `PushStatus.OtherTagDoesNotConfirm` | docker/docker.go:952 | Records that acknowledge only a different tag never confirm this one. |
| `PushStatus.UndecodableTruncates` | docker/docker.go:932-940 | A decode error cuts the record list at that point; nothing after it is seen. |
| `PushStatus.ConfirmationSurvivesDecodeError` | docker/docker.go:936-939 | A decode error after a confirming prefix does not fail the push. |
| `ScratchLayer.LayerName` | docker/docker.go:209-222 | A kept entry's name is never empty. |
| `ScratchLayer.SkippedNames` | docker/docker.go:209-222 | An entry is skipped if and only if its name is `./`, `""`, `output/` or `source/`. |
| `ScratchLayer.KeptNameStripsOneRoot` | docker/docker.go:214-218 | A kept name loses at most one root prefix. `output/` takes precedence over `source/`. |
| `ScratchLayer.CopyLayer` | docker/docker.go:198-229 | The tar loop computes the layer's entries, or the first read error. |
| `ScratchLayer.CopyLayerOutcome` | docker/docker.go:198-207 | The copy fails if and only if some read fails, with the first failing read's message. On success the layer is the filtered entries. |
| `ScratchLayer.LayerEntriesAppend` | docker/docker.go:198-229 | The filter works entry by entry: the layer of two concatenated streams is the two layers concatenated, in order. |
| `ScratchLayer.LayerEntryOrigin` | docker/docker.go:214-224 | Every layer entry is an input entry with its header and body unchanged, under its kept name. |
| `ScratchLayer.KeptEntryAppears` | docker/docker.go:209-225 | Every input entry with a kept name appears in the layer under that name. |
| `RepositoriesIndex.WriteRepositories` | docker/docker.go:327-347 | The writer loop produces exactly `{"R":{"t1":"L",...,"tn":"L"}}`, with a comma after every entry but the last. |
| `RepositoriesIndex.JoinEntriesSnoc` | docker/docker.go:334-345 | Appending a tag appends a comma and its entry; there is no comma before the first entry. |
| `RepositoriesIndex.IndexRoundTrip` | docker/docker.go:327-347 | Reading the index back gives the repository and every tag, in order, each mapped to the one layer id. This holds whenever none of these strings contains a quote. |
| `Text.TrimSpaceEmptyIffBlank` | docker/docker.go:752 | `len(strings.TrimSpace(s)) == 0` holds exactly for strings made only of white space. |
| `Text.ToLower` | docker/docker.go:742 | The result has the same length and no upper-case ASCII letter left. Each upper-case ASCII letter is replaced by its lower-case letter, and every other character is unchanged. |

## Left out

- Engine and registry transport are not modelled: the Docker endpoint check, client construction, `CommitContainer`, `LoadImage`, `PushImage` transport, and `RemoveImage`/`cleanupImage`. In the driver, tagging and pushing are caller-supplied functions.
- The step entry points `DockerPushStep.Execute` and `DockerScratchPushStep.Execute` are not modelled as a whole. This includes the access check, commit-or-reuse, scratch-directory handling, `util.TarPath`, loading, and the extra deferred cleanup of the first tag on the commit path. Only the decision pieces inside them are modelled.
- `CollectArtifact` is not modelled: it calls the artifact collector and retries with the source directory on an empty tarball.
- Concurrency is not modelled: the `io.Pipe`, the `EmitStatus` goroutine, the `io.MultiWriter` fan-out and the five-minute inactivity timeout.
- Randomness and hashing are not modelled: `GenerateDockerID`, the uuid step ids, the SHA-256 layer digest and the layer id. The layer id is an input of the index writer.
- Binary and library formats are not modelled: the tar byte layout, `image.Image.MarshalJSON` with the image config, and JSON decoding. Tar entries and status records are taken as already decoded.
- The file system, the clock, logging and event emission are not modelled.
- `configure` and `buildAutherOpts` are modelled only in part: the port loop and the registry/built-in tail. Environment interpolation, `shlex.Split`, `util.SplitSpaceOrComma`, `dockerauth.NormalizeRegistry` and the copying of the other optional fields are not modelled. The port parts and the registry arrive already split and normalised.
- `authenticator.Repository`, which canonicalises the repository written into the index, is not modelled. `WriteRepositories` receives the repository as written.
- `Text.ToLower`: lower-cases ASCII letters only; Go's `strings.ToLower` also folds non-ASCII letters.
- `Registry.RegistryUrlFor`: does not model the escaping `url.URL.String()` would apply to unusual characters in a host.
- `Registry.InferRegistryAndRepository`: requires the lower-cased repository to parse as a reference. The source discards that parse error and would then dereference a nil name.
- `PushStep.PushStep.TagAndPush`: `cleanups` lists the deferred image removals in the order they are scheduled. Go runs them in reverse order when the function returns. Their own failures are only logged and are not modelled.
- `PushStep.PushStep.TagAndPush`: the engine answers every identical request identically. `tagImage` and `pushImage` are functions of the request alone, so a tag listed twice gets the same results both times, and no reply can depend on what earlier calls did to the engine or the registry. The source calls `TagImage` and `PushImage` once per list element, against a stateful daemon.
- `PushStep.PushStep.BuildAutherOpts`: an inference failure is returned as `Failure`. The source logs it with `Panic` (docker/docker.go:696-698), which aborts the step, so nothing after that point is modelled for the failing case.
- `PushStep.PushStep.TagAndPush`: the credentials passed to `PushImage` (authenticator username and password, email) are not part of the push request here.
- `RepositoriesIndex.IndexRoundTrip`: covers only strings without `"`. The writer does no escaping, so a quote or backslash in a tag, the repository or the layer id produces an index that is not valid JSON (RFC 8259, section 7).
- Sizes and progress counters (`int64` in the source) are unbounded integers; nothing in the model depends on their width.
