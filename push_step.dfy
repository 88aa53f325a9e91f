/** The docker push step (`DockerPushStep` in docker/docker.go): the fields its
    set-up methods update, the tag policy, and the per-tag tag/push/verify
    driver. The docker engine is a pair of caller-supplied functions. */
module PushStep {
  import opened Wrappers
  import opened Text
  import opened Registry
  import opened PushStatus

  // ---------------------------------------------------------------------------
  // Tag policy.

  const LatestTag: string := "latest"

  /** `fmt.Sprintf("%s-%s", GitBranch, GitCommit)`. */
  function GitTag(branch: string, commit: string): string
  {
    branch + "-" + commit
  }

  /** The tags a push publishes: the configured ones verbatim, otherwise
      `latest`, plus a branch-and-commit tag for the built-in registry. */
  function TagPolicy(configured: seq<string>, builtInPush: bool, branch: string, commit: string): (r: seq<string>)
    ensures |r| > 0
    ensures configured != [] ==> r == configured
    ensures configured == [] && !builtInPush ==> r == [LatestTag]
    ensures configured == [] && builtInPush ==> r == [LatestTag, GitTag(branch, commit)]
  {
    if |configured| == 0 && !builtInPush then [LatestTag]
    else if |configured| == 0 && builtInPush then [LatestTag, GitTag(branch, commit)]
    else configured
  }

  /** The defaults of the tag policy on two concrete cases. */
  lemma TagPolicyDefaults()
    ensures TagPolicy([], true, "main", "abc123") == ["latest", "main-abc123"]
    ensures TagPolicy([], false, "main", "abc123") == ["latest"]
  {
    assert GitTag("main", "abc123") == "main-abc123";
  }

  /** Applying the policy to its own result changes nothing. */
  lemma TagPolicyIdempotent(configured: seq<string>, builtInPush: bool, branch: string, commit: string)
    ensures var tags := TagPolicy(configured, builtInPush, branch, commit);
      TagPolicy(tags, builtInPush, branch, commit) == tags
  {
  }

  // ---------------------------------------------------------------------------
  // Port normalisation (`configure`).

  /** A port spec is trimmed and given `/tcp` when it names no protocol. */
  function NormalizePort(port: string): (r: string)
    ensures '/' in r
    ensures IsTrimmed(r)
    ensures '/' !in TrimSpace(port) ==> r == TrimSpace(port) + "/tcp"
    ensures '/' in TrimSpace(port) ==> r == TrimSpace(port)
  {
    var p := TrimSpace(port);
    if '/' !in p then
      assert IsTrimmed(p + "/tcp") by {
        if p != [] { assert (p + "/tcp")[0] == p[0]; }
      }
      p + "/tcp"
    else p
  }

  /** Normalising a normalised port changes nothing. */
  lemma NormalizePortIdempotent(port: string)
    ensures NormalizePort(NormalizePort(port)) == NormalizePort(port)
  {
    TrimSpaceOfTrimmed(NormalizePort(port));
  }

  /** A port that names its protocol keeps it. */
  lemma NormalizePortKeepsProtocol(port: string)
    requires IsTrimmed(port) && '/' in port
    ensures NormalizePort(port) == port
  {
    TrimSpaceOfTrimmed(port);
  }

  /** The normalised ports of a list, one more part at a time. */
  function PortSet(parts: seq<string>): set<string>
  {
    set p | p in parts :: NormalizePort(p)
  }

  lemma PortSetSnoc(parts: seq<string>, part: string)
    ensures PortSet(parts + [part]) == PortSet(parts) + {NormalizePort(part)}
  {
    assert part in parts + [part];
    assert forall p | p in parts :: p in parts + [part];
  }

  // ---------------------------------------------------------------------------
  // The engine, as the driver sees it.

  /** `docker.TagImageOptions` with the image being tagged. */
  datatype TagRequest = TagRequest(image: string, repo: string, tag: string, force: bool)

  /** `docker.PushImageOptions`: name and tag. */
  datatype PushRequest = PushRequest(name: string, tag: string)

  /** A push call either fails outright or returns its raw JSON status output,
      read as decoder steps. */
  datatype PushReply = PushFailed(message: string) | PushStreamed(output: seq<StreamItem>)

  /** `TagImage` returns an error or nothing; `PushImage` a reply. */
  datatype Engine = Engine(tagImage: TagRequest -> Option<string>, pushImage: PushRequest -> PushReply)

  /** The error one tag ends with, or `None` when it went through: tagging
      fails, or (unless local) the push call fails, reports an error record, or
      is never confirmed. */
  function TagOutcome(engine: Engine, image: string, repository: string, force: bool, local: bool, tag: string): (r: Option<string>)
  {
    match engine.tagImage(TagRequest(image, repository, tag, force))
    case Some(e) => Some(e)
    case None =>
      if local then None
      else match engine.pushImage(PushRequest(repository, tag))
        case PushFailed(e) => Some(e)
        case PushStreamed(output) =>
          match VerdictOf(DecodedPrefix(output), tag)
          case Confirmed => None
          case Rejected(m) => Some(m)
          case Unconfirmed => Some(NoPushConfirmationInStatus)
  }

  /** A tagging error is the tag's error; in local mode it is the only one. */
  lemma TagOutcomeOfTagging(engine: Engine, image: string, repository: string, force: bool, local: bool, tag: string)
    ensures var tagErr := engine.tagImage(TagRequest(image, repository, tag, force));
      var r := TagOutcome(engine, image, repository, force, local, tag);
      && (tagErr.Some? ==> r == tagErr)
      && (local ==> r == tagErr)
  {
  }

  /** A non-local tag goes through exactly when tagging and the push call
      succeed and the decoded status confirms the tag without error. */
  lemma TagOutcomeSucceedsIff(engine: Engine, image: string, repository: string, force: bool, tag: string)
    ensures TagOutcome(engine, image, repository, force, false, tag).None? <==>
      && engine.tagImage(TagRequest(image, repository, tag, force)).None?
      && engine.pushImage(PushRequest(repository, tag)).PushStreamed?
      && VerdictOf(DecodedPrefix(engine.pushImage(PushRequest(repository, tag)).output), tag) == Confirmed
  {
  }

  class PushStep {
    var repository: string
    var tags: seq<string>
    var builtInPush: bool
    var ports: set<string>
    const pipeline: PipelineOptions
    const gitBranch: string
    const gitCommit: string
    const local: bool
    const cleanupImage: bool
    const forceTags: bool

    constructor (pipeline: PipelineOptions, gitBranch: string, gitCommit: string,
                 local: bool, cleanupImage: bool, forceTags: bool,
                 repository: string, tags: seq<string>)
      ensures this.pipeline == pipeline && this.gitBranch == gitBranch && this.gitCommit == gitCommit
      ensures this.local == local && this.cleanupImage == cleanupImage && this.forceTags == forceTags
      ensures this.repository == repository && this.tags == tags
      ensures !builtInPush && ports == {}
    {
      this.pipeline := pipeline;
      this.gitBranch := gitBranch;
      this.gitCommit := gitCommit;
      this.local := local;
      this.cleanupImage := cleanupImage;
      this.forceTags := forceTags;
      this.repository := repository;
      this.tags := tags;
      builtInPush := false;
      ports := {};
    }

    /** The port loop of `configure`: every part normalised into a set. */
    method ConfigurePorts(parts: seq<string>)
      modifies this`ports
      ensures ports == PortSet(parts)
    {
      var portmap: set<string> := {};
      for i := 0 to |parts|
        invariant portmap == PortSet(parts[..i])
      {
        assert parts[..i + 1] == parts[..i] + [parts[i]];
        var port := TrimSpace(parts[i]);
        if '/' !in port {
          port := port + "/tcp";
        }
        assert port == NormalizePort(parts[i]);
        PortSetSnoc(parts[..i], parts[i]);
        portmap := portmap + {port};
      }
      assert parts[..|parts|] == parts;
      ports := portmap;
    }

    /** The registry part of `buildAutherOpts`: unless a cloud secret is given,
        infer repository and registry (a failure is the source's panic); then
        switch to the built-in credentials when the registry is the runner's own. */
    method BuildAutherOpts(opts: AutherOpts, domainOf: string -> Option<string>, parseUrl: string -> Result<string>)
      returns (r: Result<AutherOpts>)
      requires InfersIdentity(opts) ==> CanInfer(repository, domainOf)
      modifies this`repository, this`builtInPush
      ensures var inferred := if InfersIdentity(opts)
          then InferRegistryAndRepository(old(repository), opts.registry, pipeline, domainOf, parseUrl)
          else Success(Identity(old(repository), opts.registry));
        && (inferred.Failure? ==>
              r == Failure(inferred.error) && repository == old(repository) && builtInPush == old(builtInPush))
        && (inferred.Success? ==>
              && repository == inferred.value.repository
              && r.Success?
              && r.value.registry == inferred.value.registry
              && r.value.awsSecretKey == opts.awsSecretKey
              && r.value.azureClientSecret == opts.azureClientSecret
              && builtInPush == (old(builtInPush) || IsBuiltInRegistry(inferred.value.registry, pipeline))
              && (IsBuiltInRegistry(inferred.value.registry, pipeline) ==>
                    r.value.username == DefaultDockerRegistryUsername && r.value.password == pipeline.authToken)
              && (!IsBuiltInRegistry(inferred.value.registry, pipeline) ==>
                    r.value.username == opts.username && r.value.password == opts.password))
    {
      var o := opts;
      if o.azureClientSecret == "" && o.awsSecretKey == "" {
        var inferred := InferRegistryAndRepository(repository, o.registry, pipeline, domainOf, parseUrl);
        if inferred.Failure? {
          return Failure(inferred.error);
        }
        repository := inferred.value.repository;
        o := o.(registry := inferred.value.registry);
      }
      if o.registry == pipeline.registryUrl {
        o := o.(username := DefaultDockerRegistryUsername, password := pipeline.authToken);
        builtInPush := true;
      }
      return Success(o);
    }

    /** `buildTags`: apply the tag policy to the configured tags. */
    method BuildTags() returns (r: seq<string>)
      modifies this`tags
      ensures tags == TagPolicy(old(tags), builtInPush, gitBranch, gitCommit)
      ensures r == tags && |r| > 0
    {
      if |tags| == 0 && !builtInPush {
        tags := [LatestTag];
      } else if |tags| == 0 && builtInPush {
        tags := [LatestTag, GitTag(gitBranch, gitCommit)];
      }
      return tags;
    }

    /** One iteration of `tagAndPush`'s loop: tag the image, then (unless local)
        push it and classify the decoded status output. Returns the tag's error,
        if any, and whether tagging succeeded. */
    method PushTag(image: string, engine: Engine, tag: string) returns (failure: Option<string>, taggedOk: bool)
      ensures failure == TagOutcome(engine, image, repository, forceTags, local, tag)
      ensures taggedOk == engine.tagImage(TagRequest(image, repository, tag, forceTags)).None?
      ensures failure.None? ==> taggedOk
    {
      failure := engine.tagImage(TagRequest(image, repository, tag, forceTags));
      taggedOk := failure.None?;
      if failure.Some? || local {
        return;
      }
      var reply := engine.pushImage(PushRequest(repository, tag));
      if reply.PushFailed? {
        return Some(reply.message), taggedOk;
      }
      var statusMessages := DecodeStatuses(reply.output);
      var verdict := ClassifyStatuses(statusMessages, tag);
      match verdict
      case Rejected(m) =>
        failure := Some(m);
      case Unconfirmed =>
        failure := Some(NoPushConfirmationInStatus);
      case Confirmed =>
    }

    /** `tagAndPush`: tag, push and verify each tag in order, stopping at the
        first failure. Returns the exit code and error, and records the tags
        tagged, the tags pushed and the images scheduled for removal. */
    method TagAndPush(image: string, engine: Engine)
      returns (code: int, err: Option<string>, tagged: seq<string>, pushed: seq<string>, cleanups: seq<string>)
      ensures code == 0 || code == 1
      ensures code == 0 <==>
        forall j | 0 <= j < |tags| :: TagOutcome(engine, image, repository, forceTags, local, tags[j]).None?
      ensures code == 0 ==> err.None? && tagged == tags
      ensures code == 1 ==>
        && 0 < |tagged| <= |tags|
        && tagged == tags[..|tagged|]
        && (forall j | 0 <= j < |tagged| - 1 :: TagOutcome(engine, image, repository, forceTags, local, tags[j]).None?)
        && err.Some?
        && err == TagOutcome(engine, image, repository, forceTags, local, tagged[|tagged| - 1])
      ensures var reached :=
          if code == 1 && engine.tagImage(TagRequest(image, repository, tagged[|tagged| - 1], forceTags)).Some?
          then tagged[..|tagged| - 1] else tagged;
        && pushed == (if local then [] else reached)
        && cleanups == (if cleanupImage then reached else [])
    {
      tagged, pushed, cleanups := [], [], [];
      for i := 0 to |tags|
        invariant tagged == tags[..i]
        invariant forall j | 0 <= j < i :: TagOutcome(engine, image, repository, forceTags, local, tags[j]).None?
        invariant pushed == if local then [] else tagged
        invariant cleanups == if cleanupImage then tagged else []
      {
        var tag := tags[i];
        assert tags[..i + 1] == tags[..i] + [tag];
        var failure, taggedOk := PushTag(image, engine, tag);
        tagged := tagged + [tag];
        if taggedOk && cleanupImage {
          cleanups := cleanups + [tag];
        }
        if taggedOk && !local {
          pushed := pushed + [tag];
        }
        if failure.Some? {
          assert tagged[|tagged| - 1] == tags[i];
          assert !TagOutcome(engine, image, repository, forceTags, local, tags[i]).None?;
          return 1, failure, tagged, pushed, cleanups;
        }
      }
      assert tags[..|tags|] == tags;
      return 0, None, tagged, pushed, cleanups;
    }
  }
}
