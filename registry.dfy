/** Registry and repository inference for the docker push steps
    (`InferRegistryAndRepository` in docker/docker.go).

    Two library calls are parameters:
    - `domainOf` stands for `reference.ParseNormalizedNamed` followed by
      `reference.Domain`: `None` when the name does not parse, otherwise the
      name's domain, `"docker.io"` when it has none;
    - `parseUrl` stands for `url.Parse` followed by `.Host`: the URL's host,
      or the parse error. */
module Registry {
  import opened Wrappers
  import opened Text

  /** The public hub's domain, which the reference grammar reports for names without one. */
  const DockerHub: string := "docker.io"

  /** The parts of the pipeline options inference reads. `registryHost` and
      `registryUrl` are `WerckerContainerRegistry.Host` and
      `WerckerContainerRegistry.String()`. */
  datatype PipelineOptions = PipelineOptions(
    registryHost: string,
    registryUrl: string,
    ownerName: string,
    appName: string,
    authToken: string)

  /** The inferred pair. */
  datatype Identity = Identity(repository: string, registry: string)

  /** `(&url.URL{Scheme: "https", Host: domain, Path: "/v2"}).String() + "/"`. */
  function RegistryUrlFor(domain: string): (r: string)
    ensures "https://" <= r && |r| > |"https://"|
  {
    "https://" + domain + "/v2/"
  }

  /** The repository the built-in registry gets when none is configured. */
  function DefaultRepository(p: PipelineOptions): string
  {
    p.registryHost + "/" + p.ownerName + "/" + p.appName
  }

  /** The registry derived from the repository's own domain, or "" for the hub. */
  function RegistryFromDomain(domain: string): (r: string)
    ensures r == "" <==> domain == DockerHub
  {
    if domain != DockerHub then RegistryUrlFor(domain) else ""
  }

  /** A non-empty repository must be a name the reference grammar accepts: the
      source discards the parse error and would dereference the nil result. */
  predicate CanInfer(repository: string, domainOf: string -> Option<string>)
  {
    repository != "" ==> domainOf(ToLower(repository)).Some?
  }

  function InferRegistryAndRepository(
    repository: string, registry: string, p: PipelineOptions,
    domainOf: string -> Option<string>, parseUrl: string -> Result<string>): (r: Result<Identity>)
    requires CanInfer(repository, domainOf)
    ensures r.Failure? ==> repository != "" && parseUrl(registry).Failure?
    ensures r.Success? && repository != "" ==>
      |repository| <= |r.value.repository|
      && r.value.repository[|r.value.repository| - |repository|..] == ToLower(repository)
  {
    if repository == "" then
      Success(Identity(DefaultRepository(p), p.registryUrl))
    else
      var repo := ToLower(repository);
      var domain := domainOf(repo).value;
      var fromRepository := RegistryFromDomain(domain);
      if |TrimSpace(registry)| != 0 then
        match parseUrl(registry)
        case Failure(e) =>
          if fromRepository != "" then Success(Identity(repo, fromRepository))
          else Failure(e)
        case Success(host) =>
          if |TrimSpace(domain)| != 0 && domain != DockerHub then
            if host != domain then Success(Identity(repo, fromRepository))
            else Success(Identity(repo, registry))
          else
            Success(Identity(host + "/" + repo, registry))
      else
        Success(Identity(repo, fromRepository))
  }

  // ---------------------------------------------------------------------------
  // The cases of the function's doc comment, one lemma each.

  /** Case 1: no repository means the built-in registry and the application's own
      repository there, whatever registry was configured. */
  lemma EmptyRepositoryUsesBuiltInRegistry(
    registry: string, p: PipelineOptions,
    domainOf: string -> Option<string>, parseUrl: string -> Result<string>)
    ensures InferRegistryAndRepository("", registry, p, domainOf, parseUrl)
      == Success(Identity(p.registryHost + "/" + p.ownerName + "/" + p.appName, p.registryUrl))
  {
  }

  /** Case 2: a repository without a registry keeps its (lower-cased) name and
      takes the registry from its domain, or none for the hub. */
  lemma BlankRegistryFollowsRepositoryDomain(
    repository: string, registry: string, p: PipelineOptions,
    domainOf: string -> Option<string>, parseUrl: string -> Result<string>)
    requires repository != "" && CanInfer(repository, domainOf)
    requires IsBlank(registry)
    ensures var domain := domainOf(ToLower(repository)).value;
      InferRegistryAndRepository(repository, registry, p, domainOf, parseUrl)
      == Success(Identity(ToLower(repository), if domain == DockerHub then "" else "https://" + domain + "/v2/"))
  {
    TrimSpaceEmptyIffBlank(registry);
  }

  /** The only failure: an explicit registry that does not parse, with a
      repository on the hub, so that nothing can stand in for the registry. The
      error is the URL parser's. */
  lemma FailsOnlyForUnparsableRegistryOnHub(
    repository: string, registry: string, p: PipelineOptions,
    domainOf: string -> Option<string>, parseUrl: string -> Result<string>)
    requires CanInfer(repository, domainOf)
    ensures var r := InferRegistryAndRepository(repository, registry, p, domainOf, parseUrl);
      r.Failure? <==>
        (repository != "" && !IsBlank(registry) && parseUrl(registry).Failure?
         && domainOf(ToLower(repository)).value == DockerHub)
    ensures var r := InferRegistryAndRepository(repository, registry, p, domainOf, parseUrl);
      r.Failure? ==> r == Failure(parseUrl(registry).error)
  {
    TrimSpaceEmptyIffBlank(registry);
  }

  /** Case 3(a): an unparsable registry is replaced by the one the repository's
      domain names, when it names one. */
  lemma UnparsableRegistryFallsBackToDomain(
    repository: string, registry: string, p: PipelineOptions,
    domainOf: string -> Option<string>, parseUrl: string -> Result<string>)
    requires repository != "" && CanInfer(repository, domainOf)
    requires !IsBlank(registry) && parseUrl(registry).Failure?
    requires domainOf(ToLower(repository)).value != DockerHub
    ensures var domain := domainOf(ToLower(repository)).value;
      InferRegistryAndRepository(repository, registry, p, domainOf, parseUrl)
      == Success(Identity(ToLower(repository), "https://" + domain + "/v2/"))
  {
    TrimSpaceEmptyIffBlank(registry);
  }

  /** Cases 3(b) and 3(c): a registry that parses. A repository on another
      registry's domain overrides the registry; on the same domain nothing
      changes; a repository on the hub is moved under the registry's host. */
  lemma ParsedRegistryCases(
    repository: string, registry: string, p: PipelineOptions,
    domainOf: string -> Option<string>, parseUrl: string -> Result<string>)
    requires repository != "" && CanInfer(repository, domainOf)
    requires !IsBlank(registry) && parseUrl(registry).Success?
    requires !IsBlank(domainOf(ToLower(repository)).value)
    ensures var domain, host := domainOf(ToLower(repository)).value, parseUrl(registry).value;
      var r := InferRegistryAndRepository(repository, registry, p, domainOf, parseUrl);
      && (domain != DockerHub && domain != host ==>
            r == Success(Identity(ToLower(repository), "https://" + domain + "/v2/")))
      && (domain != DockerHub && domain == host ==>
            r == Success(Identity(ToLower(repository), registry)))
      && (domain == DockerHub ==>
            r == Success(Identity(host + "/" + ToLower(repository), registry)))
  {
    TrimSpaceEmptyIffBlank(registry);
    TrimSpaceEmptyIffBlank(domainOf(ToLower(repository)).value);
  }

  /** A configured repository comes out lower-cased; the only thing that can
      precede it is a host taken from the registry URL, which is not lower-cased. */
  lemma ConfiguredRepositoryIsLowerCased(
    repository: string, registry: string, p: PipelineOptions,
    domainOf: string -> Option<string>, parseUrl: string -> Result<string>)
    requires repository != "" && CanInfer(repository, domainOf)
    ensures var r := InferRegistryAndRepository(repository, registry, p, domainOf, parseUrl);
      r.Success? ==>
        || r.value.repository == ToLower(repository)
        || (parseUrl(registry).Success?
            && r.value.repository == parseUrl(registry).value + "/" + ToLower(repository))
    ensures IsLowerCase(ToLower(repository))
  {
  }

  // ---------------------------------------------------------------------------
  // The built-in registry (the tail of `buildAutherOpts`).

  const DefaultDockerRegistryUsername: string := "token"

  /** The credentials and registry handed to the registry authenticator. */
  datatype AutherOpts = AutherOpts(
    username: string,
    password: string,
    registry: string,
    awsSecretKey: string,
    azureClientSecret: string)

  /** Inference is skipped for the cloud registries that authenticate with secrets. */
  predicate InfersIdentity(opts: AutherOpts)
  {
    opts.azureClientSecret == "" && opts.awsSecretKey == ""
  }

  /** The push is a built-in push when the registry is the runner's own. */
  predicate IsBuiltInRegistry(registry: string, p: PipelineOptions)
  {
    registry == p.registryUrl
  }
}
