/** Reconciliation pipelines: their steps and their validation. */
module Pipelines {
  import opened Results
  import opened Identifiers
  import opened Bindings
  import Catalog

  datatype HealthCheck =
    | Tcp(addressParses: bool, port: nat)   // whether the address is an IP literal is decided by the standard library
    | Http(url: string, expectedStatus: nat)
    | Systemd(unit: string)
    | ProviderCheck(provider: string, operation: string)

  datatype Action =
    | EnsurePackage(package: string)
    | EnsureRepository(repositoryId: string)
    | EnsureArtifact(artifactId: string)
    | EnsureUser(user: string)
    | EnsureGroup(group: string)
    | EnsureDirectory(path: string, mode: nat)
    | WriteManagedFile(path: string, sha256: string, mode: nat)
    | EnsureSymlink(path: string, target: string)
    | ServiceAction(unit: string)
    | ProviderAction(provider: string, operation: string, parameters: Catalog.Configuration)
    | CheckHealth(check: HealthCheck)
    | RecordOutput(resource: ResourceRef, name: string, value: Catalog.Value, sensitive: bool)
    | CommitState

  datatype Step = Step(id: string, summary: string, action: Action)

  datatype Pipeline = Pipeline(id: string, target: ResourceRef, summary: string, steps: seq<Step>)

  datatype PipelineError = InvalidId | EmptySummary | EmptySteps | DuplicateStep | InvalidAction | CommitNotLast

  predicate IsToken(s: string, max: nat) {
    && 0 < |s| <= max
    && forall i :: 0 <= i < |s| ==> IsAlphanumeric(s[i]) || s[i] in "+-._:"
  }

  predicate IsUnit(s: string) {
    IsToken(s, 255) && EndsWith(s, ".service")
  }

  predicate IsHex(s: string) {
    forall i :: 0 <= i < |s| ==> IsDigit(s[i]) || 'a' <= s[i] <= 'f' || 'A' <= s[i] <= 'F'
  }

  const MAX_MODE := 4095   // 0o7777

  predicate ValidHealthCheck(check: HealthCheck) {
    match check
    case Tcp(parses, port) => parses && port != 0
    case Http(url, status) => (StartsWith(url, "http://") || StartsWith(url, "https://")) && 100 <= status <= 599
    case Systemd(unit) => IsUnit(unit)
    case ProviderCheck(provider, operation) => IsResourceId(provider) && IsResourceId(operation)
  }

  predicate ValidAction(action: Action) {
    match action
    case EnsurePackage(package) => IsToken(package, 128)
    case EnsureRepository(id) => IsResourceId(id)
    case EnsureArtifact(id) => IsResourceId(id)
    case EnsureUser(user) => IsToken(user, 32)
    case EnsureGroup(group) => IsToken(group, 32)
    case EnsureDirectory(path, mode) => IsSafePath(path) && mode <= MAX_MODE
    case WriteManagedFile(path, sha256, mode) => IsSafePath(path) && |sha256| == 64 && IsHex(sha256) && mode <= MAX_MODE
    case EnsureSymlink(path, target) => IsSafePath(path) && IsSafePath(target)
    case ServiceAction(unit) => IsUnit(unit)
    case ProviderAction(provider, operation, _) => IsResourceId(provider) && IsResourceId(operation)
    case CheckHealth(check) => ValidHealthCheck(check)
    case RecordOutput(resource, name, value, sensitive) =>
      && IsResourceId(resource.id) && IsResourceId(name)
      && (sensitive ==> value.Text? && StartsWith(value.text, "secret://"))
    case CommitState => true
  }

  predicate ValidStep(step: Step) {
    IsResourceId(step.id) && !IsBlank(step.summary) && ValidAction(step.action)
  }

  predicate DistinctSteps(steps: seq<Step>) {
    forall i, j :: 0 <= i < j < |steps| ==> steps[i].id != steps[j].id
  }

  /** The last step commits state, and no other does. */
  predicate CommitsLast(steps: seq<Step>) {
    |steps| > 0 && forall i :: 0 <= i < |steps| ==> (steps[i].action.CommitState? <==> i == |steps| - 1)
  }

  predicate ValidPipeline(p: Pipeline) {
    && IsResourceId(p.id) && IsResourceId(p.target.id) && !IsBlank(p.summary)
    && (forall i :: 0 <= i < |p.steps| ==> ValidStep(p.steps[i]))
    && DistinctSteps(p.steps) && CommitsLast(p.steps)
  }

  /** `Pipeline::validate` */
  method Validate(p: Pipeline) returns (r: Outcome<PipelineError>)
    ensures r.Pass? <==> ValidPipeline(p)
  {
    if !IsResourceId(p.id) || !IsResourceId(p.target.id) {
      return Fail(InvalidId);
    }
    if IsBlank(p.summary) {
      return Fail(EmptySummary);
    }
    if p.steps == [] {
      return Fail(EmptySteps);
    }
    var ids: set<string> := {};
    for i := 0 to |p.steps|
      invariant ids == set k | 0 <= k < i :: p.steps[k].id
      invariant forall k :: 0 <= k < i ==> ValidStep(p.steps[k])
      invariant forall j, k :: 0 <= j < k < i ==> p.steps[j].id != p.steps[k].id
      invariant forall k :: 0 <= k < i && p.steps[k].action.CommitState? ==> k == |p.steps| - 1
    {
      var step := p.steps[i];
      if !IsResourceId(step.id) {
        return Fail(InvalidId);
      }
      if step.id in ids {
        return Fail(DuplicateStep);
      }
      ids := ids + {step.id};
      if IsBlank(step.summary) {
        return Fail(EmptySummary);
      }
      if !ValidAction(step.action) {
        return Fail(InvalidAction);
      }
      if step.action.CommitState? && i + 1 != |p.steps| {
        return Fail(CommitNotLast);
      }
    }
    r := if p.steps[|p.steps| - 1].action.CommitState? then Pass else Fail(CommitNotLast);
  }

  // ----- what a valid step can carry -----

  function PathsOf(action: Action): set<string> {
    match action
    case EnsureDirectory(path, _) => {path}
    case WriteManagedFile(path, _, _) => {path}
    case EnsureSymlink(path, target) => {path, target}
    case _ => {}
  }

  function NamesOf(action: Action): set<string> {
    match action
    case EnsurePackage(package) => {package}
    case EnsureRepository(id) => {id}
    case EnsureArtifact(id) => {id}
    case EnsureUser(user) => {user}
    case EnsureGroup(group) => {group}
    case ServiceAction(unit) => {unit}
    case ProviderAction(provider, operation, _) => {provider, operation}
    case CheckHealth(Systemd(unit)) => {unit}
    case CheckHealth(ProviderCheck(provider, operation)) => {provider, operation}
    case RecordOutput(resource, name, _, _) => {resource.id, name}
    case _ => {}
  }

  /** Neither white space nor a control character, a slash, a quote, a backslash or a character of the shell. */
  predicate IsTame(s: string) {
    && s != ""
    && forall i :: 0 <= i < |s| ==> !IsWhitespace(s[i]) && !IsControl(s[i]) && s[i] !in "/\\\"'$`|&;<>()*?[]{}!#~%="
  }

  /**
   No step of a valid pipeline carries a relative path, a path with a control character, a name with a character
   that a shell or a unit file treats specially, or the value of a sensitive output.
   */
  lemma ValidStepsAreTame(p: Pipeline, i: nat)
    requires ValidPipeline(p) && i < |p.steps|
    ensures var action := p.steps[i].action;
      && (forall path :: path in PathsOf(action) ==> path != "" && path[0] == '/' && NoControl(path))
      && (forall name :: name in NamesOf(action) ==> IsTame(name))
      && (action.RecordOutput? && action.sensitive ==> action.value.Text? && "secret://" <= action.value.text)
    ensures IsTame(p.steps[i].id) && IsTame(p.id) && IsTame(p.target.id)
  {
    IdsAreTame();
    TokensAreTame();
    assert ValidStep(p.steps[i]);
    hide IsTame, IsResourceId, IsToken;
  }

  lemma IdsAreTame()
    ensures forall s :: IsResourceId(s) ==> IsTame(s)
  {
  }

  lemma TokensAreTame()
    ensures forall s, max :: IsToken(s, max) ==> IsTame(s)
  {
  }
}
