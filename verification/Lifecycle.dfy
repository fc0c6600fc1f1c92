/** Desired state of generic PHP applications and the pipelines planned for it. */
module Lifecycle {
  import opened Results
  import opened Identifiers
  import opened Text
  import opened Bindings
  import opened Packages
  import opened Pipelines
  import Catalog
  import UnitFiles

  // ----- desired state -----

  datatype Operation = Install | Reconcile | Update | Remove

  datatype Repository = Repository(url: string, branch: string, credential: Option<string>)

  datatype Database = Database(
    serviceId: string, role: string, database: Option<string>, user: Option<string>, secret: Option<string>)

  datatype ProcessKind = Worker | Scheduled

  datatype Timing = CalendarTiming(expression: string) | IntervalTiming(seconds: nat)

  datatype Schedule = Schedule(timing: Timing, jitter: nat)

  datatype Probe = Probe(command: seq<string>, interval: nat, timeout: nat)

  datatype Process = Process(
    name: string,
    kind: ProcessKind,
    command: seq<string>,
    schedule: Option<Schedule>,
    environment: map<string, string>,
    directory: Option<string>,
    probe: Option<Probe>)

  datatype HealthSpec = HealthSpec(enabled: bool, path: string, port: nat, statusMin: nat, statusMax: nat, timeout: nat)

  datatype Spec = Spec(
    id: string,
    domain: string,
    wwwAlias: bool,
    root: string,
    phpVersion: string,
    repository: Option<Repository>,
    components: seq<string>,
    databases: seq<Database>,
    packages: seq<string>,
    tls: bool,
    processes: seq<Process>,
    health: HealthSpec)

  datatype SpecError =
    | InvalidId | InvalidDomain | InvalidRoot | InvalidRepository | InvalidVersion | InvalidComponent
    | InvalidPackage | InvalidDatabase | InvalidProcess | InvalidHealth | MissingRepository

  // ----- validation of one part -----

  predicate HasNoneOf(s: string, chars: string) {
    forall i :: 0 <= i < |s| ==> s[i] !in chars
  }

  predicate Includes(s: string, part: string) {
    exists i :: 0 <= i <= |s| && part <= s[i..]
  }

  predicate IsDomain(s: string) {
    ByteLength(s) <= 253 && Contains(s, '.') && forall i :: 0 <= i < |Split(s, '.')| ==> IsSlug(Split(s, '.')[i])
  }

  predicate IsRoot(s: string) {
    IsSafePath(s) && ".." !in Split(s, '/')
  }

  predicate IsRepositoryUrl(s: string) {
    && (StartsWith(s, "https://") || StartsWith(s, "ssh://") || StartsWith(s, "git@") || StartsWith(s, "file://"))
    && !Contains(s, '\n')
    && (StartsWith(s, "https://") ==> !Contains(Split(s[8..], '/')[0], '@'))
  }

  predicate IsBranch(s: string) {
    && s != "" && ByteLength(s) <= 255
    && s[0] != '-' && s[0] != '/' && s[|s| - 1] != '/'
    && !Includes(s, "..") && !Includes(s, "@{")
    && NoControl(s) && HasNoneOf(s, " ~^:?*[\\")
  }

  predicate IsRepository(r: Repository) {
    && IsRepositoryUrl(r.url) && IsBranch(r.branch)
    && (r.credential.Some? ==> StartsWith(r.credential.value, "secret://"))
  }

  predicate IsCommand(command: seq<string>) {
    command != [] && forall i :: 0 <= i < |command| ==>
      command[i] != "" && HasNoneOf(command[i], "\0\n\r") && ByteLength(command[i]) <= 4096
  }

  predicate IsProcessEnvironment(environment: map<string, string>) {
    forall key :: key in environment ==>
      && 0 < |key| <= 128 && !IsDigit(key[0])
      && (forall i :: 0 <= i < |key| ==> IsUpper(key[i]) || IsDigit(key[i]) || key[i] == '_')
      && ByteLength(environment[key]) <= 16 * 1024 && HasNoneOf(environment[key], "\0\n\r")
  }

  predicate IsSchedule(s: Schedule) {
    && (s.timing.CalendarTiming? ==>
          s.timing.expression != "" && ByteLength(s.timing.expression) <= 128
            && HasNoneOf(s.timing.expression, "\n\r\0"))
    && (s.timing.IntervalTiming? ==> s.timing.seconds != 0)
    && s.jitter <= 86_400
  }

  predicate IsProbe(p: Probe) {
    IsCommand(p.command) && 1 <= p.interval <= 86_400 && 1 <= p.timeout <= p.interval
  }

  predicate IsProcess(p: Process) {
    && IsSlug(p.name) && IsCommand(p.command) && IsProcessEnvironment(p.environment)
    && (p.directory.Some? ==>
          p.directory.value != "" && ByteLength(p.directory.value) <= 4096
          && HasNoneOf(p.directory.value, "\n\r\0") && ".." !in Split(p.directory.value, '/'))
    && (p.probe.Some? ==> IsProbe(p.probe.value))
    && (if p.kind.Worker? then p.schedule.None? else p.schedule.Some? && IsSchedule(p.schedule.value))
  }

  predicate IsDatabase(d: Database) {
    && IsResourceId(d.serviceId) && IsSlug(d.role)
    && (d.database.Some? || d.user.Some?)
    && (d.secret.Some? ==> StartsWith(d.secret.value, "secret://"))
  }

  predicate IsHealth(h: HealthSpec) {
    h.enabled ==>
      && StartsWith(h.path, "/") && HasNoneOf(h.path, "\n\r\0") && h.port != 0
      && 100 <= h.statusMin <= 599 && h.statusMin <= h.statusMax <= 599 && h.timeout != 0
  }

  predicate IsComponent(c: string) {
    c in {"curl", "intl", "mbstring", "mysql", "xml", "zip"}
  }

  predicate Distinct(names: seq<string>) {
    forall i, j :: 0 <= i < j < |names| ==> names[i] != names[j]
  }

  function Roles(databases: seq<Database>): seq<string> {
    seq(|databases|, i requires 0 <= i < |databases| => databases[i].role)
  }

  function ProcessNames(processes: seq<Process>): seq<string> {
    seq(|processes|, i requires 0 <= i < |processes| => processes[i].name)
  }

  predicate ValidComponents(components: seq<string>) {
    (forall i :: 0 <= i < |components| ==> IsComponent(components[i])) && Distinct(components)
  }

  predicate ValidPackages(packages: seq<string>) {
    (forall i :: 0 <= i < |packages| ==> IsTrusted(packages[i])) && Distinct(packages)
  }

  predicate ValidDatabases(databases: seq<Database>) {
    (forall i :: 0 <= i < |databases| ==> IsDatabase(databases[i])) && Distinct(Roles(databases))
  }

  predicate ValidProcesses(processes: seq<Process>) {
    (forall i :: 0 <= i < |processes| ==> IsProcess(processes[i])) && Distinct(ProcessNames(processes))
  }

  predicate ValidSpec(spec: Spec) {
    && IsSlug(spec.id) && IsDomain(spec.domain) && IsRoot(spec.root)
    && (spec.repository.Some? ==> IsRepository(spec.repository.value))
    && spec.phpVersion in {"8.1", "8.2", "8.3", "8.4"}
    && ValidComponents(spec.components) && ValidPackages(spec.packages)
    && ValidDatabases(spec.databases) && ValidProcesses(spec.processes)
    && IsHealth(spec.health)
  }

  // ----- the validators with their sets of names seen -----

  /** `validate_unique_tokens` */
  method CheckComponents(components: seq<string>) returns (ok: bool)
    ensures ok <==> ValidComponents(components)
  {
    var seen: set<string> := {};
    for i := 0 to |components|
      invariant seen == set k | 0 <= k < i :: components[k]
      invariant ValidComponents(components[..i])
    {
      if !IsComponent(components[i]) || components[i] in seen {
        return false;
      }
      seen := seen + {components[i]};
    }
    assert components[..|components|] == components;
    ok := true;
  }

  /** `validate_packages`: all names are reviewed before duplicates are looked for. */
  method CheckPackages(packages: seq<string>) returns (ok: bool)
    ensures ok <==> ValidPackages(packages)
  {
    if exists i :: 0 <= i < |packages| && !IsTrusted(packages[i]) {
      return false;
    }
    var seen: set<string> := {};
    for i := 0 to |packages|
      invariant seen == set k | 0 <= k < i :: packages[k]
      invariant Distinct(packages[..i])
    {
      if packages[i] in seen {
        return false;
      }
      seen := seen + {packages[i]};
    }
    assert packages[..|packages|] == packages;
    ok := true;
  }

  method CheckDatabases(databases: seq<Database>) returns (ok: bool)
    ensures ok <==> ValidDatabases(databases)
  {
    hide IsDatabase;
    var roles: set<string> := {};
    for i := 0 to |databases|
      invariant roles == set k | 0 <= k < i :: databases[k].role
      invariant forall k :: 0 <= k < i ==> IsDatabase(databases[k])
      invariant forall j, k :: 0 <= j < k < i ==> databases[j].role != databases[k].role
    {
      if !IsDatabase(databases[i]) {
        return false;
      }
      if databases[i].role in roles {
        ghost var k :| 0 <= k < i && databases[k].role == databases[i].role;
        assert Roles(databases)[k] == Roles(databases)[i];
        return false;
      }
      roles := roles + {databases[i].role};
    }
    ok := true;
  }

  method CheckProcesses(processes: seq<Process>) returns (ok: bool)
    ensures ok <==> ValidProcesses(processes)
  {
    hide IsProcess;
    var names: set<string> := {};
    for i := 0 to |processes|
      invariant names == set k | 0 <= k < i :: processes[k].name
      invariant forall k :: 0 <= k < i ==> IsProcess(processes[k])
      invariant forall j, k :: 0 <= j < k < i ==> processes[j].name != processes[k].name
    {
      if !IsProcess(processes[i]) {
        return false;
      }
      if processes[i].name in names {
        ghost var k :| 0 <= k < i && processes[k].name == processes[i].name;
        assert ProcessNames(processes)[k] == ProcessNames(processes)[i];
        return false;
      }
      names := names + {processes[i].name};
    }
    ok := true;
  }

  /** `GenericPhpApplicationSpec::validate` */
  method Validate(spec: Spec) returns (r: Outcome<SpecError>)
    ensures r.Pass? <==> ValidSpec(spec)
  {
    hide IsSlug, IsDomain, IsRoot, IsRepository, ValidComponents, ValidPackages, ValidDatabases, ValidProcesses,
      IsHealth;
    if !IsSlug(spec.id) {
      return Fail(SpecError.InvalidId);
    }
    if !IsDomain(spec.domain) {
      return Fail(InvalidDomain);
    }
    if !IsRoot(spec.root) {
      return Fail(InvalidRoot);
    }
    if spec.repository.Some? && !IsRepository(spec.repository.value) {
      return Fail(InvalidRepository);
    }
    if spec.phpVersion !in {"8.1", "8.2", "8.3", "8.4"} {
      return Fail(InvalidVersion);
    }
    var ok := CheckComponents(spec.components);
    if !ok {
      return Fail(InvalidComponent);
    }
    ok := CheckPackages(spec.packages);
    if !ok {
      return Fail(InvalidPackage);
    }
    ok := CheckDatabases(spec.databases);
    if !ok {
      return Fail(InvalidDatabase);
    }
    ok := CheckProcesses(spec.processes);
    if !ok {
      return Fail(InvalidProcess);
    }
    r := if IsHealth(spec.health) then Pass else Fail(InvalidHealth);
  }

  // ----- steps -----

  function OperationName(operation: Operation): string {
    match operation
    case Install => "install"
    case Reconcile => "reconcile"
    case Update => "update"
    case Remove => "remove"
  }

  function OperationTitle(operation: Operation): string {
    match operation
    case Install => "Install"
    case Reconcile => "Reconcile"
    case Update => "Update"
    case Remove => "Remove"
  }

  function ProviderStep(id: string, summary: string, operation: string, parameters: Catalog.Configuration): Step {
    Step(id, summary, ProviderAction("generic_php_application", operation, parameters))
  }

  function RootStep(spec: Spec): Step {
    Step("root", "Ensure " + "the managed application root", EnsureDirectory(spec.root, 493))   // 0o755
  }

  function PackageStep(package: string): Step {
    Step("package-" + package, "Ensure trusted package " + package, EnsurePackage(package))
  }

  function RepositoryStep(r: Repository): Step {
    ProviderStep("repository", "Configure repository branch " + r.branch, "repository",
      map["url" := Catalog.Text(r.url), "branch" := Catalog.Text(r.branch)])
  }

  function RuntimeStep(spec: Spec): Step {
    ProviderStep("runtime", "Ensure PHP " + spec.phpVersion + " runtime", "runtime",
      map["version" := Catalog.Text(spec.phpVersion)])
  }

  function ComponentStep(component: string, version: string): Step {
    ProviderStep("component-" + component, "Ensure PHP component " + component, "component",
      map["name" := Catalog.Text(component), "version" := Catalog.Text(version)])
  }

  function Optional(name: string, value: Option<string>): Catalog.Configuration {
    if value.Some? then map[name := Catalog.Text(value.value)] else map[]
  }

  function DatabaseParameters(d: Database): Catalog.Configuration {
    map["service_id" := Catalog.Text(d.serviceId), "role" := Catalog.Text(d.role)]
    + Optional("database", d.database) + Optional("user", d.user) + Optional("secret_reference", d.secret)
  }

  function DatabaseStep(d: Database): Step {
    ProviderStep("database-" + d.role, "Bind database role " + d.role, "database_binding", DatabaseParameters(d))
  }

  function WebStep(spec: Spec): Step {
    ProviderStep("web", "Configure owned web host for " + spec.domain, "web_host",
      map["domain" := Catalog.Text(spec.domain), "root" := Catalog.Text(spec.root),
          "www_alias" := Catalog.Boolean(spec.wwwAlias)])
  }

  function KindName(kind: ProcessKind): string {
    if kind.Worker? then "process" else "schedule"
  }

  function ProcessStep(p: Process): Step {
    ProviderStep(KindName(p.kind) + "-" + p.name, "Configure " + KindName(p.kind) + " " + p.name, KindName(p.kind),
      map["name" := Catalog.Text(p.name)])
  }

  function TlsStep(spec: Spec): Step {
    ProviderStep("tls", "Ensure TLS for " + spec.domain, "tls", map["domain" := Catalog.Text(spec.domain)])
  }

  function ReleaseStep(): Step {
    ProviderStep("release", "Deploy " + "the latest configured repository release", "deploy", map[])
  }

  function HealthStep(spec: Spec): Step {
    Step("health", "Verify " + "application health",
      CheckHealth(Http((if spec.tls then "https" else "http") + "://" + spec.domain + spec.health.path,
        spec.health.statusMin)))
  }

  function CommitStep(): Step {
    Step("commit", "Commit " + "application resource state", CommitState)
  }

  function PackageSteps(packages: seq<string>): seq<Step> {
    seq(|packages|, i requires 0 <= i < |packages| => PackageStep(packages[i]))
  }

  function ComponentSteps(spec: Spec): seq<Step> {
    seq(|spec.components|, i requires 0 <= i < |spec.components| => ComponentStep(spec.components[i], spec.phpVersion))
  }

  function DatabaseSteps(databases: seq<Database>): seq<Step> {
    seq(|databases|, i requires 0 <= i < |databases| => DatabaseStep(databases[i]))
  }

  function ProcessSteps(processes: seq<Process>): seq<Step> {
    seq(|processes|, i requires 0 <= i < |processes| => ProcessStep(processes[i]))
  }

  function When(condition: bool, step: Step): seq<Step> {
    if condition then [step] else []
  }

  function RuntimeSteps(spec: Spec): seq<Step> {
    [RootStep(spec)] + PackageSteps(spec.packages)
    + (if spec.repository.Some? then [RepositoryStep(spec.repository.value)] else [])
    + [RuntimeStep(spec)] + ComponentSteps(spec)
  }

  function LastSteps(spec: Spec, operation: Operation): seq<Step> {
    When(spec.tls, TlsStep(spec)) + When(operation.Update?, ReleaseStep()) + When(spec.health.enabled, HealthStep(spec))
  }

  function ReconciliationSteps(spec: Spec, operation: Operation): seq<Step> {
    RuntimeSteps(spec) + DatabaseSteps(spec.databases)
    + [WebStep(spec)] + ProcessSteps(spec.processes) + LastSteps(spec, operation)
  }

  function TlsDetachStep(): Step {
    ProviderStep("tls-detach", "Detach " + "the owned certificate", "tls_detach", map[])
  }

  function RemoveProcessStep(p: Process): Step {
    ProviderStep("remove-" + p.name, "Remove owned units for " + p.name,
      if p.kind.Worker? then "process_remove" else "schedule_remove", map["name" := Catalog.Text(p.name)])
  }

  function UnbindStep(d: Database): Step {
    ProviderStep("unbind-" + d.role, "Detach database role " + d.role, "database_unbind",
      map["role" := Catalog.Text(d.role)])
  }

  function RemoveProcessSteps(processes: seq<Process>): seq<Step> {
    var n := |processes|;
    seq(n, i requires 0 <= i < n => RemoveProcessStep(processes[n - 1 - i]))
  }

  function UnbindSteps(databases: seq<Database>): seq<Step> {
    var n := |databases|;
    seq(n, i requires 0 <= i < n => UnbindStep(databases[n - 1 - i]))
  }

  function WebRemoveStep(): Step {
    ProviderStep("web-remove", "Remove " + "the owned web host", "web_host_remove", map[])
  }

  function RootTrashStep(spec: Spec): Step {
    ProviderStep("root-trash", "Move " + "the application root to recoverable trash", "root_trash",
      map["root" := Catalog.Text(spec.root)])
  }

  function RemovalSteps(spec: Spec): seq<Step> {
    When(spec.tls, TlsDetachStep()) + RemoveProcessSteps(spec.processes) + UnbindSteps(spec.databases)
    + [WebRemoveStep()] + [RootTrashStep(spec)]
  }

  function PlannedSteps(spec: Spec, operation: Operation): seq<Step> {
    (if operation.Remove? then RemovalSteps(spec) else ReconciliationSteps(spec, operation)) + [CommitStep()]
  }

  function PlannedPipeline(spec: Spec, operation: Operation): Pipeline {
    Pipeline("application-" + spec.id + "-" + OperationName(operation), ResourceRef(ResourceKind.Application, spec.id),
      OperationTitle(operation) + " generic PHP application " + spec.id, PlannedSteps(spec, operation))
  }

  // ----- what a plan is for, read off its steps -----

  const PROVIDER := "generic_php_application"

  /** The list has a step of this id with this action. */
  predicate Does(steps: seq<Step>, id: string, action: Action) {
    exists i :: 0 <= i < |steps| && steps[i].id == id && steps[i].action == action
  }

  /** The parameter is there exactly if it has a value, and has that value. */
  predicate Passes(parameters: Catalog.Configuration, name: string, value: Option<string>) {
    (name in parameters <==> value.Some?) && (name in parameters ==> parameters[name] == Catalog.Text(value.value))
  }

  predicate BindsDatabase(d: Database, id: string, parameters: Catalog.Configuration) {
    && id == "database-" + d.role
    && (forall name :: name in parameters ==> name in {"service_id", "role", "database", "user", "secret_reference"})
    && Passes(parameters, "service_id", Some(d.serviceId)) && Passes(parameters, "role", Some(d.role))
    && Passes(parameters, "database", d.database) && Passes(parameters, "user", d.user)
    && Passes(parameters, "secret_reference", d.secret)
  }

  predicate InstallsComponent(component: string, version: string, id: string, parameters: Catalog.Configuration) {
    && id == "component-" + component
    && parameters == map["name" := Catalog.Text(component), "version" := Catalog.Text(version)]
  }

  predicate NamesProcess(p: Process, kind: ProcessKind, prefix: string, id: string, parameters: Catalog.Configuration) {
    p.kind == kind && id == prefix + p.name && parameters == map["name" := Catalog.Text(p.name)]
  }

  /** The repository, the runtime and the components of the specification. */
  predicate InstallsRuntime(spec: Spec, id: string, call: string, parameters: Catalog.Configuration) {
    || (call == "repository" && id == "repository" && spec.repository.Some?
        && parameters == map["url" := Catalog.Text(spec.repository.value.url),
                             "branch" := Catalog.Text(spec.repository.value.branch)])
    || (call == "runtime" && id == "runtime" && parameters == map["version" := Catalog.Text(spec.phpVersion)])
    || (call == "component"
        && exists c :: c in spec.components && InstallsComponent(c, spec.phpVersion, id, parameters))
  }

  /** The databases, the processes and schedules, and the web host. */
  predicate Binds(spec: Spec, id: string, call: string, parameters: Catalog.Configuration) {
    || (call == "database_binding" && exists d :: d in spec.databases && BindsDatabase(d, id, parameters))
    || (call == "web_host" && id == "web"
        && parameters == map["domain" := Catalog.Text(spec.domain), "root" := Catalog.Text(spec.root),
                             "www_alias" := Catalog.Boolean(spec.wwwAlias)])
    || (call == "process" && exists p :: p in spec.processes && NamesProcess(p, Worker, "process-", id, parameters))
    || (call == "schedule"
        && exists p :: p in spec.processes && NamesProcess(p, Scheduled, "schedule-", id, parameters))
  }

  /** The certificate, and the deployment of an update. */
  predicate Serves(spec: Spec, operation: Operation, id: string, call: string, parameters: Catalog.Configuration) {
    || (call == "tls" && id == "tls" && spec.tls && parameters == map["domain" := Catalog.Text(spec.domain)])
    || (call == "deploy" && id == "release" && operation.Update? && parameters == map[])
  }

  predicate RemovesProcess(spec: Spec, id: string, call: string, parameters: Catalog.Configuration) {
    || (call == "process_remove"
        && exists p :: p in spec.processes && NamesProcess(p, Worker, "remove-", id, parameters))
    || (call == "schedule_remove"
        && exists p :: p in spec.processes && NamesProcess(p, Scheduled, "remove-", id, parameters))
  }

  predicate Unbinds(d: Database, id: string, parameters: Catalog.Configuration) {
    id == "unbind-" + d.role && parameters == map["role" := Catalog.Text(d.role)]
  }

  predicate Removes(spec: Spec, id: string, call: string, parameters: Catalog.Configuration) {
    || (call == "tls_detach" && id == "tls-detach" && spec.tls && parameters == map[])
    || RemovesProcess(spec, id, call, parameters)
    || (call == "database_unbind" && exists d :: d in spec.databases && Unbinds(d, id, parameters))
    || (call == "web_host_remove" && id == "web-remove" && parameters == map[])
    || (call == "root_trash" && id == "root-trash" && parameters == map["root" := Catalog.Text(spec.root)])
  }

  /** The steps that a specification asks for, each by its id and action. */
  predicate Wanted(spec: Spec, operation: Operation, id: string, action: Action) {
    match action
    case EnsureDirectory(path, mode) => !operation.Remove? && id == "root" && path == spec.root
      && mode == 493   // 0o755
    case EnsurePackage(package) => !operation.Remove? && id == "package-" + package && package in spec.packages
    case ProviderAction(provider, call, parameters) =>
      provider == PROVIDER &&
      if operation.Remove? then Removes(spec, id, call, parameters)
      else
        || InstallsRuntime(spec, id, call, parameters)
        || Binds(spec, id, call, parameters)
        || Serves(spec, operation, id, call, parameters)
    case CheckHealth(check) =>
      && !operation.Remove? && id == "health" && spec.health.enabled
      && check == Http((if spec.tls then "https" else "http") + "://" + spec.domain + spec.health.path,
                       spec.health.statusMin)
    case CommitState => id == "commit"
    case _ => false
  }

  /** The list has exactly the steps that the specification asks for. */
  ghost predicate Fulfils(steps: seq<Step>, spec: Spec, operation: Operation) {
    forall id, action :: Does(steps, id, action) <==> Wanted(spec, operation, id, action)
  }

  lemma DoesAppend(a: seq<Step>, b: seq<Step>, id: string, action: Action)
    ensures Does(a + b, id, action) <==> Does(a, id, action) || Does(b, id, action)
  {
    var all := a + b;
    if Does(a, id, action) {
      var i :| 0 <= i < |a| && a[i].id == id && a[i].action == action;
      assert all[i] == a[i];
    }
    if Does(b, id, action) {
      var i :| 0 <= i < |b| && b[i].id == id && b[i].action == action;
      assert all[|a| + i] == b[i];
    }
  }

  lemma DoesOne(step: Step, id: string, action: Action)
    ensures Does([step], id, action) <==> step.id == id && step.action == action
  {
    assert [step][0] == step;
  }

  lemma DoesWhen(condition: bool, step: Step, id: string, action: Action)
    ensures Does(When(condition, step), id, action) <==> condition && step.id == id && step.action == action
  {
    DoesOne(step, id, action);
  }

  lemma PackagesDo(packages: seq<string>, id: string, action: Action)
    ensures Does(PackageSteps(packages), id, action) <==>
      action.EnsurePackage? && id == "package-" + action.package && action.package in packages
  {
    var steps := PackageSteps(packages);
    if action.EnsurePackage? && id == "package-" + action.package && action.package in packages {
      var i :| 0 <= i < |packages| && packages[i] == action.package;
      assert steps[i] == PackageStep(packages[i]);
    }
  }

  lemma RuntimeDoes(spec: Spec, id: string, action: Action)
    ensures Does(RuntimeSteps(spec), id, action) <==>
      || (action == EnsureDirectory(spec.root, 493) && id == "root")
      || (action.EnsurePackage? && id == "package-" + action.package && action.package in spec.packages)
      || (action.ProviderAction? && action.provider == PROVIDER
          && InstallsRuntime(spec, id, action.operation, action.parameters))
  {
    var root, packages, runtime := [RootStep(spec)], PackageSteps(spec.packages), [RuntimeStep(spec)];
    var repository := if spec.repository.Some? then [RepositoryStep(spec.repository.value)] else [];
    var components := ComponentSteps(spec);
    DoesAppend(root + packages + repository + runtime, components, id, action);
    DoesAppend(root + packages + repository, runtime, id, action);
    DoesAppend(root + packages, repository, id, action);
    DoesAppend(root, packages, id, action);
    DoesOne(RootStep(spec), id, action);
    PackagesDo(spec.packages, id, action);
    if spec.repository.Some? { DoesOne(RepositoryStep(spec.repository.value), id, action); }
    DoesOne(RuntimeStep(spec), id, action);
    ComponentsDo(spec, id, action);
    hide Does, PackageSteps, ComponentSteps;
  }

  predicate Calls(action: Action, call: string) {
    action.ProviderAction? && action.provider == PROVIDER && action.operation == call
  }

  lemma ComponentsDo(spec: Spec, id: string, action: Action)
    ensures Does(ComponentSteps(spec), id, action) <==>
      && Calls(action, "component")
      && exists c :: c in spec.components && InstallsComponent(c, spec.phpVersion, id, action.parameters)
  {
    var steps, cs := ComponentSteps(spec), spec.components;
    assert forall i :: 0 <= i < |cs| ==> steps[i] == ComponentStep(cs[i], spec.phpVersion);
    if Does(steps, id, action) {
      var i :| 0 <= i < |steps| && steps[i].id == id && steps[i].action == action;
      assert cs[i] in cs && InstallsComponent(cs[i], spec.phpVersion, id, action.parameters);
    }
    if c :| Calls(action, "component") && c in cs && InstallsComponent(c, spec.phpVersion, id, action.parameters) {
      var i :| 0 <= i < |cs| && cs[i] == c;
      assert steps[i].id == id && steps[i].action == action;
    }
  }

  lemma ParametersOfDatabase(d: Database, parameters: Catalog.Configuration)
    ensures BindsDatabase(d, DatabaseStep(d).id, parameters) <==> parameters == DatabaseParameters(d)
  {
    DatabaseParametersPass(d);
    hide DatabaseParameters;
    if BindsDatabase(d, DatabaseStep(d).id, parameters) { SameParameters(d, parameters, DatabaseParameters(d)); }
  }

  lemma DatabaseParametersPass(d: Database)
    ensures BindsDatabase(d, DatabaseStep(d).id, DatabaseParameters(d))
  {
  }

  lemma SameParameters(d: Database, a: Catalog.Configuration, b: Catalog.Configuration)
    requires BindsDatabase(d, DatabaseStep(d).id, a) && BindsDatabase(d, DatabaseStep(d).id, b)
    ensures a == b
  {
    hide DatabaseStep;
    forall name
      ensures name in a <==> name in b
      ensures name in a ==> a[name] == b[name]
    {
    }
    assert a.Keys == b.Keys;
  }

  lemma DatabasesDo(databases: seq<Database>, id: string, action: Action)
    ensures Does(DatabaseSteps(databases), id, action) <==>
      && Calls(action, "database_binding")
      && exists d :: d in databases && BindsDatabase(d, id, action.parameters)
  {
    hide BindsDatabase, DatabaseParameters;
    var steps := DatabaseSteps(databases);
    assert forall i :: 0 <= i < |databases| ==> steps[i] == DatabaseStep(databases[i]);
    if Does(steps, id, action) {
      var i :| 0 <= i < |steps| && steps[i].id == id && steps[i].action == action;
      ParametersOfDatabase(databases[i], action.parameters);
      assert databases[i] in databases && BindsDatabase(databases[i], id, action.parameters);
    }
    if d :| Calls(action, "database_binding") && d in databases && BindsDatabase(d, id, action.parameters) {
      var i :| 0 <= i < |databases| && databases[i] == d;
      BoundId(d, id, action.parameters);
      ParametersOfDatabase(d, action.parameters);
      assert steps[i].id == id && steps[i].action == action;
    }
  }

  predicate Configures(p: Process, id: string, action: Action) {
    || (Calls(action, "process") && NamesProcess(p, Worker, "process-", id, action.parameters))
    || (Calls(action, "schedule") && NamesProcess(p, Scheduled, "schedule-", id, action.parameters))
  }

  lemma ProcessesDo(processes: seq<Process>, id: string, action: Action)
    ensures Does(ProcessSteps(processes), id, action) <==> exists p :: p in processes && Configures(p, id, action)
  {
    hide Configures, ProcessStep;
    var steps := ProcessSteps(processes);
    assert forall i :: 0 <= i < |processes| ==> steps[i] == ProcessStep(processes[i]);
    if Does(steps, id, action) {
      var i :| 0 <= i < |steps| && steps[i].id == id && steps[i].action == action;
      ProcessStepNames(processes[i], id, action);
      assert processes[i] in processes;
    }
    if p :| p in processes && Configures(p, id, action) {
      var i :| 0 <= i < |processes| && processes[i] == p;
      ProcessStepNames(p, id, action);
      assert steps[i].id == id && steps[i].action == action;
    }
  }

  lemma ProcessStepNames(p: Process, id: string, action: Action)
    ensures ProcessStep(p).id == id && ProcessStep(p).action == action <==> Configures(p, id, action)
  {
    assert KindName(p.kind) + "-" == (if p.kind.Worker? then "process-" else "schedule-");
  }

  predicate Unloads(p: Process, id: string, action: Action) {
    || (Calls(action, "process_remove") && NamesProcess(p, Worker, "remove-", id, action.parameters))
    || (Calls(action, "schedule_remove") && NamesProcess(p, Scheduled, "remove-", id, action.parameters))
  }

  lemma RemovalsDo(processes: seq<Process>, id: string, action: Action)
    ensures Does(RemoveProcessSteps(processes), id, action) <==> exists p :: p in processes && Unloads(p, id, action)
  {
    hide Unloads, RemoveProcessStep;
    var steps, n := RemoveProcessSteps(processes), |processes|;
    assert forall i :: 0 <= i < n ==> steps[i] == RemoveProcessStep(processes[n - 1 - i]);
    if Does(steps, id, action) {
      var i :| 0 <= i < n && steps[i].id == id && steps[i].action == action;
      RemoveStepNames(processes[n - 1 - i], id, action);
      assert processes[n - 1 - i] in processes;
    }
    if p :| p in processes && Unloads(p, id, action) {
      var i :| 0 <= i < n && processes[i] == p;
      RemoveStepNames(p, id, action);
      assert steps[n - 1 - i].id == id && steps[n - 1 - i].action == action;
    }
  }

  lemma RemoveStepNames(p: Process, id: string, action: Action)
    ensures RemoveProcessStep(p).id == id && RemoveProcessStep(p).action == action <==> Unloads(p, id, action)
  {
  }

  lemma UnbindingsDo(databases: seq<Database>, id: string, action: Action)
    ensures Does(UnbindSteps(databases), id, action) <==>
      && Calls(action, "database_unbind")
      && exists d :: d in databases && Unbinds(d, id, action.parameters)
  {
    var steps, n := UnbindSteps(databases), |databases|;
    assert forall i :: 0 <= i < n ==> steps[i] == UnbindStep(databases[n - 1 - i]);
    if Does(steps, id, action) {
      var i :| 0 <= i < n && steps[i].id == id && steps[i].action == action;
      assert databases[n - 1 - i] in databases && Unbinds(databases[n - 1 - i], id, action.parameters);
    }
    if d :| Calls(action, "database_unbind") && d in databases && Unbinds(d, id, action.parameters) {
      var i :| 0 <= i < n && databases[i] == d;
      assert steps[n - 1 - i].id == id && steps[n - 1 - i].action == action;
    }
  }

  lemma LastDoes(spec: Spec, operation: Operation, id: string, action: Action)
    ensures Does(LastSteps(spec, operation), id, action) <==>
      || (action.ProviderAction? && action.provider == PROVIDER
          && Serves(spec, operation, id, action.operation, action.parameters))
      || (id == "health" && spec.health.enabled && action == HealthStep(spec).action)
  {
    var tls, release := When(spec.tls, TlsStep(spec)), When(operation.Update?, ReleaseStep());
    var health := When(spec.health.enabled, HealthStep(spec));
    DoesAppend(tls + release, health, id, action);
    DoesAppend(tls, release, id, action);
    DoesWhen(spec.tls, TlsStep(spec), id, action);
    DoesWhen(operation.Update?, ReleaseStep(), id, action);
    DoesWhen(spec.health.enabled, HealthStep(spec), id, action);
    hide Does, When;
  }

  lemma ReconciliationDoes(spec: Spec, operation: Operation, id: string, action: Action)
    requires !operation.Remove?
    ensures Does(ReconciliationSteps(spec, operation), id, action) <==>
      !action.CommitState? && Wanted(spec, operation, id, action)
  {
    var runtime, databases, web := RuntimeSteps(spec), DatabaseSteps(spec.databases), [WebStep(spec)];
    var processes, last := ProcessSteps(spec.processes), LastSteps(spec, operation);
    DoesAppend(runtime + databases + web + processes, last, id, action);
    DoesAppend(runtime + databases + web, processes, id, action);
    DoesAppend(runtime + databases, web, id, action);
    DoesAppend(runtime, databases, id, action);
    RuntimeDoes(spec, id, action);
    DatabasesDo(spec.databases, id, action);
    DoesOne(WebStep(spec), id, action);
    ProcessesDo(spec.processes, id, action);
    LastDoes(spec, operation, id, action);
    hide Does, RuntimeSteps, DatabaseSteps, ProcessSteps, LastSteps, InstallsRuntime, Serves, NamesProcess,
      BindsDatabase;
  }

  lemma RemovalDoes(spec: Spec, id: string, action: Action)
    ensures Does(RemovalSteps(spec), id, action) <==> !action.CommitState? && Wanted(spec, Remove, id, action)
  {
    var tls, processes := When(spec.tls, TlsDetachStep()), RemoveProcessSteps(spec.processes);
    var databases := UnbindSteps(spec.databases);
    DoesAppend(tls + processes + databases + [WebRemoveStep()], [RootTrashStep(spec)], id, action);
    DoesAppend(tls + processes + databases, [WebRemoveStep()], id, action);
    DoesAppend(tls + processes, databases, id, action);
    DoesAppend(tls, processes, id, action);
    DoesWhen(spec.tls, TlsDetachStep(), id, action);
    RemovalsDo(spec.processes, id, action);
    UnbindingsDo(spec.databases, id, action);
    DoesOne(WebRemoveStep(), id, action);
    DoesOne(RootTrashStep(spec), id, action);
    hide Does, When, RemoveProcessSteps, UnbindSteps, NamesProcess, Unbinds;
  }

  /** Every plan has exactly the steps that its specification asks for. */
  lemma PlanFulfils(spec: Spec, operation: Operation)
    ensures Fulfils(PlannedSteps(spec, operation), spec, operation)
  {
    hide Does, Wanted, ReconciliationSteps, RemovalSteps;
    var steps := if operation.Remove? then RemovalSteps(spec) else ReconciliationSteps(spec, operation);
    forall id, action
      ensures Does(PlannedSteps(spec, operation), id, action) <==> Wanted(spec, operation, id, action)
    {
      DoesAppend(steps, [CommitStep()], id, action);
      DoesOne(CommitStep(), id, action);
      CommitWanted(spec, operation, id);
      if operation.Remove? { RemovalDoes(spec, id, action); } else { ReconciliationDoes(spec, operation, id, action); }
    }
  }

  /** Packages come right after the root, and components right after the runtime, each in the order given. */
  lemma PackagesAndComponentsInOrder(spec: Spec, operation: Operation)
    requires !operation.Remove?
    ensures var steps, n := PlannedSteps(spec, operation), |spec.packages|;
      var k := n + (if spec.repository.Some? then 3 else 2);
      && |steps| > k + |spec.components|
      && (forall i :: 0 <= i < n ==> steps[1 + i].action == EnsurePackage(spec.packages[i]))
      && (forall i :: 0 <= i < |spec.components| ==> steps[k + i].id == "component-" + spec.components[i])
  {
    var steps, runtime := PlannedSteps(spec, operation), RuntimeSteps(spec);
    RuntimePlaces(spec);
    assert RuntimeFirst(steps, runtime) by { RuntimeComesFirst(spec, operation); }
    hide PlannedSteps, RuntimeSteps;
  }

  predicate RuntimeFirst(steps: seq<Step>, runtime: seq<Step>) {
    |runtime| < |steps| && forall i :: 0 <= i < |runtime| ==> steps[i] == runtime[i]
  }

  lemma RuntimeComesFirst(spec: Spec, operation: Operation)
    requires !operation.Remove?
    ensures RuntimeFirst(PlannedSteps(spec, operation), RuntimeSteps(spec))
  {
    hide RuntimeSteps, DatabaseSteps, ProcessSteps, LastSteps, WebStep, CommitStep;
  }

  lemma RuntimePlaces(spec: Spec)
    ensures var steps, n := RuntimeSteps(spec), |spec.packages|;
      var k := n + (if spec.repository.Some? then 3 else 2);
      && |steps| == k + |spec.components|
      && (forall i :: 0 <= i < n ==> steps[1 + i].action == EnsurePackage(spec.packages[i]))
      && (forall i :: 0 <= i < |spec.components| ==> steps[k + i].id == "component-" + spec.components[i])
  {
    var repository := if spec.repository.Some? then [RepositoryStep(spec.repository.value)] else [];
    PlacesOfFive([RootStep(spec)], PackageSteps(spec.packages), repository, [RuntimeStep(spec)], ComponentSteps(spec));
    PackageActions(spec.packages);
    ComponentIds(spec);
    hide RootStep, RepositoryStep, RuntimeStep, PackageSteps, ComponentSteps, PackageStep, ComponentStep;
  }

  lemma PackageActions(packages: seq<string>)
    ensures |PackageSteps(packages)| == |packages|
    ensures forall i :: 0 <= i < |packages| ==> PackageSteps(packages)[i].action == EnsurePackage(packages[i])
  {
  }

  lemma ComponentIds(spec: Spec)
    ensures |ComponentSteps(spec)| == |spec.components|
    ensures forall i :: 0 <= i < |spec.components| ==> ComponentSteps(spec)[i].id == "component-" + spec.components[i]
  {
  }

  lemma PlacesOfFive(a: seq<Step>, b: seq<Step>, c: seq<Step>, d: seq<Step>, e: seq<Step>)
    ensures forall i :: 0 <= i < |b| ==> (a + b + c + d + e)[|a| + i] == b[i]
    ensures forall i :: 0 <= i < |e| ==> (a + b + c + d + e)[|a| + |b| + |c| + |d| + i] == e[i]
  {
  }

  lemma CommitWanted(spec: Spec, operation: Operation, id: string)
    ensures Wanted(spec, operation, id, CommitState) <==> id == "commit"
  {
  }

  lemma BoundId(d: Database, id: string, parameters: Catalog.Configuration)
    requires BindsDatabase(d, id, parameters)
    ensures id == DatabaseStep(d).id
  {
  }
  // ----- the planner pushes onto one list -----

  method PushRuntime(spec: Spec) returns (steps: seq<Step>)
    ensures steps == RuntimeSteps(spec)
  {
    hide RootStep, PackageSteps, RepositoryStep, RuntimeStep, ComponentSteps;
    steps := [RootStep(spec)];
    steps := steps + PackageSteps(spec.packages);
    if spec.repository.Some? {
      steps := steps + [RepositoryStep(spec.repository.value)];
    }
    steps := steps + [RuntimeStep(spec)];
    steps := steps + ComponentSteps(spec);
  }

  method PushLast(spec: Spec, operation: Operation, before: seq<Step>) returns (steps: seq<Step>)
    ensures steps == before + LastSteps(spec, operation)
  {
    hide TlsStep, ReleaseStep, HealthStep;
    steps := before;
    if spec.tls {
      steps := steps + [TlsStep(spec)];
    }
    if operation.Update? {
      steps := steps + [ReleaseStep()];
    }
    if spec.health.enabled {
      steps := steps + [HealthStep(spec)];
    }
  }

  method PushReconciliation(spec: Spec, operation: Operation) returns (steps: seq<Step>)
    ensures steps == ReconciliationSteps(spec, operation)
  {
    hide RuntimeSteps, DatabaseSteps, WebStep, ProcessSteps, LastSteps;
    steps := PushRuntime(spec);
    steps := steps + DatabaseSteps(spec.databases);
    steps := steps + [WebStep(spec)];
    steps := steps + ProcessSteps(spec.processes);
    steps := PushLast(spec, operation, steps);
  }

  method PushRemoval(spec: Spec) returns (steps: seq<Step>)
    ensures steps == RemovalSteps(spec)
  {
    hide TlsDetachStep, RemoveProcessSteps, UnbindSteps, WebRemoveStep, RootTrashStep;
    steps := [];
    if spec.tls {
      steps := steps + [TlsDetachStep()];
    }
    steps := steps + RemoveProcessSteps(spec.processes);
    steps := steps + UnbindSteps(spec.databases);
    steps := steps + [WebRemoveStep()];
    steps := steps + [RootTrashStep(spec)];
  }

  /** `lifecycle_plan`, as far as its pipeline goes: validation and the missing repository are the only ways to fail. */
  method Plan(spec: Spec, operation: Operation) returns (r: Result<Pipeline, SpecError>)
    ensures r.Ok? <==> ValidSpec(spec) && (operation.Update? ==> spec.repository.Some?)
    ensures r.Ok? ==> r.value == PlannedPipeline(spec, operation) && ValidPipeline(r.value)
    ensures r.Ok? ==> Fulfils(r.value.steps, spec, operation) && FamiliesInOrder(r.value.steps)
    ensures r.Ok? ==>
      && r.value.target == ResourceRef(ResourceKind.Application, spec.id)
      && r.value.id == "application-" + spec.id + match operation
                                                  case Install => "-install"
                                                  case Reconcile => "-reconcile"
                                                  case Update => "-update"
                                                  case Remove => "-remove"
  {
    hide ValidSpec, ValidPipeline, ReconciliationSteps, RemovalSteps, OperationTitle, Fulfils, FamiliesInOrder;
    var valid := Validate(spec);
    if valid.Fail? {
      return Err(valid.error);
    }
    if operation.Update? && spec.repository.None? {
      return Err(MissingRepository);
    }
    var steps;
    if operation.Remove? {
      steps := PushRemoval(spec);
    } else {
      steps := PushReconciliation(spec, operation);
    }
    steps := steps + [CommitStep()];
    var pipeline := Pipeline("application-" + spec.id + "-" + OperationName(operation),
      ResourceRef(ResourceKind.Application, spec.id), OperationTitle(operation) + " generic PHP application "
        + spec.id, steps);
    PlanningIsTotal(spec, operation);
    PlanFulfils(spec, operation);
    var checked := Pipelines.Validate(pipeline);
    assert checked.Pass?;
    r := Ok(pipeline);
  }

  // ----- families of step ids -----

  /** Families of step ids in the order in which a pipeline uses them, told apart by their first characters. */
  function Family(id: string): nat {
    if |id| < 3 then 0
    else if |id| == 3 then if id[0] == 'w' then 6 else 9
    else if id[0] == 'r' && id[1] == 'o' then if |id| == 4 then 0 else 24
    else if id[0] == 'p' && id[1] == 'a' then 1
    else if id[0] == 'r' && id[1] == 'e' && id[2] == 'p' then 2
    else if id[0] == 'r' && id[1] == 'u' then 3
    else if id[0] == 'c' && id[3] == 'p' then 4
    else if id[0] == 'd' then 5
    else if id[0] == 'p' || id[0] == 's' then 7
    else if id[0] == 'r' && id[1] == 'e' && id[2] == 'l' then 10
    else if id[0] == 'h' then 11
    else if id[0] == 't' then 20
    else if id[0] == 'r' && id[1] == 'e' then 21
    else if id[0] == 'u' then 22
    else if id[0] == 'w' then 23
    else 100
  }

  /** The families of the steps follow one another. */
  predicate FamiliesInOrder(steps: seq<Step>) {
    forall i, j :: 0 <= i < j < |steps| ==> Family(steps[i].id) <= Family(steps[j].id)
  }

  /** Sound steps of the families `low` up to but excluding `high`, in order, none of which commits. */
  ghost predicate Segment(steps: seq<Step>, low: nat, high: nat) {
    && DistinctSteps(steps) && FamiliesInOrder(steps)
    && forall i :: 0 <= i < |steps| ==>
         ValidStep(steps[i]) && low <= Family(steps[i].id) < high && !steps[i].action.CommitState?
  }

  lemma SegmentAppend(a: seq<Step>, b: seq<Step>, low: nat, middle: nat, high: nat)
    requires Segment(a, low, middle) && Segment(b, middle, high) && low <= middle <= high
    ensures Segment(a + b, low, high)
  {
    hide ValidStep, Family;
    var steps := a + b;
    forall i, j | 0 <= i < j < |steps|
      ensures steps[i].id != steps[j].id
    {
      if i < |a| <= j {
        assert Family(steps[i].id) < middle <= Family(steps[j].id);
      }
    }
    forall i, j | 0 <= i < j < |steps|
      ensures Family(steps[i].id) <= Family(steps[j].id)
    {
    }
  }

  lemma Widen(steps: seq<Step>, low: nat, high: nat, higher: nat)
    requires Segment(steps, low, high) && high <= higher
    ensures Segment(steps, low, higher)
  {
  }

  lemma SegmentOfOne(step: Step, low: nat, high: nat)
    requires ValidStep(step) && low <= Family(step.id) < high && !step.action.CommitState?
    ensures Segment([step], low, high)
  {
  }

  lemma PrefixedId(prefix: string, name: string)
    requires IsResourceId(prefix) && |prefix| <= 28 && 0 < |name| <= 100
    requires forall i :: 0 <= i < |name| ==> IsLower(name[i]) || IsDigit(name[i]) || name[i] == '-' || name[i] == '.'
    ensures IsResourceId(prefix + name)
  {
  }

  lemma SummaryNotBlank(prefix: string, rest: string)
    requires prefix != "" && 'A' <= prefix[0] <= 'Z'
    ensures !IsBlank(prefix + rest)
  {
    assert (prefix + rest)[0] == prefix[0];
  }

  lemma OperationIds()
    ensures IsResourceId("generic_php_application")
    ensures IsResourceId("repository") && IsResourceId("runtime") && IsResourceId("component")
    ensures IsResourceId("database_binding") && IsResourceId("web_host") && IsResourceId("process")
      && IsResourceId("schedule")
    ensures IsResourceId("tls") && IsResourceId("deploy")
  {
  }

  lemma RemovalIds()
    ensures IsResourceId("tls_detach") && IsResourceId("process_remove") && IsResourceId("schedule_remove")
    ensures IsResourceId("database_unbind") && IsResourceId("web_host_remove") && IsResourceId("root_trash")
  {
  }

  // ----- segments of a reconciliation -----

  lemma PackageSegment(packages: seq<string>)
    requires ValidPackages(packages)
    ensures Segment(PackageSteps(packages), 1, 2)
  {
    var steps := PackageSteps(packages);
    forall i | 0 <= i < |steps|
      ensures ValidStep(steps[i]) && Family(steps[i].id) == 1 && !steps[i].action.CommitState?
    {
      PackageStepIsSound(packages[i]);
    }
    forall i, j | 0 <= i < j < |steps|
      ensures steps[i].id != steps[j].id
    {
      SamePrefix("package-", packages[i], packages[j]);
    }
  }

  lemma SamePrefix(prefix: string, a: string, b: string)
    requires a != b
    ensures prefix + a != prefix + b
  {
    assert (prefix + a)[|prefix|..] == a && (prefix + b)[|prefix|..] == b;
  }

  lemma PackageStepIsSound(package: string)
    requires IsTrusted(package)
    ensures ValidStep(PackageStep(package)) && Family(PackageStep(package).id) == 1
  {
    hide IsTrusted;
    TrustedPackagesArePlain(package);
    PrefixedId("package-", package);
    SummaryNotBlank("Ensure trusted package ", package);
  }

  lemma ComponentIsShort(component: string)
    requires IsComponent(component)
    ensures IsPlain(component)
  {
  }

  lemma ComponentSegment(spec: Spec)
    requires ValidComponents(spec.components)
    ensures Segment(ComponentSteps(spec), 4, 5)
  {
    hide IsComponent;
    var steps := ComponentSteps(spec);
    forall i | 0 <= i < |steps|
      ensures ValidStep(steps[i]) && Family(steps[i].id) == 4
    {
      var c := spec.components[i];
      ComponentIsShort(c);
      PrefixedId("component-", c);
      SummaryNotBlank("Ensure PHP component ", c);
      OperationIds();
    }
    forall i, j | 0 <= i < j < |steps|
      ensures steps[i].id != steps[j].id
    {
      SamePrefix("component-", spec.components[i], spec.components[j]);
    }
  }

  lemma DatabaseSegment(databases: seq<Database>)
    requires ValidDatabases(databases)
    ensures Segment(DatabaseSteps(databases), 5, 6)
  {
    var steps := DatabaseSteps(databases);
    forall i | 0 <= i < |steps|
      ensures ValidStep(steps[i]) && Family(steps[i].id) == 5
    {
      var role := databases[i].role;
      assert IsDatabase(databases[i]);
      PrefixedId("database-", role);
      SummaryNotBlank("Bind database role ", role);
      OperationIds();
    }
    forall i, j | 0 <= i < j < |steps|
      ensures steps[i].id != steps[j].id
    {
      assert Roles(databases)[i] != Roles(databases)[j];
      SamePrefix("database-", databases[i].role, databases[j].role);
    }
  }

  lemma ProcessStepIsSound(p: Process)
    requires IsSlug(p.name)
    ensures ValidStep(ProcessStep(p)) && Family(ProcessStep(p).id) == 7
  {
    var prefix := KindName(p.kind) + "-";
    assert prefix == (if p.kind.Worker? then "process-" else "schedule-");
    PrefixedId(prefix, p.name);
    SummaryNotBlank("Configure ", KindName(p.kind) + " " + p.name);
    assert "Configure " + KindName(p.kind) + " " + p.name == "Configure " + (KindName(p.kind) + " " + p.name);
    OperationIds();
  }

  lemma KindsDiffer(p: Process, q: Process)
    requires p.kind != q.kind
    ensures ProcessStep(p).id != ProcessStep(q).id
  {
    assert ProcessStep(p).id[0] == KindName(p.kind)[0] && ProcessStep(q).id[0] == KindName(q.kind)[0];
  }

  lemma ProcessNameIsSlug(p: Process)
    requires IsProcess(p)
    ensures IsSlug(p.name)
  {
  }

  lemma ProcessSegment(processes: seq<Process>)
    requires ValidProcesses(processes)
    ensures Segment(ProcessSteps(processes), 7, 8)
  {
    hide IsSlug, ValidStep, Family, KindName, IsProcess;
    var steps := ProcessSteps(processes);
    forall i | 0 <= i < |steps|
      ensures ValidStep(steps[i]) && Family(steps[i].id) == 7
    {
      ProcessNameIsSlug(processes[i]);
      ProcessStepIsSound(processes[i]);
    }
    forall i, j | 0 <= i < j < |steps|
      ensures steps[i].id != steps[j].id
    {
      if processes[i].kind == processes[j].kind {
        assert ProcessNames(processes)[i] != ProcessNames(processes)[j];
        SamePrefix(KindName(processes[i].kind) + "-", processes[i].name, processes[j].name);
      } else {
        KindsDiffer(processes[i], processes[j]);
      }
    }
  }

  lemma RootStepIsSound(spec: Spec)
    requires IsRoot(spec.root)
    ensures ValidStep(RootStep(spec)) && Family(RootStep(spec).id) == 0
  {
    SummaryNotBlank("Ensure ", "the managed application root");
  }

  lemma RepositoryStepIsSound(r: Repository)
    ensures ValidStep(RepositoryStep(r)) && Family(RepositoryStep(r).id) == 2
  {
    SummaryNotBlank("Configure repository branch ", r.branch);
    OperationIds();
  }

  lemma RuntimeStepIsSound(spec: Spec)
    ensures ValidStep(RuntimeStep(spec)) && Family(RuntimeStep(spec).id) == 3
  {
    SummaryNotBlank("Ensure PHP ", spec.phpVersion + " runtime");
    assert "Ensure PHP " + spec.phpVersion + " runtime" == "Ensure PHP " + (spec.phpVersion + " runtime");
    OperationIds();
  }

  lemma WebStepIsSound(spec: Spec)
    ensures ValidStep(WebStep(spec)) && Family(WebStep(spec).id) == 6
  {
    SummaryNotBlank("Configure owned web host for ", spec.domain);
    OperationIds();
  }

  lemma TlsStepIsSound(spec: Spec)
    ensures ValidStep(TlsStep(spec)) && Family(TlsStep(spec).id) == 9
  {
    SummaryNotBlank("Ensure TLS for ", spec.domain);
    OperationIds();
  }

  lemma ReleaseStepIsSound()
    ensures ValidStep(ReleaseStep()) && Family(ReleaseStep().id) == 10
  {
    SummaryNotBlank("Deploy ", "the latest configured repository release");
    OperationIds();
  }

  lemma HealthStepIsSound(spec: Spec)
    requires IsHealth(spec.health) && spec.health.enabled
    ensures ValidStep(HealthStep(spec)) && Family(HealthStep(spec).id) == 11
  {
    SummaryNotBlank("Verify ", "application health");
    var rest := spec.domain + spec.health.path;
    var url := (if spec.tls then "https" else "http") + "://" + spec.domain + spec.health.path;
    var scheme := if spec.tls then "https://" else "http://";
    assert url == scheme + rest && scheme <= url;
  }

  lemma EmptySegment(low: nat, high: nat)
    ensures Segment([], low, high)
  {
  }

  lemma WhenSegment(condition: bool, step: Step, low: nat, high: nat)
    requires condition ==> ValidStep(step) && low <= Family(step.id) < high && !step.action.CommitState?
    ensures Segment(When(condition, step), low, high)
  {
  }

  lemma RuntimeStepsSegment(spec: Spec)
    requires ValidSpec(spec)
    ensures Segment(RuntimeSteps(spec), 0, 5)
  {
    hide Segment, ValidStep, Family, IsSlug, IsDomain, IsRoot, IsRepository, ValidComponents, ValidPackages,
      ValidDatabases, ValidProcesses, IsHealth, RootStep, PackageSteps, RepositoryStep, RuntimeStep, ComponentSteps;
    RootSegment(spec);
    PackageSegment(spec.packages);
    SegmentAppend([RootStep(spec)], PackageSteps(spec.packages), 0, 1, 2);
    var steps := [RootStep(spec)] + PackageSteps(spec.packages);
    var repository := if spec.repository.Some? then [RepositoryStep(spec.repository.value)] else [];
    RepositorySegment(spec.repository);
    SegmentAppend(steps, repository, 0, 2, 3);
    RuntimeSegment(spec);
    SegmentAppend(steps + repository, [RuntimeStep(spec)], 0, 3, 4);
    ComponentSegment(spec);
    SegmentAppend(steps + repository + [RuntimeStep(spec)], ComponentSteps(spec), 0, 4, 5);
  }

  lemma RootSegment(spec: Spec)
    requires IsRoot(spec.root)
    ensures Segment([RootStep(spec)], 0, 1)
  {
    RootStepIsSound(spec);
    SegmentOfOne(RootStep(spec), 0, 1);
  }

  lemma RepositorySegment(repository: Option<Repository>)
    ensures Segment(if repository.Some? then [RepositoryStep(repository.value)] else [], 2, 3)
  {
    EmptySegment(2, 3);
    if repository.Some? {
      RepositoryStepIsSound(repository.value);
      SegmentOfOne(RepositoryStep(repository.value), 2, 3);
    }
  }

  lemma RuntimeSegment(spec: Spec)
    ensures Segment([RuntimeStep(spec)], 3, 4)
  {
    RuntimeStepIsSound(spec);
    SegmentOfOne(RuntimeStep(spec), 3, 4);
  }

  lemma WebSegment(spec: Spec)
    ensures Segment([WebStep(spec)], 6, 7)
  {
    WebStepIsSound(spec);
    SegmentOfOne(WebStep(spec), 6, 7);
  }

  lemma LastSegment(spec: Spec, operation: Operation)
    requires IsHealth(spec.health)
    ensures Segment(LastSteps(spec, operation), 9, 12)
  {
    hide Segment, IsHealth, When, ValidStep, Family;
    TlsStepIsSound(spec);
    WhenSegment(spec.tls, TlsStep(spec), 9, 10);
    ReleaseStepIsSound();
    WhenSegment(operation.Update?, ReleaseStep(), 10, 11);
    SegmentAppend(When(spec.tls, TlsStep(spec)), When(operation.Update?, ReleaseStep()), 9, 10, 11);
    if spec.health.enabled { HealthStepIsSound(spec); }
    WhenSegment(spec.health.enabled, HealthStep(spec), 11, 12);
    SegmentAppend(When(spec.tls, TlsStep(spec)) + When(operation.Update?, ReleaseStep()),
      When(spec.health.enabled, HealthStep(spec)), 9, 11, 12);
  }

  lemma ReconciliationSegment(spec: Spec, operation: Operation)
    requires ValidSpec(spec)
    ensures Segment(ReconciliationSteps(spec, operation), 0, 12)
  {
    hide Segment, IsSlug, IsDomain, IsRoot, IsRepository, ValidComponents, ValidPackages, ValidDatabases,
      ValidProcesses, IsHealth, RuntimeSteps, DatabaseSteps, WebStep, ProcessSteps, LastSteps;
    var runtime, databases, web := RuntimeSteps(spec), DatabaseSteps(spec.databases), [WebStep(spec)];
    RuntimeStepsSegment(spec);
    DatabaseSegment(spec.databases);
    SegmentAppend(runtime, databases, 0, 5, 6);
    WebSegment(spec);
    SegmentAppend(runtime + databases, web, 0, 6, 7);
    ProcessSegment(spec.processes);
    SegmentAppend(runtime + databases + web, ProcessSteps(spec.processes), 0, 7, 9) by {
      Widen(ProcessSteps(spec.processes), 7, 8, 9);
    }
    LastSegment(spec, operation);
    SegmentAppend(runtime + databases + web + ProcessSteps(spec.processes), LastSteps(spec, operation), 0, 9, 12);
  }

  // ----- segments of a removal -----

  lemma RemoveProcessSegment(processes: seq<Process>)
    requires ValidProcesses(processes)
    ensures Segment(RemoveProcessSteps(processes), 21, 22)
  {
    hide IsSlug, ValidStep, Family, IsProcess;
    var steps, n := RemoveProcessSteps(processes), |processes|;
    assert forall i :: 0 <= i < n ==> steps[i] == RemoveProcessStep(processes[n - 1 - i]);
    forall i | 0 <= i < n
      ensures ValidStep(steps[i]) && !steps[i].action.CommitState? && Family(steps[i].id) == 21
    {
      ProcessNameIsSlug(processes[n - 1 - i]);
      RemoveStepIsSound(processes[n - 1 - i]);
    }
    forall i, j | 0 <= i < j < n
      ensures steps[i].id != steps[j].id
    {
      assert ProcessNames(processes)[n - 1 - j] != ProcessNames(processes)[n - 1 - i];
      SamePrefix("remove-", processes[n - 1 - i].name, processes[n - 1 - j].name);
    }
    hide RemoveProcessSteps, RemoveProcessStep;
  }

  lemma RemoveStepIsSound(p: Process)
    requires IsSlug(p.name)
    ensures ValidStep(RemoveProcessStep(p)) && Family(RemoveProcessStep(p).id) == 21
  {
    PrefixedId("remove-", p.name);
    SummaryNotBlank("Remove owned units for ", p.name);
    OperationIds();
    RemovalIds();
  }

  lemma UnbindSegment(databases: seq<Database>)
    requires ValidDatabases(databases)
    ensures Segment(UnbindSteps(databases), 22, 23)
  {
    hide IsSlug, ValidStep, Family;
    var steps, n := UnbindSteps(databases), |databases|;
    assert forall i :: 0 <= i < n ==> steps[i] == UnbindStep(databases[n - 1 - i]);
    forall i | 0 <= i < n
      ensures ValidStep(steps[i]) && !steps[i].action.CommitState? && Family(steps[i].id) == 22
    {
      assert IsDatabase(databases[n - 1 - i]);
      UnbindStepIsSound(databases[n - 1 - i]);
    }
    forall i, j | 0 <= i < j < n
      ensures steps[i].id != steps[j].id
    {
      assert Roles(databases)[n - 1 - j] != Roles(databases)[n - 1 - i];
      SamePrefix("unbind-", databases[n - 1 - i].role, databases[n - 1 - j].role);
    }
  }

  lemma UnbindStepIsSound(d: Database)
    requires IsSlug(d.role)
    ensures ValidStep(UnbindStep(d)) && Family(UnbindStep(d).id) == 22
  {
    PrefixedId("unbind-", d.role);
    SummaryNotBlank("Detach database role ", d.role);
    OperationIds();
    RemovalIds();
  }

  lemma TlsDetachStepIsSound()
    ensures ValidStep(TlsDetachStep()) && Family(TlsDetachStep().id) == 20
  {
    OperationIds();
    RemovalIds();
    SummaryNotBlank("Detach ", "the owned certificate");
  }

  lemma WebRemoveStepIsSound()
    ensures ValidStep(WebRemoveStep()) && Family(WebRemoveStep().id) == 23
  {
    OperationIds();
    RemovalIds();
    SummaryNotBlank("Remove ", "the owned web host");
  }

  lemma RootTrashStepIsSound(spec: Spec)
    ensures ValidStep(RootTrashStep(spec)) && Family(RootTrashStep(spec).id) == 24
  {
    OperationIds();
    RemovalIds();
    SummaryNotBlank("Move ", "the application root to recoverable trash");
  }

  lemma RemovalSegment(spec: Spec)
    requires ValidSpec(spec)
    ensures Segment(RemovalSteps(spec), 20, 25)
  {
    hide Segment, IsSlug, IsDomain, IsRoot, IsRepository, ValidComponents, ValidPackages, ValidDatabases,
      ValidProcesses, IsHealth, RemoveProcessSteps, UnbindSteps, When, ValidStep, Family;
    TlsDetachStepIsSound();
    WebRemoveStepIsSound();
    RootTrashStepIsSound(spec);
    var tls := When(spec.tls, TlsDetachStep());
    WhenSegment(spec.tls, TlsDetachStep(), 20, 21);
    RemoveProcessSegment(spec.processes);
    SegmentAppend(tls, RemoveProcessSteps(spec.processes), 20, 21, 22);
    UnbindSegment(spec.databases);
    SegmentAppend(tls + RemoveProcessSteps(spec.processes), UnbindSteps(spec.databases), 20, 22, 23);
    SegmentOfOne(WebRemoveStep(), 23, 24);
    SegmentAppend(tls + RemoveProcessSteps(spec.processes) + UnbindSteps(spec.databases), [WebRemoveStep()], 20, 23,
      24);
    SegmentOfOne(RootTrashStep(spec), 24, 25);
    SegmentAppend(tls + RemoveProcessSteps(spec.processes) + UnbindSteps(spec.databases) + [WebRemoveStep()],
      [RootTrashStep(spec)], 20, 24, 25);
  }

  // ----- planning is total -----

  lemma CommitStepIsSound()
    ensures ValidStep(CommitStep()) && Family(CommitStep().id) == 100
  {
    SummaryNotBlank("Commit ", "application resource state");
  }

  /** Sound steps followed by the commit are the steps of a valid pipeline. */
  lemma CommitAppended(steps: seq<Step>, low: nat, high: nat)
    requires Segment(steps, low, high) && high <= 100
    ensures var all := steps + [CommitStep()];
      && (forall i :: 0 <= i < |all| ==> ValidStep(all[i])) && DistinctSteps(all) && CommitsLast(all)
      && FamiliesInOrder(all)
  {
    hide ValidStep, Family;
    CommitStepIsSound();
    var all := steps + [CommitStep()];
    forall i, j | 0 <= i < j < |all|
      ensures all[i].id != all[j].id
    {
      if j == |steps| { assert Family(all[i].id) < 100 == Family(all[j].id); }
    }
  }

  lemma PipelineIdIsValid(spec: Spec, operation: Operation)
    requires IsSlug(spec.id)
    ensures IsResourceId("application-" + spec.id + "-" + OperationName(operation))
    ensures IsResourceId(spec.id)
    ensures !IsBlank(OperationTitle(operation) + " generic PHP application " + spec.id)
  {
    var tail := "-" + OperationName(operation);
    assert |tail| <= 10 && forall i :: 0 <= i < |tail| ==> IsLower(tail[i]) || tail[i] == '-';
    PrefixedId("application-", spec.id + tail);
    assert "application-" + spec.id + "-" + OperationName(operation) == "application-" + (spec.id + tail);
    SummaryNotBlank(OperationTitle(operation), " generic PHP application " + spec.id);
    assert OperationTitle(operation) + " generic PHP application " + spec.id
        == OperationTitle(operation) + (" generic PHP application " + spec.id);
  }

  /** Every specification that validates, with every operation, plans a pipeline that validates. */
  lemma PlanningIsTotal(spec: Spec, operation: Operation)
    requires ValidSpec(spec)
    ensures ValidPipeline(PlannedPipeline(spec, operation))
    ensures FamiliesInOrder(PlannedPipeline(spec, operation).steps)
  {
    PipelineIdIsValid(spec, operation);
    hide Segment, ValidStep, DistinctSteps, CommitsLast, OperationName, OperationTitle, ReconciliationSteps,
      RemovalSteps;
    if operation.Remove? {
      RemovalSegment(spec);
      CommitAppended(RemovalSteps(spec), 20, 25);
    } else {
      ReconciliationSegment(spec, operation);
      CommitAppended(ReconciliationSteps(spec, operation), 0, 12);
    }
  }

  // ----- removal undoes reconciliation backwards -----

  /** The values of one parameter in the provider steps with these operations, in order. */
  function Parameters(steps: seq<Step>, operations: set<string>, name: string): seq<Catalog.Value> {
    if steps == [] then []
    else
      var rest := Parameters(steps[1..], operations, name);
      match steps[0].action
      case ProviderAction(_, operation, parameters) =>
        if operation in operations && name in parameters then [parameters[name]] + rest else rest
      case _ => rest
  }

  lemma {:induction false} ParametersConcat(a: seq<Step>, b: seq<Step>, operations: set<string>, name: string)
    ensures Parameters(a + b, operations, name) == Parameters(a, operations, name) + Parameters(b, operations, name)
  {
    if a == [] {
      assert a + b == b;
    } else {
      assert (a + b)[1..] == a[1..] + b;
      ParametersConcat(a[1..], b, operations, name);
    }
  }

  function ReversedValues(values: seq<Catalog.Value>): seq<Catalog.Value> {
    seq(|values|, i requires 0 <= i < |values| => values[|values| - 1 - i])
  }

  /** No step of the list is made by one of the operations. */
  predicate Unrelated(steps: seq<Step>, operations: set<string>) {
    forall i :: 0 <= i < |steps| && steps[i].action.ProviderAction? ==> steps[i].action.operation !in operations
  }

  lemma {:induction false} UnrelatedHaveNone(steps: seq<Step>, operations: set<string>, name: string)
    requires Unrelated(steps, operations)
    ensures Parameters(steps, operations, name) == []
  {
    if steps != [] {
      UnrelatedHaveNone(steps[1..], operations, name);
    }
  }

  const PROCESS_OPERATIONS := {"process", "schedule"}

  const REMOVE_OPERATIONS := {"process_remove", "schedule_remove"}

  function NameValues(processes: seq<Process>): seq<Catalog.Value> {
    seq(|processes|, i requires 0 <= i < |processes| => Catalog.Text(processes[i].name))
  }

  function RoleValues(databases: seq<Database>): seq<Catalog.Value> {
    seq(|databases|, i requires 0 <= i < |databases| => Catalog.Text(databases[i].role))
  }

  lemma {:induction false} NamesOfProcessSteps(processes: seq<Process>)
    ensures Parameters(ProcessSteps(processes), PROCESS_OPERATIONS, "name") == NameValues(processes)
    decreases |processes|
  {
    if processes != [] {
      NamesOfProcessSteps(processes[1..]);
      assert ProcessSteps(processes)[1..] == ProcessSteps(processes[1..]);
      assert NameValues(processes) == [Catalog.Text(processes[0].name)] + NameValues(processes[1..]);
    }
  }

  lemma RemoveStepName(p: Process)
    ensures Parameters([RemoveProcessStep(p)], REMOVE_OPERATIONS, "name") == [Catalog.Text(p.name)]
  {
    assert Parameters([], REMOVE_OPERATIONS, "name") == [];
  }

  lemma RemoveStepsLast(processes: seq<Process>)
    requires processes != []
    ensures var n := |processes| - 1;
      RemoveProcessSteps(processes) == [RemoveProcessStep(processes[n])] + RemoveProcessSteps(processes[..n])
  {
    hide RemoveProcessStep;
  }

  lemma ReversedLast(values: seq<Catalog.Value>)
    requires values != []
    ensures var n := |values| - 1;
      ReversedValues(values) == [values[n]] + ReversedValues(values[..n])
  {
  }

  lemma {:induction false} NamesOfRemoveSteps(processes: seq<Process>)
    ensures Parameters(RemoveProcessSteps(processes), REMOVE_OPERATIONS, "name")
         == ReversedValues(NameValues(processes))
    decreases |processes|
  {
    if processes != [] {
      var n := |processes| - 1;
      NamesOfRemoveSteps(processes[..n]);
      RemoveStepsLast(processes);
      RemoveStepName(processes[n]);
      hide Parameters, RemoveProcessSteps, RemoveProcessStep, ReversedValues;
      ParametersConcat([RemoveProcessStep(processes[n])], RemoveProcessSteps(processes[..n]), REMOVE_OPERATIONS,
        "name");
      ReversedLast(NameValues(processes));
      assert NameValues(processes)[..n] == NameValues(processes[..n]);
    }
  }

  lemma {:induction false} RolesOfDatabaseSteps(databases: seq<Database>)
    ensures Parameters(DatabaseSteps(databases), {"database_binding"}, "role") == RoleValues(databases)
    decreases |databases|
  {
    if databases != [] {
      RolesOfDatabaseSteps(databases[1..]);
      assert DatabaseSteps(databases) == [DatabaseStep(databases[0])] + DatabaseSteps(databases[1..]);
      DatabaseStepRole(databases[0]);
      ParametersConcat([DatabaseStep(databases[0])], DatabaseSteps(databases[1..]), {"database_binding"}, "role");
      hide Parameters, DatabaseSteps, DatabaseStep;
      assert RoleValues(databases) == [Catalog.Text(databases[0].role)] + RoleValues(databases[1..]);
    }
  }

  lemma DatabaseRole(d: Database)
    ensures var parameters := DatabaseParameters(d); "role" in parameters && parameters["role"] == Catalog.Text(d.role)
  {
    assert |"role"| != |"database"| && |"role"| != |"secret_reference"| && "role"[0] != "user"[0];
  }

  lemma DatabaseStepRole(d: Database)
    ensures Parameters([DatabaseStep(d)], {"database_binding"}, "role") == [Catalog.Text(d.role)]
  {
    DatabaseRole(d);
    hide DatabaseParameters;
    assert Parameters([], {"database_binding"}, "role") == [];
  }

  lemma UnbindStepRole(d: Database)
    ensures Parameters([UnbindStep(d)], {"database_unbind"}, "role") == [Catalog.Text(d.role)]
  {
    assert Parameters([], {"database_unbind"}, "role") == [];
  }

  lemma {:induction false} RolesOfUnbindSteps(databases: seq<Database>)
    ensures Parameters(UnbindSteps(databases), {"database_unbind"}, "role") == ReversedValues(RoleValues(databases))
    decreases |databases|
  {
    if databases != [] {
      var n := |databases| - 1;
      RolesOfUnbindSteps(databases[..n]);
      assert UnbindSteps(databases) == [UnbindStep(databases[n])] + UnbindSteps(databases[..n]);
      UnbindStepRole(databases[n]);
      ParametersConcat([UnbindStep(databases[n])], UnbindSteps(databases[..n]), {"database_unbind"}, "role");
      hide Parameters, UnbindSteps, UnbindStep;
      assert ReversedValues(RoleValues(databases)) == [Catalog.Text(databases[n].role)]
        + ReversedValues(RoleValues(databases[..n]));
    }
  }

  lemma ReconciliationInParts(spec: Spec, operation: Operation, operations: set<string>, name: string)
    ensures Parameters(ReconciliationSteps(spec, operation), operations, name)
         == Parameters(RuntimeSteps(spec), operations, name)
          + Parameters(DatabaseSteps(spec.databases), operations, name)
          + Parameters([WebStep(spec)], operations, name)
          + Parameters(ProcessSteps(spec.processes), operations, name)
          + Parameters(LastSteps(spec, operation), operations, name)
  {
    hide Parameters, RuntimeSteps, LastSteps, DatabaseSteps, WebStep, ProcessSteps;
    var runtime, databases, web := RuntimeSteps(spec), DatabaseSteps(spec.databases), [WebStep(spec)];
    var processes, last := ProcessSteps(spec.processes), LastSteps(spec, operation);
    ParametersConcat(runtime + databases + web + processes, last, operations, name);
    ParametersConcat(runtime + databases + web, processes, operations, name);
    ParametersConcat(runtime + databases, web, operations, name);
    ParametersConcat(runtime, databases, operations, name);
  }

  lemma RuntimeUnrelated(spec: Spec)
    ensures Unrelated(RuntimeSteps(spec), PROCESS_OPERATIONS)
    ensures Unrelated(RuntimeSteps(spec), {"database_binding"})
  {
    assert |"repository"| == 10 && |"runtime"| == 7 && |"component"| == 9 && |"database_binding"| == 16;
    assert |"process"| == 7 && |"schedule"| == 8 && "runtime"[0] != "process"[0];
  }

  lemma WebUnrelated(spec: Spec)
    ensures Unrelated([WebStep(spec)], PROCESS_OPERATIONS)
    ensures Unrelated([WebStep(spec)], {"database_binding"})
  {
    assert "web_host"[0] != "schedule"[0] && |"web_host"| == 8 && |"process"| == 7 && |"database_binding"| == 16;
  }

  lemma LastUnrelated(spec: Spec, operation: Operation)
    ensures Unrelated(LastSteps(spec, operation), PROCESS_OPERATIONS)
    ensures Unrelated(LastSteps(spec, operation), {"database_binding"})
  {
    assert |"process"| == 7 && |"schedule"| == 8 && |"database_binding"| == 16 && |"tls"| == 3 && |"deploy"| == 6;
  }

  lemma BindingIsNotConfiguring(databases: seq<Database>)
    ensures Unrelated(DatabaseSteps(databases), PROCESS_OPERATIONS)
  {
    assert |"process"| == 7 && |"schedule"| == 8 && |"database_binding"| == 16;
  }

  lemma ConfiguringIsNotBinding(processes: seq<Process>)
    ensures Unrelated(ProcessSteps(processes), {"database_binding"})
  {
    assert |"process"| == 7 && |"schedule"| == 8 && |"database_binding"| == 16;
  }

  lemma ProcessesInReconciliation(spec: Spec, operation: Operation)
    ensures Parameters(ReconciliationSteps(spec, operation), PROCESS_OPERATIONS, "name") == NameValues(spec.processes)
  {
    hide Parameters, RuntimeSteps, LastSteps, DatabaseSteps, WebStep, ProcessSteps, Unrelated, ReconciliationSteps;
    ReconciliationInParts(spec, operation, PROCESS_OPERATIONS, "name");
    RuntimeUnrelated(spec);
    UnrelatedHaveNone(RuntimeSteps(spec), PROCESS_OPERATIONS, "name");
    BindingIsNotConfiguring(spec.databases);
    UnrelatedHaveNone(DatabaseSteps(spec.databases), PROCESS_OPERATIONS, "name");
    WebUnrelated(spec);
    UnrelatedHaveNone([WebStep(spec)], PROCESS_OPERATIONS, "name");
    NamesOfProcessSteps(spec.processes);
    LastUnrelated(spec, operation);
    UnrelatedHaveNone(LastSteps(spec, operation), PROCESS_OPERATIONS, "name");
  }

  lemma DatabasesInReconciliation(spec: Spec, operation: Operation)
    ensures Parameters(ReconciliationSteps(spec, operation), {"database_binding"}, "role") == RoleValues(spec.databases)
  {
    hide Parameters, RuntimeSteps, LastSteps, DatabaseSteps, WebStep, ProcessSteps, Unrelated, ReconciliationSteps;
    ReconciliationInParts(spec, operation, {"database_binding"}, "role");
    RuntimeUnrelated(spec);
    UnrelatedHaveNone(RuntimeSteps(spec), {"database_binding"}, "role");
    RolesOfDatabaseSteps(spec.databases);
    WebUnrelated(spec);
    UnrelatedHaveNone([WebStep(spec)], {"database_binding"}, "role");
    ConfiguringIsNotBinding(spec.processes);
    UnrelatedHaveNone(ProcessSteps(spec.processes), {"database_binding"}, "role");
    LastUnrelated(spec, operation);
    UnrelatedHaveNone(LastSteps(spec, operation), {"database_binding"}, "role");
  }

  lemma UnbindingIsNotRemoving(databases: seq<Database>)
    ensures Unrelated(UnbindSteps(databases), REMOVE_OPERATIONS)
  {
    var n := |databases|;
    assert forall i :: 0 <= i < n ==> UnbindSteps(databases)[i] == UnbindStep(databases[n - 1 - i]);
    assert |"process_remove"| == 14 && |"database_unbind"| == 15 && "schedule_remove"[0] != "database_unbind"[0];
  }

  lemma RemovingIsNotUnbinding(processes: seq<Process>)
    ensures Unrelated(RemoveProcessSteps(processes), {"database_unbind"})
  {
    var n := |processes|;
    assert forall i :: 0 <= i < n ==> RemoveProcessSteps(processes)[i] == RemoveProcessStep(processes[n - 1 - i]);
    assert |"process_remove"| == 14 && |"database_unbind"| == 15 && "schedule_remove"[0] != "database_unbind"[0];
  }

  lemma DetachingIsUnrelated(spec: Spec)
    ensures Unrelated(When(spec.tls, TlsDetachStep()), REMOVE_OPERATIONS)
    ensures Unrelated(When(spec.tls, TlsDetachStep()), {"database_unbind"})
  {
    assert |"tls_detach"| == 10 && |"process_remove"| == 14 && |"schedule_remove"| == 15 && |"database_unbind"| == 15;
  }

  lemma TrashingIsUnrelated(spec: Spec)
    ensures Unrelated([WebRemoveStep(), RootTrashStep(spec)], REMOVE_OPERATIONS)
    ensures Unrelated([WebRemoveStep(), RootTrashStep(spec)], {"database_unbind"})
  {
    assert |"root_trash"| == 10 && |"process_remove"| == 14 && |"schedule_remove"| == 15 && |"database_unbind"| == 15;
    assert |"web_host_remove"| == 15 && "web_host_remove"[0] != "schedule_remove"[0]
      && "web_host_remove"[0] != "database_unbind"[0];
  }

  lemma RemovalInParts(spec: Spec, operations: set<string>, name: string)
    ensures Parameters(RemovalSteps(spec), operations, name)
         == Parameters(When(spec.tls, TlsDetachStep()), operations, name)
          + Parameters(RemoveProcessSteps(spec.processes), operations, name)
          + Parameters(UnbindSteps(spec.databases), operations, name)
          + Parameters([WebRemoveStep(), RootTrashStep(spec)], operations, name)
  {
    hide Parameters, RemoveProcessSteps, UnbindSteps, When, TlsDetachStep, WebRemoveStep, RootTrashStep;
    var tls, processes, databases := When(spec.tls, TlsDetachStep()), RemoveProcessSteps(spec.processes),
      UnbindSteps(spec.databases);
    var last := [WebRemoveStep(), RootTrashStep(spec)];
    assert RemovalSteps(spec) == tls + processes + databases + last;
    ParametersConcat(tls + processes + databases, last, operations, name);
    ParametersConcat(tls + processes, databases, operations, name);
    ParametersConcat(tls, processes, operations, name);
  }

  lemma RemovedProcesses(spec: Spec)
    ensures Parameters(RemovalSteps(spec), REMOVE_OPERATIONS, "name") == ReversedValues(NameValues(spec.processes))
  {
    hide Parameters, RemoveProcessSteps, UnbindSteps, When, TlsDetachStep, WebRemoveStep, RootTrashStep, Unrelated,
      RemovalSteps;
    RemovalInParts(spec, REMOVE_OPERATIONS, "name");
    DetachingIsUnrelated(spec);
    UnrelatedHaveNone(When(spec.tls, TlsDetachStep()), REMOVE_OPERATIONS, "name");
    NamesOfRemoveSteps(spec.processes);
    UnbindingIsNotRemoving(spec.databases);
    UnrelatedHaveNone(UnbindSteps(spec.databases), REMOVE_OPERATIONS, "name");
    TrashingIsUnrelated(spec);
    UnrelatedHaveNone([WebRemoveStep(), RootTrashStep(spec)], REMOVE_OPERATIONS, "name");
  }

  lemma UnboundDatabases(spec: Spec)
    ensures Parameters(RemovalSteps(spec), {"database_unbind"}, "role") == ReversedValues(RoleValues(spec.databases))
  {
    hide Parameters, RemoveProcessSteps, UnbindSteps, When, TlsDetachStep, WebRemoveStep, RootTrashStep, Unrelated,
      RemovalSteps;
    RemovalInParts(spec, {"database_unbind"}, "role");
    DetachingIsUnrelated(spec);
    UnrelatedHaveNone(When(spec.tls, TlsDetachStep()), {"database_unbind"}, "role");
    RemovingIsNotUnbinding(spec.processes);
    UnrelatedHaveNone(RemoveProcessSteps(spec.processes), {"database_unbind"}, "role");
    RolesOfUnbindSteps(spec.databases);
    TrashingIsUnrelated(spec);
    UnrelatedHaveNone([WebRemoveStep(), RootTrashStep(spec)], {"database_unbind"}, "role");
  }

  /** Removal takes processes and databases in exactly the reverse order of reconciliation. */
  lemma RemovalReversesReconciliation(spec: Spec, operation: Operation)
    ensures Parameters(RemovalSteps(spec), REMOVE_OPERATIONS, "name")
         == ReversedValues(Parameters(ReconciliationSteps(spec, operation), PROCESS_OPERATIONS, "name"))
    ensures Parameters(RemovalSteps(spec), {"database_unbind"}, "role")
         == ReversedValues(Parameters(ReconciliationSteps(spec, operation), {"database_binding"}, "role"))
  {
    hide Parameters, RemovalSteps, ReconciliationSteps;
    RemovedProcesses(spec);
    UnboundDatabases(spec);
    ProcessesInReconciliation(spec, operation);
    DatabasesInReconciliation(spec, operation);
  }

  // ----- processes in unit files -----

  lemma CommandOnLine(command: seq<string>)
    requires IsCommand(command)
    ensures UnitFiles.NoLineBreak(UnitFiles.RenderCommand(command))
    ensures UnitFiles.ReadCommand(UnitFiles.RenderCommand(command)) == Some(command)
  {
    UnitFiles.CommandRoundTrip(command);
    assert forall i :: 0 <= i < |command| ==> HasNoneOf(command[i], "\0\n\r");
    assert '\0' in "\0\n\r" && '\n' in "\0\n\r" && '\r' in "\0\n\r";
    assert forall i :: 0 <= i < |command| ==> UnitFiles.NoLineBreak(command[i]);
    UnitFiles.CommandStaysOnLine(command);
  }

  lemma AssignmentOnLine(environment: map<string, string>, key: string)
    requires IsProcessEnvironment(environment) && key in environment
    ensures UnitFiles.NoLineBreak(UnitFiles.RenderAssignment(key, environment[key]))
    ensures !Contains(key, '=')
    ensures UnitFiles.ReadCommand(UnitFiles.RenderAssignment(key, environment[key]))
         == Some([key + "=" + environment[key]])
  {
    var value := environment[key];
    assert '\0' in "\0\n\r" && '\n' in "\0\n\r" && '\r' in "\0\n\r";
    assert UnitFiles.NoLineBreak(key + "=" + value);
    UnitFiles.CommandStaysOnLine([key + "=" + value]);
    assert UnitFiles.QuoteAll([key + "=" + value]) == [UnitFiles.RenderAssignment(key, value)];
    UnitFiles.AssignmentRoundTrip(key, value);
  }

  /**
   Whatever a valid specification gives its processes to run, it is printed on one line of a unit file and read
   back as given: commands, health probes and environment assignments.
   */
  lemma ProcessesStayOnLine(spec: Spec, p: Process)
    requires ValidSpec(spec) && p in spec.processes
    ensures UnitFiles.NoLineBreak(UnitFiles.RenderCommand(p.command))
    ensures UnitFiles.ReadCommand(UnitFiles.RenderCommand(p.command)) == Some(p.command)
    ensures p.probe.Some? ==>
      && UnitFiles.NoLineBreak(UnitFiles.RenderCommand(p.probe.value.command))
      && UnitFiles.ReadCommand(UnitFiles.RenderCommand(p.probe.value.command)) == Some(p.probe.value.command)
    ensures forall key :: key in p.environment ==>
      && UnitFiles.NoLineBreak(UnitFiles.RenderAssignment(key, p.environment[key]))
      && UnitFiles.ReadCommand(UnitFiles.RenderAssignment(key, p.environment[key]))
           == Some([key + "=" + p.environment[key]])
      && !Contains(key, '=')
  {
    assert IsProcess(p);
    CommandOnLine(p.command);
    if p.probe.Some? { CommandOnLine(p.probe.value.command); }
    forall key | key in p.environment
      ensures UnitFiles.NoLineBreak(UnitFiles.RenderAssignment(key, p.environment[key]))
      ensures UnitFiles.ReadCommand(UnitFiles.RenderAssignment(key, p.environment[key]))
        == Some([key + "=" + p.environment[key]])
      ensures !Contains(key, '=')
    {
      AssignmentOnLine(p.environment, key);
    }
  }
}
