/**
 Bring-up of an embedded graph database instance.

 The factory wires the global module's lifecycle and dependency registry, fills the
 global procedures registry, creates the database manager, starts everything and
 hands back the facade of the default database. Every collaborator whose code is not
 part of this model (the global module's construction, the edition module, the
 database manager, the lifecycle's own start, the caller's facade) is represented by
 the outcome it produces: a flag, a thrown failure, or the databases it creates.
 */
module FacadeFactory {

  datatype Option<T> = None | Some(value: T)

  function OptionToSeq<T>(o: Option<T>): seq<T> {
    if o.Some? then [o.value] else []
  }

  /* ------------------------------------------------------------------------
     Values
     ------------------------------------------------------------------------ */

  /** A thrown Java exception or error: its class and its message. */
  datatype Failure = Failure(kind: string, message: string)

  /** The RuntimeException built when starting fails: its message, its cause and
      the failures added to it as suppressed, in the order they were added. */
  datatype StartupError = StartupError(message: string, cause: Failure, suppressed: seq<Failure>)

  /** How one bring-up ends: the default database's facade is returned, the wrapped
      startup error is thrown, or a failure from before the guarded part escapes as is. */
  datatype Outcome =
    | Ok(facade: FacadeId)
    | Err(error: StartupError)
    | Propagated(failure: Failure)

  /** Identity of the facade a database context exposes. */
  type FacadeId = nat

  /** The instances this factory adds to the global lifecycle or publishes as dependencies. */
  datatype Participant =
    | ProceduresRegistry
    | NonTransactionalDbmsOperations
    | DatabaseManager
    | AuthManager
    | UserManagerSupplier
    | GlobalExtensions
    | BoltServer
    | GlobalTransactionCounter
    | StartupWaiter
    | SchemaWriteGuard
    | PageCacheTracerMetricsPublisher

  /** Concrete value classes that procedures may use in their signatures. */
  datatype ValueClass =
    | Node | NodeValue | Relationship | RelationshipValue | Path | PathValue
    | Geometry | Point | PointValue

  /** Declared procedure types. */
  datatype NeoType = NTNode | NTRelationship | NTPath | NTGeometry | NTPoint

  /** Components that can be injected into procedures. */
  datatype Component =
    | DependencyResolver | KernelTransaction | GraphDatabaseAPI
    | Log | ProcedureTransaction | TerminationGuard | SecurityContext
    | FulltextAdapter | DataCollector

  datatype ComponentRegistration = ComponentRegistration(component: Component, isPublic: bool)

  datatype LogEntry =
    | InternalError(message: string)
    | StartFailureLogged(message: string, error: StartupError)

  /** What the edition's procedure registration does. */
  datatype RegistrationOutcome =
    | Registered
    | KernelFailure(reason: string)   // a KernelException, caught and logged
    | OtherFailure(failure: Failure)  // any other throwable, not caught

  /** The edition module, as the outcomes of the calls the factory makes on it. */
  datatype Edition = Edition(
    handlesDatabaseManagerLifecycle: bool,
    registerProcedures: RegistrationOutcome,
    createDatabaseManager: Option<Failure>,
    createSecurityModule: Option<Failure>,
    createDatabases: Option<Failure>,
    databases: map<string, FacadeId>)   // database name -> facade of its context, after creation

  datatype Config = Config(defaultDatabase: string)

  /** Everything a bring-up observes besides the factory and the configuration. */
  datatype Collaborators = Collaborators(
    edition: Edition,
    storeDirectory: string,
    lifeStartFailure: Option<Failure>,
    shutdownFailure: Option<Failure>)

  /** What one bring-up does: its outcome, what it appends to the lifecycle, to the
      dependencies and to the log, whether the lifecycle's start was called, and how many
      times the caller's facade was shut down. */
  datatype Trace = Trace(
    outcome: Outcome,
    life: seq<Participant>,
    deps: seq<Participant>,
    log: seq<LogEntry>,
    startCalled: bool,
    shutdownCalls: nat)

  /* ------------------------------------------------------------------------
     Messages
     ------------------------------------------------------------------------ */

  const IllegalStateException := "java.lang.IllegalStateException"
  const StartFailureLogMessage := "Failed to start database"

  function RegistrationFailedMessage(reason: string): string {
    "Failed to register built-in edition procedures at start up: " + reason
  }

  function StartErrorMessage(className: string, storeDirectory: string): string {
    "Error starting " + className + ", " + storeDirectory
  }

  function DatabaseNotFoundMessage(name: string): string {
    "Database " + name + " not found. Please check the logs for startup errors."
  }

  /** `part` occurs somewhere in `text`. */
  ghost predicate Mentions(text: string, part: string) {
    exists k :: 0 <= k <= |text| && part <= text[k..]
  }

  lemma DatabaseNotFoundMessageNamesDatabase(name: string)
    ensures Mentions(DatabaseNotFoundMessage(name), name)
  {
    var text := DatabaseNotFoundMessage(name);
    assert name <= text[9..];
  }

  lemma StartErrorMessageNamesStore(className: string, storeDirectory: string)
    ensures Mentions(StartErrorMessage(className, storeDirectory), className)
    ensures Mentions(StartErrorMessage(className, storeDirectory), storeDirectory)
  {
    var text := StartErrorMessage(className, storeDirectory);
    assert className <= text[15..];
    assert storeDirectory <= text[17 + |className|..];
  }

  /* ------------------------------------------------------------------------
     Procedure tables
     ------------------------------------------------------------------------ */

  /** The declared type each value class is registered under. */
  function DeclaredType(c: ValueClass): NeoType {
    match c
    case Node | NodeValue => NTNode
    case Relationship | RelationshipValue => NTRelationship
    case Path | PathValue => NTPath
    case Geometry => NTGeometry
    case Point | PointValue => NTPoint
  }

  /** The type registrations, as made: each value class under its declared type. */
  function TypeTable(): (m: map<ValueClass, NeoType>)
    ensures forall c :: c in m && m[c] == DeclaredType(c)
  {
    var m := map[Node := NTNode, NodeValue := NTNode, Relationship := NTRelationship,
                 RelationshipValue := NTRelationship, Path := NTPath, PathValue := NTPath,
                 Geometry := NTGeometry, Point := NTPoint, PointValue := NTPoint];
    assert forall c :: c in m && m[c] == DeclaredType(c) by {
      forall c: ValueClass ensures c in m && m[c] == DeclaredType(c) {
        assert c.Node? || c.NodeValue? || c.Relationship? || c.RelationshipValue? || c.Path? || c.PathValue?
            || c.Geometry? || c.Point? || c.PointValue?;
      }
    }
    m
  }

  /** Components available to every procedure, including ones loaded from plugins. */
  predicate IsPublic(c: Component) {
    c in {Log, ProcedureTransaction, TerminationGuard, SecurityContext, FulltextAdapter}
  }

  /** The component registrations, in the order they are made. */
  function ComponentRegistrations(): (r: seq<ComponentRegistration>)
    ensures |r| == 9
    ensures forall i :: 0 <= i < |r| ==> r[i].isPublic == IsPublic(r[i].component)
    ensures forall i, j :: 0 <= i < j < |r| ==> r[i].component != r[j].component
  {
    [ ComponentRegistration(DependencyResolver, false),
      ComponentRegistration(KernelTransaction, false),
      ComponentRegistration(GraphDatabaseAPI, false),
      ComponentRegistration(Log, true),
      ComponentRegistration(ProcedureTransaction, true),
      ComponentRegistration(TerminationGuard, true),
      ComponentRegistration(SecurityContext, true),
      ComponentRegistration(FulltextAdapter, true),
      ComponentRegistration(DataCollector, false) ]
  }

  lemma EveryComponentRegistered(c: Component)
    ensures exists i :: 0 <= i < |ComponentRegistrations()| && ComponentRegistrations()[i].component == c
  {
    var r := ComponentRegistrations();
    var i := match c
      case DependencyResolver => 0
      case KernelTransaction => 1
      case GraphDatabaseAPI => 2
      case Log => 3
      case ProcedureTransaction => 4
      case TerminationGuard => 5
      case SecurityContext => 6
      case FulltextAdapter => 7
      case DataCollector => 8;
    assert r[i].component == c;
  }

  lemma EveryDeclaredTypeIsRegistered(t: NeoType)
    ensures exists c :: DeclaredType(c) == t
  {
    var c := match t
      case NTNode => Node
      case NTRelationship => Relationship
      case NTPath => Path
      case NTGeometry => Geometry
      case NTPoint => Point;
    assert DeclaredType(c) == t;
  }

  /* ------------------------------------------------------------------------
     Specification of one bring-up
     ------------------------------------------------------------------------ */

  /** The database manager joins the global lifecycle only when the edition does not
      manage its lifecycle itself. */
  function ManagerLifecycle(e: Edition): (r: seq<Participant>)
    ensures DatabaseManager in r <==> !e.handlesDatabaseManagerLifecycle
    ensures r == [] || r == [DatabaseManager]
  {
    if e.handlesDatabaseManagerLifecycle then [] else [DatabaseManager]
  }

  /** The first failure inside the guarded part: database creation, lifecycle start,
      then the lookup of the default database. */
  function PrimaryFailure(e: Edition, lifeStartFailure: Option<Failure>, defaultDatabase: string): (r: Option<Failure>)
    ensures r.None? <==> e.createDatabases.None? && lifeStartFailure.None? && defaultDatabase in e.databases
    ensures e.createDatabases.Some? ==> r == e.createDatabases
    ensures e.createDatabases.None? && lifeStartFailure.Some? ==> r == lifeStartFailure
    ensures e.createDatabases.None? && lifeStartFailure.None? && defaultDatabase !in e.databases ==>
              r == Some(Failure(IllegalStateException, DatabaseNotFoundMessage(defaultDatabase)))
  {
    if e.createDatabases.Some? then e.createDatabases
    else if lifeStartFailure.Some? then lifeStartFailure
    else if defaultDatabase !in e.databases then
      Some(Failure(IllegalStateException, DatabaseNotFoundMessage(defaultDatabase)))
    else None
  }

  /** The edition calls before the guarded part all return normally. */
  predicate ReachesGuardedPart(e: Edition) {
    !e.registerProcedures.OtherFailure? && e.createDatabaseManager.None? && e.createSecurityModule.None?
  }

  /** What the wiring before the guarded part does: the failure that escapes it, if
      any, and what it appends to the lifecycle, the dependencies and the log. */
  datatype Wiring = Wiring(escaped: Option<Failure>, life: seq<Participant>, deps: seq<Participant>, log: seq<LogEntry>)

  function Wire(e: Edition): (w: Wiring)
    ensures w.escaped.None? <==> ReachesGuardedPart(e)
  {
    if e.registerProcedures.OtherFailure? then
      Wiring(Some(e.registerProcedures.failure), [], [], [])
    else
      var log := if e.registerProcedures.KernelFailure?
        then [InternalError(RegistrationFailedMessage(e.registerProcedures.reason))] else [];
      var life0 := [ProceduresRegistry];
      var deps0 := [ProceduresRegistry, NonTransactionalDbmsOperations];
      if e.createDatabaseManager.Some? then
        Wiring(e.createDatabaseManager, life0, deps0, log)
      else
        var life1 := life0 + ManagerLifecycle(e);
        var deps1 := deps0 + [DatabaseManager];
        if e.createSecurityModule.Some? then
          Wiring(e.createSecurityModule, life1, deps1, log)
        else
          Wiring(None,
                 life1 + [GlobalExtensions, BoltServer, StartupWaiter, PageCacheTracerMetricsPublisher],
                 deps1 + [AuthManager, UserManagerSupplier, GlobalTransactionCounter, SchemaWriteGuard],
                 log)
  }

  /** What the guarded part and its failure handling do: the outcome, whether the
      lifecycle's start was called, how often the caller's facade was shut down, and what
      was logged. */
  datatype GuardedRun = GuardedRun(outcome: Outcome, startCalled: bool, shutdownCalls: nat, log: seq<LogEntry>)

  function Guarded(className: string, c: Collaborators, config: Config): (g: GuardedRun)
    ensures g.outcome.Err? <==> g.shutdownCalls == 1
    ensures g.shutdownCalls <= 1 && !g.outcome.Propagated?
    ensures g.outcome.Ok? ==> g.startCalled
  {
    var e := c.edition;
    var startCalled := e.createDatabases.None?;
    var primary := PrimaryFailure(e, c.lifeStartFailure, config.defaultDatabase);
    if primary.None? then
      GuardedRun(Ok(e.databases[config.defaultDatabase]), startCalled, 0, [])
    else
      var error := StartupError(StartErrorMessage(className, c.storeDirectory), primary.value,
                                OptionToSeq(c.shutdownFailure));
      GuardedRun(Err(error), startCalled, 1, [StartFailureLogged(StartFailureLogMessage, error)])
  }

  /** What a bring-up by a factory of class `className` does. */
  function Expected(className: string, c: Collaborators, config: Config): (t: Trace)
    ensures t.outcome.Err? <==> t.shutdownCalls == 1
    ensures t.shutdownCalls <= 1
    ensures t.outcome.Propagated? <==> !ReachesGuardedPart(c.edition)
    ensures t.outcome.Propagated? ==> !t.startCalled
    ensures t.outcome.Ok? ==> t.startCalled
  {
    var w := Wire(c.edition);
    if w.escaped.Some? then
      Trace(Propagated(w.escaped.value), w.life, w.deps, w.log, false, 0)
    else
      var g := Guarded(className, c, config);
      Trace(g.outcome, w.life, w.deps, w.log + g.log, g.startCalled, g.shutdownCalls)
  }

  /* ------------------------------------------------------------------------
     Properties of a bring-up
     ------------------------------------------------------------------------ */

  /** `a` occurs before `b` in `s`. */
  ghost predicate Precedes(s: seq<Participant>, a: Participant, b: Participant) {
    exists i, j :: 0 <= i < j < |s| && s[i] == a && s[j] == b
  }

  predicate NoDuplicates(s: seq<Participant>) {
    forall i, j :: 0 <= i < j < |s| ==> s[i] != s[j]
  }

  /** Exactly one owner starts and stops the database manager: the global lifecycle
      when the edition does not manage it, the edition otherwise. It is published as
      a dependency either way. */
  lemma DatabaseManagerOwnership(className: string, c: Collaborators, config: Config)
    requires !c.edition.registerProcedures.OtherFailure? && c.edition.createDatabaseManager.None?
    ensures var t := Expected(className, c, config);
      && (DatabaseManager in t.life <==> !c.edition.handlesDatabaseManagerLifecycle)
      && multiset(t.life)[DatabaseManager] == (if c.edition.handlesDatabaseManagerLifecycle then 0 else 1)
      && DatabaseManager in t.deps
  {
  }

  /** Once the guarded part is reached, the lifecycle has received the procedures
      registry, then the database manager (when the lifecycle owns it), then global
      extensions, the Bolt server, the startup waiter and the metrics publisher, each
      once and nothing else. */
  lemma LifecycleOrder(className: string, c: Collaborators, config: Config)
    requires ReachesGuardedPart(c.edition)
    ensures var t := Expected(className, c, config);
      && NoDuplicates(t.life)
      && (forall p :: p in t.life ==> p in {ProceduresRegistry, DatabaseManager, GlobalExtensions,
                                            BoltServer, StartupWaiter, PageCacheTracerMetricsPublisher})
      && Precedes(t.life, ProceduresRegistry, GlobalExtensions)
      && Precedes(t.life, GlobalExtensions, BoltServer)
      && Precedes(t.life, BoltServer, StartupWaiter)
      && Precedes(t.life, StartupWaiter, PageCacheTracerMetricsPublisher)
      && (!c.edition.handlesDatabaseManagerLifecycle ==>
            Precedes(t.life, ProceduresRegistry, DatabaseManager) && Precedes(t.life, DatabaseManager, GlobalExtensions))
  {
    var t := Expected(className, c, config);
    var k := |ManagerLifecycle(c.edition)|;
    assert t.life == [ProceduresRegistry] + ManagerLifecycle(c.edition)
                     + [GlobalExtensions, BoltServer, StartupWaiter, PageCacheTracerMetricsPublisher];
    assert t.life[0] == ProceduresRegistry && t.life[k + 1] == GlobalExtensions;
    assert t.life[k + 2] == BoltServer && t.life[k + 3] == StartupWaiter;
    assert t.life[k + 4] == PageCacheTracerMetricsPublisher;
    if !c.edition.handlesDatabaseManagerLifecycle {
      assert t.life[1] == DatabaseManager;
    }
  }

  /** Once the guarded part is reached, the dependencies published are the procedures
      registry, the non-transactional operations, the database manager, the auth
      manager, the user-manager supplier, the transaction counter and the schema
      write guard, in that order, each once. */
  lemma DependencyOrder(className: string, c: Collaborators, config: Config)
    requires ReachesGuardedPart(c.edition)
    ensures var t := Expected(className, c, config);
      && |t.deps| == 7
      && NoDuplicates(t.deps)
      && Precedes(t.deps, ProceduresRegistry, NonTransactionalDbmsOperations)
      && Precedes(t.deps, NonTransactionalDbmsOperations, DatabaseManager)
      && Precedes(t.deps, DatabaseManager, AuthManager)
      && Precedes(t.deps, AuthManager, UserManagerSupplier)
      && Precedes(t.deps, UserManagerSupplier, GlobalTransactionCounter)
      && Precedes(t.deps, GlobalTransactionCounter, SchemaWriteGuard)
  {
    var d := Expected(className, c, config).deps;
    assert d == [ProceduresRegistry, NonTransactionalDbmsOperations, DatabaseManager, AuthManager,
                 UserManagerSupplier, GlobalTransactionCounter, SchemaWriteGuard];
    assert d[0] == ProceduresRegistry && d[1] == NonTransactionalDbmsOperations && d[2] == DatabaseManager;
    assert d[3] == AuthManager && d[4] == UserManagerSupplier;
    assert d[5] == GlobalTransactionCounter && d[6] == SchemaWriteGuard;
  }

  /** The same collaborators with every call before the guarded part returning normally. */
  function Unfailing(c: Collaborators): (c': Collaborators)
    ensures ReachesGuardedPart(c'.edition)
  {
    var e := c.edition;
    var reg := if e.registerProcedures.OtherFailure? then Registered else e.registerProcedures;
    c.(edition := e.(registerProcedures := reg, createDatabaseManager := None, createSecurityModule := None))
  }

  /** A bring-up that fails before the guarded part has appended a prefix of what a
      complete bring-up appends: the steps run strictly in sequence. */
  lemma PartialBringUpIsPrefix(className: string, c: Collaborators, config: Config)
    ensures Expected(className, c, config).life <= Expected(className, Unfailing(c), config).life
    ensures Expected(className, c, config).deps <= Expected(className, Unfailing(c), config).deps
  {
  }

  /** A failure before the guarded part escapes unwrapped: no shutdown, no start, and
      the escaping failure is the first one raised. */
  lemma EarlyFailurePropagatesUnwrapped(className: string, c: Collaborators, config: Config)
    requires !ReachesGuardedPart(c.edition)
    ensures var t := Expected(className, c, config);
      var e := c.edition;
      && t.shutdownCalls == 0
      && !t.startCalled
      && t.outcome == Propagated(
           if e.registerProcedures.OtherFailure? then e.registerProcedures.failure
           else if e.createDatabaseManager.Some? then e.createDatabaseManager.value
           else e.createSecurityModule.value)
  {
  }

  /** Any failure other than a KernelException from the edition's procedure
      registration escapes before the registry joins the lifecycle. */
  lemma NonKernelRegistrationFailureEscapes(className: string, c: Collaborators, config: Config)
    requires c.edition.registerProcedures.OtherFailure?
    ensures var t := Expected(className, c, config);
      t.outcome == Propagated(c.edition.registerProcedures.failure) && t.life == [] && t.deps == []
  {
  }

  /** A KernelException from the edition's procedure registration is logged and
      swallowed: everything else about the bring-up is as if registration succeeded. */
  lemma KernelRegistrationFailureSwallowed(className: string, c: Collaborators, config: Config, reason: string)
    requires c.edition.registerProcedures == Registered
    ensures var ok := Expected(className, c, config);
      var failed := Expected(className, c.(edition := c.edition.(registerProcedures := KernelFailure(reason))), config);
      && failed.outcome == ok.outcome
      && failed.life == ok.life
      && failed.deps == ok.deps
      && failed.startCalled == ok.startCalled
      && failed.shutdownCalls == ok.shutdownCalls
      && failed.log == [InternalError(RegistrationFailedMessage(reason))] + ok.log
      && ProceduresRegistry in failed.life && ProceduresRegistry in failed.deps
  {
  }

  /** Inside the guarded part, a failure of database creation, of the lifecycle's
      start or of the default-database lookup becomes the cause of one startup error
      naming the factory and the store; the caller's facade is shut down once, a
      shutdown failure is attached as suppressed, and the error is logged. */
  lemma GuardedFailureIsWrapped(className: string, c: Collaborators, config: Config)
    requires ReachesGuardedPart(c.edition)
    ensures var t := Expected(className, c, config);
      var e := c.edition;
      && (t.outcome.Err? <==>
            e.createDatabases.Some? || c.lifeStartFailure.Some? || config.defaultDatabase !in e.databases)
      && (t.outcome.Err? ==>
            && t.outcome.error.message == StartErrorMessage(className, c.storeDirectory)
            && t.outcome.error.cause == PrimaryFailure(e, c.lifeStartFailure, config.defaultDatabase).value
            && t.outcome.error.suppressed == OptionToSeq(c.shutdownFailure)
            && t.shutdownCalls == 1
            && t.log[|t.log| - 1] == StartFailureLogged(StartFailureLogMessage, t.outcome.error))
      && (e.createDatabases.Some? ==> !t.startCalled)
  {
  }

  /** A failing shutdown never replaces the primary failure: with or without it the
      thrown error has the same message and cause. */
  lemma ShutdownFailureNeverReplacesPrimary(className: string, c: Collaborators, config: Config, shutdownFailure: Failure)
    requires c.shutdownFailure.None?
    ensures var quiet := Expected(className, c, config);
      var noisy := Expected(className, c.(shutdownFailure := Some(shutdownFailure)), config);
      && (quiet.outcome.Err? <==> noisy.outcome.Err?)
      && (quiet.outcome.Err? ==>
            && noisy.outcome.error.message == quiet.outcome.error.message
            && noisy.outcome.error.cause == quiet.outcome.error.cause
            && noisy.outcome.error.suppressed == quiet.outcome.error.suppressed + [shutdownFailure])
      && (!quiet.outcome.Err? ==> noisy == quiet)
  {
  }

  /** Success returns the facade of the configured default database's context and
      never shuts the caller's facade down. */
  lemma SuccessReturnsDefaultDatabase(className: string, c: Collaborators, config: Config)
    ensures var t := Expected(className, c, config);
      var e := c.edition;
      && (t.outcome.Ok? <==>
            ReachesGuardedPart(e) && e.createDatabases.None? && c.lifeStartFailure.None?
            && config.defaultDatabase in e.databases)
      && (t.outcome.Ok? ==>
            t.outcome.facade == e.databases[config.defaultDatabase] && t.shutdownCalls == 0 && t.startCalled)
  {
  }

  /** A default database that was never created surfaces as an IllegalStateException
      naming it, wrapped as the cause of the startup error. */
  lemma MissingDefaultDatabase(className: string, c: Collaborators, config: Config)
    requires ReachesGuardedPart(c.edition)
    requires c.edition.createDatabases.None? && c.lifeStartFailure.None?
    requires config.defaultDatabase !in c.edition.databases
    ensures var t := Expected(className, c, config);
      && t.outcome.Err?
      && t.outcome.error.cause == Failure(IllegalStateException, DatabaseNotFoundMessage(config.defaultDatabase))
      && Mentions(t.outcome.error.cause.message, config.defaultDatabase)
  {
    DatabaseNotFoundMessageNamesDatabase(config.defaultDatabase);
  }

  /* ------------------------------------------------------------------------
     Collaborating objects
     ------------------------------------------------------------------------ */

  /** The global procedures registry: its type mappings and component registrations. */
  class GlobalProceduresRegistry {
    var types: map<ValueClass, NeoType>
    var components: seq<ComponentRegistration>

    constructor ()
      ensures types == map[] && components == []
    {
      types := map[];
      components := [];
    }

    method RegisterType(c: ValueClass, t: NeoType)
      modifies this`types
      ensures types == old(types)[c := t]
    {
      types := types[c := t];
    }

    method RegisterComponent(c: Component, isPublic: bool)
      modifies this`components
      ensures components == old(components) + [ComponentRegistration(c, isPublic)]
    {
      components := components + [ComponentRegistration(c, isPublic)];
    }
  }

  /** The global module: its lifecycle, its dependency registry and its log, the store
      directory of its layout, and how the lifecycle's start ends. */
  class GlobalModule {
    const storeDirectory: string
    const lifeStartFailure: Option<Failure>
    var life: seq<Participant>
    var deps: seq<Participant>
    var log: seq<LogEntry>
    var startCalled: bool   // `start()` was called, whether or not it threw

    constructor (storeDirectory: string, lifeStartFailure: Option<Failure>, life: seq<Participant>, deps: seq<Participant>)
      ensures this.storeDirectory == storeDirectory && this.lifeStartFailure == lifeStartFailure
      ensures this.life == life && this.deps == deps && log == [] && !startCalled
    {
      this.storeDirectory := storeDirectory;
      this.lifeStartFailure := lifeStartFailure;
      this.life := life;
      this.deps := deps;
      log := [];
      startCalled := false;
    }

    method AddToLife(p: Participant)
      modifies this`life
      ensures life == old(life) + [p]
    {
      life := life + [p];
    }

    method SatisfyDependency(p: Participant)
      modifies this`deps
      ensures deps == old(deps) + [p]
    {
      deps := deps + [p];
    }

    method Log(entry: LogEntry)
      modifies this`log
      ensures log == old(log) + [entry]
    {
      log := log + [entry];
    }

    method StartLife() returns (thrown: Option<Failure>)
      modifies this`startCalled
      ensures startCalled && thrown == lifeStartFailure
    {
      startCalled := true;
      thrown := lifeStartFailure;
    }
  }

  /** The caller's facade: how often it was shut down and how its shutdown ends. */
  class GraphDatabaseFacade {
    const shutdownFailure: Option<Failure>
    var shutdownCalls: nat

    constructor (shutdownFailure: Option<Failure>)
      ensures this.shutdownFailure == shutdownFailure && shutdownCalls == 0
    {
      this.shutdownFailure := shutdownFailure;
      shutdownCalls := 0;
    }

    method Shutdown() returns (thrown: Option<Failure>)
      modifies this`shutdownCalls
      ensures shutdownCalls == old(shutdownCalls) + 1 && thrown == shutdownFailure
    {
      shutdownCalls := shutdownCalls + 1;
      thrown := shutdownFailure;
    }
  }

  /* ------------------------------------------------------------------------
     The factory
     ------------------------------------------------------------------------ */

  class GraphDatabaseFacadeFactory {
    /** The runtime class name of the factory, as the startup error reports it. */
    const className: string
    /** The edition module the edition factory builds from the global module. */
    const edition: Edition

    constructor (className: string, edition: Edition)
      ensures this.className == className && this.edition == edition
    {
      this.className := className;
      this.edition := edition;
    }

    /** Brings up a database with a fresh facade of the caller's. */
    method NewFacade(platform: GlobalModule, config: Config, shutdownFailure: Option<Failure>)
      returns (outcome: Outcome, facade: GraphDatabaseFacade)
      modifies platform
      ensures fresh(facade)
      ensures var t := Expected(className, Collaborators(edition, platform.storeDirectory, platform.lifeStartFailure,
                                                         shutdownFailure), config);
        && outcome == t.outcome
        && platform.life == old(platform.life) + t.life
        && platform.deps == old(platform.deps) + t.deps
        && platform.log == old(platform.log) + t.log
        && platform.startCalled == (old(platform.startCalled) || t.startCalled)
        && facade.shutdownCalls == t.shutdownCalls
    {
      facade := new GraphDatabaseFacade(shutdownFailure);
      outcome := InitFacade(platform, config, facade);
    }

    /** Brings up a database whose configuration is built from raw parameters by `defaults`. */
    method InitFacadeFromParams(platform: GlobalModule, params: map<string, string>,
                                defaults: map<string, string> -> Config, facade: GraphDatabaseFacade)
      returns (outcome: Outcome)
      modifies platform, facade
      ensures var t := Expected(className, Collaborators(edition, platform.storeDirectory, platform.lifeStartFailure,
                                                         facade.shutdownFailure), defaults(params));
        && outcome == t.outcome
        && platform.life == old(platform.life) + t.life
        && platform.deps == old(platform.deps) + t.deps
        && platform.log == old(platform.log) + t.log
        && platform.startCalled == (old(platform.startCalled) || t.startCalled)
        && facade.shutdownCalls == old(facade.shutdownCalls) + t.shutdownCalls
    {
      outcome := InitFacade(platform, defaults(params), facade);
    }

    /** Brings up a database on `platform`, the global module built for the store. */
    method InitFacade(platform: GlobalModule, config: Config, facade: GraphDatabaseFacade)
      returns (outcome: Outcome)
      modifies platform, facade
      ensures var t := Expected(className, Collaborators(edition, platform.storeDirectory, platform.lifeStartFailure,
                                                         facade.shutdownFailure), config);
        && outcome == t.outcome
        && platform.life == old(platform.life) + t.life
        && platform.deps == old(platform.deps) + t.deps
        && platform.log == old(platform.log) + t.log
        && platform.startCalled == (old(platform.startCalled) || t.startCalled)
        && facade.shutdownCalls == old(facade.shutdownCalls) + t.shutdownCalls
    {
      var escaped := WireModules(platform);
      if escaped.Some? {
        return Propagated(escaped.value);
      }
      ghost var g := Guarded(className, Collaborators(edition, platform.storeDirectory, platform.lifeStartFailure,
                                                      facade.shutdownFailure), config);

      var error: Option<StartupError> := None;
      var databaseFacade: Option<FacadeId> := None;
      // try
      var thrown := edition.createDatabases;
      if thrown.None? {
        thrown := platform.StartLife();
        if thrown.None? {
          var name := config.defaultDatabase;
          if name in edition.databases {
            databaseFacade := Some(edition.databases[name]);
          } else {
            thrown := Some(Failure(IllegalStateException, DatabaseNotFoundMessage(name)));
          }
        }
      }
      // catch
      if thrown.Some? {
        error := Some(StartupError(StartErrorMessage(className, platform.storeDirectory), thrown.value, []));
      }
      // finally
      if error.Some? {
        var shutdownError := facade.Shutdown();
        if shutdownError.Some? {
          error := Some(error.value.(suppressed := error.value.suppressed + [shutdownError.value]));
        }
      }

      if error.Some? {
        assert g.outcome == Err(error.value);
        platform.Log(StartFailureLogged(StartFailureLogMessage, error.value));
        return Err(error.value);
      }
      assert g.outcome == Ok(databaseFacade.value);
      return Ok(databaseFacade.value);
    }

    /** Wires the modules before the guarded part: procedures, the database manager,
        security, the lifecycle participants and the published dependencies. A failure
        here escapes as is. */
    method WireModules(platform: GlobalModule) returns (escaped: Option<Failure>)
      modifies platform
      ensures escaped == Wire(edition).escaped
      ensures platform.life == old(platform.life) + Wire(edition).life
      ensures platform.deps == old(platform.deps) + Wire(edition).deps
      ensures platform.log == old(platform.log) + Wire(edition).log
      ensures platform.startCalled == old(platform.startCalled)
    {
      var registry;
      registry, escaped := SetupProcedures(platform, edition);
      if escaped.Some? {
        return;
      }
      platform.SatisfyDependency(NonTransactionalDbmsOperations);

      escaped := CreateAndInitializeDatabaseManager(platform, edition);
      if escaped.Some? {
        return;
      }

      if edition.createSecurityModule.Some? {
        return edition.createSecurityModule;
      }
      platform.SatisfyDependency(AuthManager);
      platform.SatisfyDependency(UserManagerSupplier);

      platform.AddToLife(GlobalExtensions);
      platform.AddToLife(BoltServer);
      platform.SatisfyDependency(GlobalTransactionCounter);
      platform.AddToLife(StartupWaiter);
      platform.SatisfyDependency(SchemaWriteGuard);
      platform.AddToLife(PageCacheTracerMetricsPublisher);
    }

    /** Creates the global procedures registry, registers the fixed type and component
        tables and the edition's procedures, and publishes the registry. A failure
        other than a KernelException escapes, before the registry is published. */
    static method SetupProcedures(platform: GlobalModule, edition: Edition)
      returns (registry: GlobalProceduresRegistry, escaped: Option<Failure>)
      modifies platform
      ensures fresh(registry)
      ensures registry.types == TypeTable()
      ensures registry.components == ComponentRegistrations()
      ensures escaped.Some? <==> edition.registerProcedures.OtherFailure?
      ensures escaped.Some? ==> escaped.value == edition.registerProcedures.failure
      ensures platform.life == old(platform.life) + (if escaped.Some? then [] else [ProceduresRegistry])
      ensures platform.deps == old(platform.deps) + (if escaped.Some? then [] else [ProceduresRegistry])
      ensures platform.log == old(platform.log) +
        (if edition.registerProcedures.KernelFailure?
         then [InternalError(RegistrationFailedMessage(edition.registerProcedures.reason))] else [])
      ensures platform.startCalled == old(platform.startCalled)
    {
      registry := new GlobalProceduresRegistry();

      registry.RegisterType(Node, NTNode);
      registry.RegisterType(NodeValue, NTNode);
      registry.RegisterType(Relationship, NTRelationship);
      registry.RegisterType(RelationshipValue, NTRelationship);
      registry.RegisterType(Path, NTPath);
      registry.RegisterType(PathValue, NTPath);
      registry.RegisterType(Geometry, NTGeometry);
      registry.RegisterType(Point, NTPoint);
      registry.RegisterType(PointValue, NTPoint);
      assert registry.types == TypeTable();

      // internal components
      registry.RegisterComponent(DependencyResolver, false);
      registry.RegisterComponent(KernelTransaction, false);
      registry.RegisterComponent(GraphDatabaseAPI, false);
      // public components
      registry.RegisterComponent(Log, true);
      registry.RegisterComponent(ProcedureTransaction, true);
      registry.RegisterComponent(TerminationGuard, true);
      registry.RegisterComponent(SecurityContext, true);
      registry.RegisterComponent(FulltextAdapter, true);
      registry.RegisterComponent(DataCollector, false);
      assert registry.components == ComponentRegistrations();

      // edition procedures: only a KernelException is caught
      if edition.registerProcedures.OtherFailure? {
        return registry, Some(edition.registerProcedures.failure);
      }
      if edition.registerProcedures.KernelFailure? {
        platform.Log(InternalError(RegistrationFailedMessage(edition.registerProcedures.reason)));
      }

      platform.AddToLife(ProceduresRegistry);
      platform.SatisfyDependency(ProceduresRegistry);
      escaped := None;
    }

    /** Creates the database manager through the edition, adds it to the global
        lifecycle unless the edition manages its lifecycle, and publishes it. */
    static method CreateAndInitializeDatabaseManager(platform: GlobalModule, edition: Edition)
      returns (escaped: Option<Failure>)
      modifies platform
      ensures escaped == edition.createDatabaseManager
      ensures platform.life == old(platform.life) + (if escaped.Some? then [] else ManagerLifecycle(edition))
      ensures platform.deps == old(platform.deps) + (if escaped.Some? then [] else [DatabaseManager])
      ensures platform.log == old(platform.log) && platform.startCalled == old(platform.startCalled)
    {
      if edition.createDatabaseManager.Some? {
        return edition.createDatabaseManager;
      }
      if !edition.handlesDatabaseManagerLifecycle {
        platform.AddToLife(DatabaseManager);
      }
      platform.SatisfyDependency(DatabaseManager);
      escaped := None;
    }
  }
}
