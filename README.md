# Bring-up of an embedded Neo4j instance

This project models `GraphDatabaseFacadeFactory`, the class that brings up an embedded
Neo4j database. It builds the procedures registry and creates the database manager
through the edition module. It adds participants to the global lifecycle and publishes
instances to the global dependency registry. It then creates the databases, starts the
lifecycle and returns the facade of the default database.

The factory is imperative, so the model is imperative too. `GlobalModule` holds the global
lifecycle (`life`), the dependency registry (`deps`) and the log as sequences. The
methods append to these sequences. `GlobalProceduresRegistry` holds the type map and the
component registrations, and `GraphDatabaseFacade` counts its shutdowns. The factory's
methods (`InitFacade`, `WireModules`, `SetupProcedures`,
`CreateAndInitializeDatabaseManager`) are proved against pure specification functions:
`Wire` covers the wiring before the `try`, `Guarded` covers the `try`/`catch`/`finally`,
and `Expected` covers the whole bring-up. The lemmas state what the source promises
about `Expected`.

Collaborators whose code is not part of this model appear only as the outcomes they
produce:
- the edition module (`Edition`): whether it manages the database manager's lifecycle, how
  `registerProcedures` ends (normally, with a `KernelException`, or with any other
  throwable), whether `createDatabaseManager`, `createSecurityModule` or
  `createDatabases` throw, and which databases exist afterwards with their facades;
- the global module: its store directory, and whether `globalLife.start()` throws;
- the caller's facade: whether its `shutdown()` throws;
- the configuration: the default database's name.

A Java throwable is modelled as `Failure(kind, message)`. The `RuntimeException` thrown on
a failed start is a `StartupError`, which holds its message, its cause and its suppressed
failures. A bring-up ends in exactly one of three ways, so it never both returns and
throws:
- `Ok(facade)`: the default database's facade is returned;
- `Err(error)`: the wrapped startup error is thrown;
- `Propagated(failure)`: a failure from before the `try` escapes unwrapped.

Two behaviours of the code are easy to misread, and the model follows the code in both:
- `DataCollector` is registered with `false`, so it is internal, not public
  (GraphDatabaseFacadeFactory.java line 251).
- A failure in `createDatabaseManager` happens before the `try`. It escapes unwrapped, and
  the facade is not shut down.

## Model

| member | source | states |
|---|---|---|
| `FacadeFactory.GraphDatabaseFacadeFactory.constructor` | community/neo4j/src/main/java/org/neo4j/graphdb/facade/GraphDatabaseFacadeFactory.java:91-96 | The factory keeps its class name and the edition its edition factory yields. |
| `FacadeFactory.GraphDatabaseFacadeFactory.NewFacade` | community/neo4j/src/main/java/org/neo4j/graphdb/facade/GraphDatabaseFacadeFactory.java:106-109 | Bring-up with a freshly created facade has exactly the effects `Expected` gives: outcome, lifecycle, dependencies, log, whether the lifecycle's start was called, and shutdown count. |
| `FacadeFactory.GraphDatabaseFacadeFactory.InitFacadeFromParams` | community/neo4j/src/main/java/org/neo4j/graphdb/facade/GraphDatabaseFacadeFactory.java:121-125 | Bring-up from raw parameters has exactly `Expected`'s effects for the configuration built from them: outcome, lifecycle, dependencies, log, whether the lifecycle's start was called, and shutdown count. |
| `FacadeFactory.GraphDatabaseFacadeFactory.InitFacade` | community/neo4j/src/main/java/org/neo4j/graphdb/facade/GraphDatabaseFacadeFactory.java:137-202 | The outcome equals `Expected`'s. The lifecycle, dependencies and log are the old ones with `Expected`'s appends. The lifecycle's start has been called iff it was before or `Expected` calls it. The facade's shutdown count grows by `Expected`'s. |
| `FacadeFactory.GraphDatabaseFacadeFactory.WireModules` | community/neo4j/src/main/java/org/neo4j/graphdb/facade/GraphDatabaseFacadeFactory.java:140-162 | The wiring before the `try` appends exactly what `Wire` gives and escapes with `Wire`'s failure. |
| `FacadeFactory.GraphDatabaseFacadeFactory.SetupProcedures` | community/neo4j/src/main/java/org/neo4j/graphdb/facade/GraphDatabaseFacadeFactory.java:212-266 | The fresh registry holds exactly `TypeTable` and `ComponentRegistrations`. A `KernelException` is logged with its reason and the registry is still added to the lifecycle and published. Any other failure escapes before either happens. |
| `FacadeFactory.GraphDatabaseFacadeFactory.CreateAndInitializeDatabaseManager` | community/neo4j/src/main/java/org/neo4j/graphdb/facade/GraphDatabaseFacadeFactory.java:275-286 | A failing `createDatabaseManager` escapes with nothing appended. Otherwise the manager joins the lifecycle only when the edition does not manage it, and it is always published. |
| `FacadeFactory.GlobalProceduresRegistry.RegisterType` | community/neo4j/src/main/java/org/neo4j/graphdb/facade/GraphDatabaseFacadeFactory.java:224 | Registering a type maps the value class to the declared type and leaves the components alone. |
| `FacadeFactory.GlobalProceduresRegistry.RegisterComponent` | community/neo4j/src/main/java/org/neo4j/graphdb/facade/GraphDatabaseFacadeFactory.java:241 | Registering a component appends it with its visibility flag and leaves the types alone. |
| `FacadeFactory.GlobalModule.StartLife` | community/neo4j/src/main/java/org/neo4j/graphdb/facade/GraphDatabaseFacadeFactory.java:169 | Starting the lifecycle records that `start()` was called, whether or not it throws, and throws the configured start failure, if any. |
| `FacadeFactory.GlobalModule.AddToLife` | community/neo4j/src/main/java/org/neo4j/graphdb/facade/GraphDatabaseFacadeFactory.java:157-162 | Adding a participant appends it to the end of the lifecycle and changes nothing else. |
| `FacadeFactory.GlobalModule.SatisfyDependency` | community/neo4j/src/main/java/org/neo4j/graphdb/facade/GraphDatabaseFacadeFactory.java:154-161 | Satisfying a dependency appends it to the end of the dependency registry and changes nothing else. |
| `FacadeFactory.GlobalModule.Log` | community/neo4j/src/main/java/org/neo4j/graphdb/facade/GraphDatabaseFacadeFactory.java:197 | Logging appends one entry to the end of the log and changes nothing else. |
| `FacadeFactory.GraphDatabaseFacade.Shutdown` | community/neo4j/src/main/java/org/neo4j/graphdb/facade/GraphDatabaseFacadeFactory.java:186 | Each shutdown adds one to the facade's shutdown count and throws the configured shutdown failure, if any. |
| `FacadeFactory.TypeTable` | community/neo4j/src/main/java/org/neo4j/graphdb/facade/GraphDatabaseFacadeFactory.java:224-232 | All nine value classes are registered, each under `DeclaredType`. Node and NodeValue map to NTNode, Relationship and RelationshipValue to NTRelationship, Path and PathValue to NTPath, Geometry to NTGeometry, and Point and PointValue to NTPoint. |
| `FacadeFactory.EveryDeclaredTypeIsRegistered` | community/neo4j/src/main/java/org/neo4j/graphdb/facade/GraphDatabaseFacadeFactory.java:224-232 | Each of the five declared types is the image of some registered value class. |
| `FacadeFactory.ComponentRegistrations` | community/neo4j/src/main/java/org/neo4j/graphdb/facade/GraphDatabaseFacadeFactory.java:241-251 | Nine registrations, no component twice. Each flag equals `IsPublic`: Log, ProcedureTransaction, TerminationGuard, SecurityContext and FulltextAdapter are public. DependencyResolver, KernelTransaction, GraphDatabaseAPI and DataCollector are not. |
| `FacadeFactory.EveryComponentRegistered` | community/neo4j/src/main/java/org/neo4j/graphdb/facade/GraphDatabaseFacadeFactory.java:241-251 | Every injectable component is among the registrations. |
| `FacadeFactory.ManagerLifecycle` | community/neo4j/src/main/java/org/neo4j/graphdb/facade/GraphDatabaseFacadeFactory.java:279-283 | The database manager is appended to the lifecycle iff the edition does not handle its lifecycle. Nothing else is appended here. |
| `FacadeFactory.PrimaryFailure` | community/neo4j/src/main/java/org/neo4j/graphdb/facade/GraphDatabaseFacadeFactory.java:166-173 | Inside the `try` there is no failure iff database creation and lifecycle start succeed and the default database exists. A database-creation failure is the one reported. Otherwise a lifecycle-start failure is reported. Otherwise a missing default database is reported as `IllegalStateException` with the not-found message. |
| `FacadeFactory.Wire` | community/neo4j/src/main/java/org/neo4j/graphdb/facade/GraphDatabaseFacadeFactory.java:140-162 | The wiring escapes with no failure iff every edition call before the `try` returns normally. |
| `FacadeFactory.Guarded` | community/neo4j/src/main/java/org/neo4j/graphdb/facade/GraphDatabaseFacadeFactory.java:164-201 | The `try` and its handlers end in a thrown startup error iff the facade is shut down exactly once. They never let a failure escape unwrapped, and success implies the lifecycle's start was called. |
| `FacadeFactory.Expected` | community/neo4j/src/main/java/org/neo4j/graphdb/facade/GraphDatabaseFacadeFactory.java:137-202 | The facade is shut down at most once, and exactly once iff the startup error is thrown. A failure escapes unwrapped iff an edition call before the `try` fails, and then the lifecycle's start is never called. Success implies the start was called. |
| `FacadeFactory.DatabaseManagerOwnership` | community/neo4j/src/main/java/org/neo4j/graphdb/facade/GraphDatabaseFacadeFactory.java:278-284 | The manager is in the lifecycle iff the edition does not manage it, and at most once. It is published as a dependency in both cases. |
| `FacadeFactory.LifecycleOrder` | community/neo4j/src/main/java/org/neo4j/graphdb/facade/GraphDatabaseFacadeFactory.java:145-162 | Participants are added in this order, each once and nothing else: the procedures registry, then the database manager (only when the lifecycle owns it), then global extensions, the Bolt server, the startup waiter and the metrics publisher. |
| `FacadeFactory.DependencyOrder` | community/neo4j/src/main/java/org/neo4j/graphdb/facade/GraphDatabaseFacadeFactory.java:145-161 | Seven dependencies are published, each once, in this order: the procedures registry, the non-transactional operations, the database manager, the auth manager, the user-manager supplier, the transaction counter and the schema write guard. |
| `FacadeFactory.PartialBringUpIsPrefix` | community/neo4j/src/main/java/org/neo4j/graphdb/facade/GraphDatabaseFacadeFactory.java:140-162 | A bring-up that fails before the `try` has appended a prefix of what a complete wiring appends, to both the lifecycle and the dependencies. |
| `FacadeFactory.EarlyFailurePropagatesUnwrapped` | community/neo4j/src/main/java/org/neo4j/graphdb/facade/GraphDatabaseFacadeFactory.java:140-162 | A failure before the `try` is rethrown as it is: the first one raised, with no shutdown and no start. |
| `FacadeFactory.NonKernelRegistrationFailureEscapes` | community/neo4j/src/main/java/org/neo4j/graphdb/facade/GraphDatabaseFacadeFactory.java:254-265 | A throwable other than a `KernelException` from edition procedure registration escapes before anything is added to the lifecycle or the dependencies. |
| `FacadeFactory.KernelRegistrationFailureSwallowed` | community/neo4j/src/main/java/org/neo4j/graphdb/facade/GraphDatabaseFacadeFactory.java:254-265 | A `KernelException` changes nothing but the log. The outcome, lifecycle, dependencies, start and shutdowns match a successful registration, and one error line comes first in the log. The registry is still added to the lifecycle and published. |
| `FacadeFactory.GuardedFailureIsWrapped` | community/neo4j/src/main/java/org/neo4j/graphdb/facade/GraphDatabaseFacadeFactory.java:166-199 | The startup error is thrown iff database creation, lifecycle start or the default-database lookup fails. Its message names the factory class and store directory, and its cause is the first failure. The shutdown failure, if any, is its only suppressed failure. The facade is shut down once, and the error is the last log entry. A database-creation failure means the lifecycle's start is never called. |
| `FacadeFactory.ShutdownFailureNeverReplacesPrimary` | community/neo4j/src/main/java/org/neo4j/graphdb/facade/GraphDatabaseFacadeFactory.java:180-193 | A failing shutdown keeps the thrown error's message and cause and only appends itself to the suppressed failures. When no error is thrown it changes nothing. |
| `FacadeFactory.SuccessReturnsDefaultDatabase` | community/neo4j/src/main/java/org/neo4j/graphdb/facade/GraphDatabaseFacadeFactory.java:166-201 | The bring-up returns iff nothing fails and the default database exists. It then returns that database's facade, has called the lifecycle's start, and never shuts down the caller's facade. |
| `FacadeFactory.MissingDefaultDatabase` | community/neo4j/src/main/java/org/neo4j/graphdb/facade/GraphDatabaseFacadeFactory.java:170-172 | A missing default database is the cause `IllegalStateException("Database <name> not found. Please check the logs for startup errors.")`, and the message names the database. |
| `FacadeFactory.DatabaseNotFoundMessageNamesDatabase` | community/neo4j/src/main/java/org/neo4j/graphdb/facade/GraphDatabaseFacadeFactory.java:171-172 | The not-found message contains the missing database's name. |
| `FacadeFactory.StartErrorMessageNamesStore` | community/neo4j/src/main/java/org/neo4j/graphdb/facade/GraphDatabaseFacadeFactory.java:177-178 | The startup error's message contains the factory's class name and the store directory. |

## Left out

- The construction of the global module (`createGlobalModule`, `GlobalModule`) is not modelled. `InitFacade` receives the module it would build, with any lifecycle and dependencies that module already holds.
- The edition factory's application, `getSecurityProvider`, the Bolt server's construction, `StartupWaiter` and the page-cache metrics publisher are not modelled, because their code is not part of this model. Each appears only as a tag in the lifecycle or the dependencies. Of the calls before the `try`, only `registerProcedures`, `createDatabaseManager` and `createSecurityModule` are modelled as able to throw.
- `LifeSupport`'s start and stop, including reverse-order rollback of started participants, are not modelled. The model only records that `start()` was called and whether it throws.
- `FacadeFactory.GlobalProceduresRegistry.RegisterType` and `FacadeFactory.GlobalProceduresRegistry.RegisterComponent` do not model duplicate-name handling inside the registry, because that code is not part of this model. A repeated type simply overwrites its entry, and the factory never repeats one.
- The built-in procedures, the plugin directory, the procedure configuration and the component providers (the lambdas) are not modelled. A component is its class and its visibility flag.
- `FacadeFactory.GraphDatabaseFacadeFactory.InitFacadeFromParams` takes `Config.defaults` as a function parameter, because its code is not part of this model.
- Logging is a list of entries. Log levels, loggers and formatting are not modelled. `getClass().getName()` is the factory's `className`.
- Concurrency, Bolt networking, startup timeouts and version strings are not modelled.
