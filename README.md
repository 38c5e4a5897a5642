# bdf-prime-events, modelled in Dafny

bdf-prime-events turns the MySQL replication stream into entity events for
the Prime ORM. An `EntityEventsConsumer` binds entity classes to
`EntityEventsListener`s (one per class, also indexed by the class's table).
It opens the replication stream with a configuration derived from the bound
entities, and routes each row of a write, update or delete event to the
listener bound to the event's table. That listener turns the row into an
entity, logs the event and calls its insert, update or delete callbacks. The
consumer keeps the binlog position of the last event and saves it in a
checkpoint file when it stops; the constructor loads it back. A
`ConsumersFactory` holds the registered listeners and the per-connection
`ConsumerConfiguration`s. It builds the consumer of one connection, with
every listener whose entity lives on it.

The model has one module per part:

- `Base`: option, result and outcome types, the errors the PHP code raises,
  PHP scalars, string truthiness, `??`, ASCII lower-casing and integer-to-text
  conversion.
- `Replication`: the parts of the replication library the consumer uses
  (positions, row events, the `ConfigBuilder` and its settings, the stream).
- `Orm`: entity metadata (table, connection) and row hydration.
- `Environment`: the checkpoint filesystem, and a `Trace` of log records and
  callback calls in the order they happen.
- `Configuration`: `ConsumerConfiguration`.
- `Listeners`: `EntityEventsListener`.
- `Consumers`: `EntityEventsConsumer`.
- `Factory`: `ConsumersFactory`.

The classes whose fields the PHP code updates are Dafny classes with those
fields: the consumer's two registries, its stream and its position; a
listener's three callback lists; the factory's configurations and listeners.
Their methods are proved against specification functions, and lemmas state
what those functions guarantee: a deduplicated database filter, one table
per entity, the first non-null credentials, the configurator having the last
word, routing to the bound listener only, per-row order, and the filter that
keeps registration order.

## Model

| member | source | states |
|---|---|---|
| Replication.SettingForMatches | src/Factory/ConsumerConfiguration.php:45-47 | a configuration key selects the builder method whose name is `with` + key up to ASCII case, and selects none when no method name matches |
| Configuration.Lookup | src/Factory/ConsumerConfiguration.php:34 | the value stored under a key is found exactly when the array has that key, and it is that key's value |
| Configuration.ConsumerConfiguration.LogPositionFile | src/Factory/ConsumerConfiguration.php:32-35 | the checkpoint file is the `logPositionFile` entry (an integer becomes its decimal text); it is null exactly when the entry is absent or null |
| Configuration.ConsumerConfiguration.Configure | src/Factory/ConsumerConfiguration.php:42-51 | the builder ends up with the settings of applying `with<key>(value)` for every entry, in order, skipping keys without a method |
| Configuration.AppliedTakes | src/Factory/ConsumerConfiguration.php:44-49 | a setting named by some entry takes the value of the last entry that names it |
| Configuration.AppliedKeeps | src/Factory/ConsumerConfiguration.php:44-49 | a setting no entry names keeps its presence and its value |
| Configuration.AppliedSkipsUnknown | src/Factory/ConsumerConfiguration.php:47-49 | an entry whose key names no builder method changes nothing, wherever it stands |
| Listeners.EntityEventsListener.constructor | src/EntityEventsListener.php:50-56 | a new listener is bound to its entity class and logger and has no callbacks |
| Listeners.EntityEventsListener.Inserted | src/EntityEventsListener.php:93-98 | appends the callback to the insert list only and returns the same listener |
| Listeners.EntityEventsListener.Updated | src/EntityEventsListener.php:107-112 | appends the callback to the update list only and returns the same listener |
| Listeners.EntityEventsListener.Deleted | src/EntityEventsListener.php:121-126 | appends the callback to the delete list only and returns the same listener |
| Listeners.EntityEventsListener.ToEntity | src/EntityEventsListener.php:134-137 | a row is mapped to an entity of the listener's class |
| Listeners.EntityEventsListener.OnWrite | src/EntityEventsListener.php:61-65 | logs one info record naming the entity class, then notifies the insert callbacks with the one entity built from the row |
| Listeners.EntityEventsListener.OnUpdate | src/EntityEventsListener.php:71-75 | logs one info record, then notifies the update callbacks with the entity before and the entity after, in that order |
| Listeners.EntityEventsListener.OnDelete | src/EntityEventsListener.php:80-84 | logs one info record, then notifies the delete callbacks with the entity built from the row |
| Listeners.NotificationCallsEvery | tests/EntityEventsConsumerTest.php:282-311 | every callback of a kind is called once, in registration order, with the same arguments, even after one before it has raised |
| Listeners.NotificationLogsFailures | tests/EntityEventsConsumerTest.php:282-311 | exactly one error record is logged per raising callback, naming the listener and the entity class, in registration order |
| Consumers.LoadedPosition | src/EntityEventsConsumer.php:309-325 | a position is read exactly when the path is truthy, the file exists and its content decodes to a position; it is that position |
| Consumers.SavedFiles | src/EntityEventsConsumer.php:330-341 | saving writes only the checkpoint file, and only when the path is truthy and a position is known; every other file is unchanged |
| Consumers.CheckpointRoundTrip | src/EntityEventsConsumer.php:309-341 | a saved position is read back unchanged by the next load |
| Consumers.ScanEntities | src/EntityEventsConsumer.php:240-271 | the loop over the bound entities fails at the first non-MySQL DBAL connection; otherwise it yields the database filter, the table filter and the first user, password and host |
| Consumers.DatabasesDistinct | src/EntityEventsConsumer.php:250-252 | the database filter has no duplicate and holds exactly the truthy database names of the bound entities' connections |
| Consumers.TablesOnePerEntity | src/EntityEventsConsumer.php:254 | the table filter has one table per bound entity, in binding order |
| Consumers.FirstParamIsFirstNonNull | src/EntityEventsConsumer.php:264-269 | each credential is the first non-null parameter among the entities' DBAL connections, and null when all are null |
| Consumers.FirstNotMySqlIsFirst | src/EntityEventsConsumer.php:256-262 | the configuration fails exactly when a bound DBAL connection is not MySQL, and it names the first such connection |
| Consumers.SettingsAt | src/EntityEventsConsumer.php:273-297 | the builder holds slave id 100, heartbeat 3, both filters, the position and file name exactly when a position is known, and each credential exactly when it is truthy |
| Consumers.DerivedFilters | src/EntityEventsConsumer.php:273-278 | unless the configurator overrides them, the stream gets slave id 100, heartbeat period 3, the deduplicated databases and one table per entity |
| Consumers.DerivedPosition | src/EntityEventsConsumer.php:280-285 | unless the configurator overrides them, the position and file name are set exactly when a position is known, to that position |
| Consumers.DerivedCredentials | src/EntityEventsConsumer.php:287-297 | unless the configurator overrides them, user, password and host are set exactly when the first non-null value is truthy, to that value |
| Consumers.ConfiguredKeeps | src/EntityEventsConsumer.php:299-301 | a setting the configurator's entries do not name is left as the consumer set it |
| Consumers.ConfiguratorOverrides | src/EntityEventsConsumer.php:299-303 | the configurator runs last: a setting it names ends with the configurator's value, whatever the consumer set |
| Consumers.DispatchWrites | src/EntityEventsConsumer.php:166-169 | each inserted row, in row order, goes through the bound listener's write dispatch |
| Consumers.DispatchUpdates | src/EntityEventsConsumer.php:181-184 | each updated row, in row order, goes through the bound listener's update dispatch |
| Consumers.DispatchDeletes | src/EntityEventsConsumer.php:151-154 | each deleted row, in row order, goes through the bound listener's delete dispatch |
| Consumers.NotificationConcerns | src/EntityEventsListener.php:64 | notifying a listener's callbacks produces only calls of those callbacks with entities of its class, and error records naming its class |
| Consumers.WriteRowsStayWithBinding | src/EntityEventsConsumer.php:160-170 | routing a write event produces only records about the bound class and calls of its insert callbacks; no other listener is involved |
| Consumers.UpdateRowsStayWithBinding | src/EntityEventsConsumer.php:175-185 | routing an update event involves only the bound class and its update callbacks |
| Consumers.DeleteRowsStayWithBinding | src/EntityEventsConsumer.php:145-155 | routing a delete event involves only the bound class and its delete callbacks |
| Consumers.WriteRowsInOrder | tests/EntityEventsConsumerTest.php:180-184 | the callback calls of a multi-row event are those of its earlier rows followed by those of its last row |
| Consumers.UpdateRowsInOrder | src/EntityEventsConsumer.php:181-184 | the same for an update event: the last row's calls, each with its entity before and after, come after those of the earlier rows |
| Consumers.DeleteRowsInOrder | src/EntityEventsConsumer.php:151-154 | the same for a delete event |
| Consumers.EntityEventsConsumer.constructor | src/EntityEventsConsumer.php:100-108 | a new consumer has no bindings and no stream, and its position is the one loaded from the checkpoint file |
| Consumers.EntityEventsConsumer.ForEntity | src/EntityEventsConsumer.php:127-140 | a bound class gets its existing listener back and nothing changes; an unknown class fails; otherwise a fresh empty listener is bound under the class and its table and nothing else changes |
| Consumers.EntityEventsConsumer.AllEvents | src/EntityEventsConsumer.php:190-194 | every event overwrites the captured position with its own |
| Consumers.EntityEventsConsumer.OnWrite | src/EntityEventsConsumer.php:160-170 | captures the position; the rows are dispatched, in order, to the listener bound to the table; with no listener bound, the event fails if it has a row and otherwise has no effect (PHP's missing-key warning is listed under Left out) |
| Consumers.EntityEventsConsumer.OnUpdate | src/EntityEventsConsumer.php:175-185 | the same for updated rows and the update callbacks |
| Consumers.EntityEventsConsumer.OnDelete | src/EntityEventsConsumer.php:145-155 | the same for deleted rows and the delete callbacks |
| Consumers.EntityEventsConsumer.HandleEvent | src/EntityEventsConsumer.php:145-194 | an event of any type captures its position; row events are routed as above and other events produce nothing |
| Consumers.EntityEventsConsumer.Start | src/EntityEventsConsumer.php:201-209 | a no-op when a stream is open; otherwise opens a stream with the derived configuration, or fails without opening one when that configuration fails |
| Consumers.EntityEventsConsumer.Consume | src/EntityEventsConsumer.php:217-221 | starts the consumer first, so a stopped consumer ends started; then routes one event |
| Consumers.EntityEventsConsumer.Stop | src/EntityEventsConsumer.php:228-236 | always leaves no stream; saves the position only when a stream was open |
| Consumers.EntityEventsConsumer.Config | src/EntityEventsConsumer.php:238-304 | the configuration equals the derived one, whose properties the lemmas above state |
| Consumers.EntityEventsConsumer.BuildConfig | src/EntityEventsConsumer.php:273-303 | the builder calls, then the configurator, then the build |
| Consumers.EntityEventsConsumer.LoadLastPosition | src/EntityEventsConsumer.php:309-325 | takes the position from the checkpoint file when it holds one, and otherwise leaves the position as it was |
| Consumers.EntityEventsConsumer.SaveLastPosition | src/EntityEventsConsumer.php:330-341 | the filesystem after saving is as SavedFiles states |
| Factory.MatchingExactly | src/Factory/ConsumersFactory.php:147-164 | the filter keeps exactly the registered listeners whose entity is on the requested connection |
| Factory.MatchingKeepsOrder | src/Factory/ConsumersFactory.php:151-161 | the filter keeps registration order: filtering a concatenation concatenates the filtered parts |
| Factory.FirstOrphanIsFirst | src/Factory/ConsumersFactory.php:151-156 | the filter fails exactly when some registered listener's entity has no repository, whatever the connection, and names the first such listener |
| Factory.ClassesOfExactly | src/Factory/ConsumersFactory.php:107-110 | the consumer binds each entity class of the matching listeners once, and no other class |
| Factory.HandlersForExactly | src/Factory/ConsumersFactory.php:107-114 | a class's callbacks of a kind are exactly the matching listeners' handlers of that kind for that class |
| Factory.HandlersForKeepOrder | src/Factory/ConsumersFactory.php:107-114 | callbacks are registered in listener order |
| Factory.HandlersForUnbound | tests/Factory/ConsumersFactoryTest.php:123-138 | an entity of no matching listener gets no callbacks |
| Factory.BoundClassesOnConnection | src/Factory/ConsumersFactory.php:107-114 | the bound classes are exactly the entity classes of registered listeners on the connection |
| Factory.AddHandlers | src/Factory/ConsumersFactory.php:110-112 | the chained registration appends the listener's onInsert, onUpdate and onDelete to the three lists |
| Factory.TablesRouteWired | src/EntityEventsConsumer.php:136-138 | the listener a table routes to is the listener of its entity, so it holds exactly the handlers registered for that entity |
| Factory.WireAll | src/Factory/ConsumersFactory.php:107-114 | after the loop the consumer binds exactly the matching classes, each holds exactly its listeners' handlers, in order, and each table routes to a listener holding exactly the handlers of its entity |
| Factory.ConsumersFactory.constructor | src/Factory/ConsumersFactory.php:64-69 | stores the configurations and the listeners as given |
| Factory.ConsumersFactory.Configure | src/Factory/ConsumersFactory.php:125-128 | replaces the connection's configuration, wrapping a plain array; other connections are unchanged |
| Factory.ConsumersFactory.Register | src/Factory/ConsumersFactory.php:135-138 | appends the listener at the end |
| Factory.ConsumersFactory.FilterListenersForConnection | src/Factory/ConsumersFactory.php:147-164 | fails naming the first listener whose entity has no repository; otherwise returns the matching listeners in order |
| Factory.ConsumersFactory.ForConnection | src/Factory/ConsumersFactory.php:91-117 | fails on an orphan listener or when nothing matches; otherwise returns a fresh, un-started consumer. Its checkpoint file and configurator come from the connection's configuration (empty by default), its position was loaded, and it binds exactly the matching classes with their handlers in order. The listener each bound table routes to holds exactly the handlers of the table's entity |

## Left out

- Network I/O and the binlog protocol: a stream only records the configuration it was opened with. `consume` takes the next event as a parameter, and stream errors are not modelled.
- The `(string) $event` debug record of `allEvents` and the formatting of log messages: log records carry the action, the class, the listener and the message as data.
- The mapper: hydration is an opaque injective function from class and row to entity.
- The platform check's other outcomes: a connection is either a DBAL connection, MySQL or not, or some other kind with no parameters.
- `mkdir` of the checkpoint directory, and the atomicity of writing the file: a save replaces the file's decoded content in one step.
- `serialize`/`unserialize`: a file's content is kept as what it decodes to.
- Consumers.EntityEventsConsumer.constructor: the configurator is modelled as a `ConsumerConfiguration`'s `configure`, the one the factory passes. An arbitrary user callable is not modelled.
- Configuration.ConsumerConfiguration.LogPositionFile: a float or boolean `logPositionFile` entry is not modelled; configuration values are null, strings or integers.
- Configuration.ConsumerConfiguration.Configure: entry values are null, strings or integers only. A float such as the bundle's `heartbeatPeriod`, a boolean, or an array such as a `tablesOnly` list is not modelled.
- Replication.ConfigBuilder: the builder records every `with<Name>` call; its own argument checks and the validation done by `build()` are not modelled.
- Listeners.NotificationCallsEvery: the calling of callbacks is done by the `EventNotifier` trait of another package. Its order and error isolation are taken as given from the package's tests (tests/EntityEventsConsumerTest.php:282-311). A callback's failure is fixed per callback, not dependent on its arguments.
- Factory.ConsumersFactory.ForConnection: the factory builds the consumer without a logger, so the PHP consumer logs to a `NullLogger` (src/Factory/ConsumersFactory.php:101-105, src/EntityEventsConsumer.php:105) and its info and error records are discarded. The model's `Trace` records the calls made to whichever logger is in use, so it keeps them; only the callback calls in it are observable for a factory-built consumer.
- Consumers.EntityEventsConsumer.OnWrite, OnUpdate, OnDelete: for a table with no bound listener, PHP reads a missing array key (src/EntityEventsConsumer.php:149, 164, 179). With no rows this only raises an "Undefined array key" warning, which the model does not represent; with rows it is the failure the model returns.
- The rule that two consumers should not run on one connection: it is documented but not enforced, and concurrency is not modelled.
- The console command and the Symfony bundle: process and container wiring.
