/** ConsumersFactory: holds the registered entity listeners and the consumer
    configurations by connection name, and builds the consumer of one
    connection with every listener whose entity lives on it. */
module Factory {
  import opened Base
  import opened Orm
  import opened Environment
  import opened Configuration
  import opened Listeners
  import opened Consumers

  /** A registered EntityEventsListenerInterface: its class name, the entity
      class it listens to, and the failure (if any) of each of its three
      handlers. */
  datatype ListenerDef = ListenerDef(
    name: string, entityClass: EntityClass,
    insertFailure: Option<string>, updateFailure: Option<string>, deleteFailure: Option<string>)
  {
    function OnInsert(): Callback { Callback(name, "onInsert", insertFailure) }
    function OnUpdate(): Callback { Callback(name, "onUpdate", updateFailure) }
    function OnDelete(): Callback { Callback(name, "onDelete", deleteFailure) }
  }

  datatype Kind = Insert | Update | Delete

  function Handler(l: ListenerDef, k: Kind): Callback {
    match k
    case Insert => l.OnInsert()
    case Update => l.OnUpdate()
    case Delete => l.OnDelete()
  }

  /** What `configure` accepts: a plain array, or a configuration. */
  datatype ConfigArgument = RawArray(entries: PhpArray) | Built(configuration: ConsumerConfiguration)

  function ConfigurationOf(arg: ConfigArgument): ConsumerConfiguration {
    match arg
    case RawArray(entries) => ConsumerConfiguration(entries)
    case Built(c) => c
  }

  /** The listener's entity has a repository on the connection `n`. */
  predicate OnConnection(prime: Schema, l: ListenerDef, n: string) {
    l.entityClass in prime && prime[l.entityClass].connection.name == n
  }

  /** The listeners whose entity lives on connection `n`, in registration
      order. */
  function Matching(prime: Schema, ls: seq<ListenerDef>, n: string): seq<ListenerDef>
    decreases |ls|
  {
    if ls == [] then []
    else
      var prior := Matching(prime, ls[..|ls| - 1], n);
      if OnConnection(prime, ls[|ls| - 1], n) then prior + [ls[|ls| - 1]] else prior
  }

  /** The first listener whose entity has no repository. */
  function FirstOrphan(prime: Schema, ls: seq<ListenerDef>): Option<ListenerDef>
    decreases |ls|
  {
    if ls == [] then None
    else if ls[0].entityClass !in prime then Some(ls[0])
    else FirstOrphan(prime, ls[1..])
  }

  /** The callbacks of kind `k` a consumer gets for `cls` from the listeners
      `ls` wired in order. */
  function HandlersFor(ls: seq<ListenerDef>, cls: EntityClass, k: Kind): seq<Callback>
    decreases |ls|
  {
    if ls == [] then []
    else
      var prior := HandlersFor(ls[..|ls| - 1], cls, k);
      if ls[|ls| - 1].entityClass == cls then prior + [Handler(ls[|ls| - 1], k)] else prior
  }

  /** The entity classes of `ls`, each once, in order of first appearance:
      the order in which the consumer binds them. */
  function ClassesOf(ls: seq<ListenerDef>): seq<EntityClass>
    decreases |ls|
  {
    if ls == [] then []
    else
      var prior := ClassesOf(ls[..|ls| - 1]);
      if ls[|ls| - 1].entityClass in prior then prior else prior + [ls[|ls| - 1].entityClass]
  }

  /** Filtering keeps exactly the listeners whose entity is on the
      connection. */
  lemma {:induction false} MatchingExactly(prime: Schema, ls: seq<ListenerDef>, n: string)
    ensures forall l :: l in Matching(prime, ls, n) <==> l in ls && OnConnection(prime, l, n)
    decreases |ls|
  {
    if ls != [] {
      var init := ls[..|ls| - 1];
      MatchingExactly(prime, init, n);
      assert ls == init + [ls[|ls| - 1]];
    }
  }

  /** Filtering keeps registration order: it distributes over
      concatenation. */
  lemma {:induction false} MatchingKeepsOrder(prime: Schema, a: seq<ListenerDef>, b: seq<ListenerDef>, n: string)
    ensures Matching(prime, a + b, n) == Matching(prime, a, n) + Matching(prime, b, n)
    decreases |b|
  {
    if b == [] {
      assert a + b == a;
    } else {
      var init := b[..|b| - 1];
      MatchingKeepsOrder(prime, a, init, n);
      assert (a + b)[..|a + b| - 1] == a + init;
    }
  }

  /** The first orphan is the first listener whose entity has no
      repository; there is none exactly when every entity has one. */
  lemma {:induction false} FirstOrphanIsFirst(prime: Schema, ls: seq<ListenerDef>)
    ensures FirstOrphan(prime, ls).None? <==> forall k :: 0 <= k < |ls| ==> ls[k].entityClass in prime
    ensures FirstOrphan(prime, ls).Some? ==>
      exists k :: 0 <= k < |ls| && FirstOrphan(prime, ls) == Some(ls[k]) && ls[k].entityClass !in prime
        && forall j :: 0 <= j < k ==> ls[j].entityClass in prime
    decreases |ls|
  {
    if ls != [] && ls[0].entityClass in prime {
      FirstOrphanIsFirst(prime, ls[1..]);
      if FirstOrphan(prime, ls[1..]).Some? {
        var k :| 0 <= k < |ls[1..]| && FirstOrphan(prime, ls[1..]) == Some(ls[1..][k]) && ls[1..][k].entityClass !in prime
          && forall j :: 0 <= j < k ==> ls[1..][j].entityClass in prime;
        assert ls[k + 1] == ls[1..][k];
      }
    }
  }

  /** Each class is bound once, and exactly the classes of the listeners
      are bound. */
  lemma {:induction false} ClassesOfExactly(ls: seq<ListenerDef>)
    ensures forall i, j :: 0 <= i < j < |ClassesOf(ls)| ==> ClassesOf(ls)[i] != ClassesOf(ls)[j]
    ensures forall c :: c in ClassesOf(ls) <==> exists k :: 0 <= k < |ls| && ls[k].entityClass == c
    decreases |ls|
  {
    if ls != [] {
      var init := ls[..|ls| - 1];
      ClassesOfExactly(init);
      assert forall k :: 0 <= k < |init| ==> init[k] == ls[k];
    }
  }

  /** A class's list holds each of its listeners' handlers and nothing
      else. */
  lemma {:induction false} HandlersForExactly(ls: seq<ListenerDef>, cls: EntityClass, k: Kind)
    ensures forall cb :: cb in HandlersFor(ls, cls, k) <==>
      exists j :: 0 <= j < |ls| && ls[j].entityClass == cls && cb == Handler(ls[j], k)
    decreases |ls|
  {
    if ls != [] {
      var init := ls[..|ls| - 1];
      HandlersForExactly(init, cls, k);
      assert forall j :: 0 <= j < |init| ==> init[j] == ls[j];
    }
  }

  /** Handlers keep registration order: wiring more listeners only appends
      to a class's list. */
  lemma {:induction false} HandlersForKeepOrder(a: seq<ListenerDef>, b: seq<ListenerDef>, cls: EntityClass, k: Kind)
    ensures HandlersFor(a + b, cls, k) == HandlersFor(a, cls, k) + HandlersFor(b, cls, k)
    decreases |b|
  {
    if b == [] {
      assert a + b == a;
    } else {
      var init := b[..|b| - 1];
      HandlersForKeepOrder(a, init, cls, k);
      assert (a + b)[..|a + b| - 1] == a + init;
    }
  }

  /** Wiring one more listener appends its handler to its own class's
      list and to no other. */
  lemma HandlersForSnoc(ls: seq<ListenerDef>, l: ListenerDef, cls: EntityClass, k: Kind)
    ensures HandlersFor(ls + [l], cls, k) == HandlersFor(ls, cls, k) + (if l.entityClass == cls then [Handler(l, k)] else [])
  {
    TakeAppended(ls, l);
  }

  lemma ClassesOfSnoc(ls: seq<ListenerDef>, l: ListenerDef)
    ensures ClassesOf(ls + [l]) == ClassesOf(ls) + (if l.entityClass in ClassesOf(ls) then [] else [l.entityClass])
  {
    TakeAppended(ls, l);
  }

  lemma {:induction false} HandlersForUnbound(ls: seq<ListenerDef>, cls: EntityClass, k: Kind)
    requires cls !in ClassesOf(ls)
    ensures HandlersFor(ls, cls, k) == []
    decreases |ls|
  {
    if ls != [] {
      HandlersForUnbound(ls[..|ls| - 1], cls, k);
    }
  }

  /** The classes a connection's consumer binds are the entities, on that
      connection, of registered listeners. */
  lemma BoundClassesOnConnection(prime: Schema, ls: seq<ListenerDef>, n: string)
    ensures forall c :: c in ClassesOf(Matching(prime, ls, n)) <==>
      exists l :: l in ls && l.entityClass == c && OnConnection(prime, l, n)
  {
    MatchingExactly(prime, ls, n);
    ClassesOfExactly(Matching(prime, ls, n));
  }

  /** `inserted(onInsert)->updated(onUpdate)->deleted(onDelete)` on one
      entity listener. */
  method AddHandlers(listener: EntityEventsListener, l: ListenerDef)
    modifies listener
    ensures listener.insertListeners == old(listener.insertListeners) + [l.OnInsert()]
    ensures listener.updateListeners == old(listener.updateListeners) + [l.OnUpdate()]
    ensures listener.deleteListeners == old(listener.deleteListeners) + [l.OnDelete()]
  {
    var chained := listener.Inserted(l.OnInsert());
    chained := chained.Updated(l.OnUpdate());
    chained := chained.Deleted(l.OnDelete());
  }

  /** Every bound entity's listener holds exactly the handlers `done`
      registers for that entity, kind by kind, in registration order. */
  ghost predicate Wired(byClass: map<EntityClass, EntityEventsListener>, done: seq<ListenerDef>)
    reads byClass.Values
  {
    forall c :: c in byClass ==>
      && byClass[c].insertListeners == HandlersFor(done, c, Insert)
      && byClass[c].updateListeners == HandlersFor(done, c, Update)
      && byClass[c].deleteListeners == HandlersFor(done, c, Delete)
  }

  /** Routing by table reaches the same handlers: the listener a table is
      routed to is the listener of its entity, so it holds the handlers
      `done` registers for that entity. */
  lemma TablesRouteWired(consumer: EntityEventsConsumer, done: seq<ListenerDef>)
    requires consumer.Valid() && Wired(consumer.entityListenersByEntityClass, done)
    ensures forall t :: t in consumer.entityListenersByTable ==>
      && consumer.entityListenersByTable[t].insertListeners == HandlersFor(done, consumer.entityListenersByTable[t].entityClass, Insert)
      && consumer.entityListenersByTable[t].updateListeners == HandlersFor(done, consumer.entityListenersByTable[t].entityClass, Update)
      && consumer.entityListenersByTable[t].deleteListeners == HandlersFor(done, consumer.entityListenersByTable[t].entityClass, Delete)
  {
    forall t | t in consumer.entityListenersByTable
      ensures consumer.entityListenersByTable[t].insertListeners == HandlersFor(done, consumer.entityListenersByTable[t].entityClass, Insert)
      ensures consumer.entityListenersByTable[t].updateListeners == HandlersFor(done, consumer.entityListenersByTable[t].entityClass, Update)
      ensures consumer.entityListenersByTable[t].deleteListeners == HandlersFor(done, consumer.entityListenersByTable[t].entityClass, Delete)
    {
      var c := consumer.entityListenersByTable[t].entityClass;
      assert c in consumer.entityListenersByEntityClass && consumer.entityListenersByEntityClass[c] == consumer.entityListenersByTable[t];
    }
  }

  /** A listener with no handlers yet keeps `Wired` when bound to an entity
      that `done` never names. */
  lemma WiredBind(byClass: map<EntityClass, EntityEventsListener>, done: seq<ListenerDef>, cls: EntityClass, listener: EntityEventsListener)
    requires Wired(byClass, done) && cls !in ClassesOf(done)
    requires listener.insertListeners == [] && listener.updateListeners == [] && listener.deleteListeners == []
    ensures Wired(byClass[cls := listener], done)
  {
    HandlersForUnbound(done, cls, Insert);
    HandlersForUnbound(done, cls, Update);
    HandlersForUnbound(done, cls, Delete);
  }

  /** `forEntity` in the wiring loop, for an entity bound by an earlier
      listener: returns its listener and changes nothing. */
  method Rebind(consumer: EntityEventsConsumer, ghost done: seq<ListenerDef>, cls: EntityClass)
    returns (listener: EntityEventsListener)
    requires consumer.Valid() && cls in consumer.entityListenersByEntityClass
    requires Wired(consumer.entityListenersByEntityClass, done)
    modifies consumer`entityListenersByEntityClass, consumer`entityListenersByTable, consumer`boundClasses
    ensures consumer.Valid() && Wired(consumer.entityListenersByEntityClass, done)
    ensures consumer.entityListenersByEntityClass == old(consumer.entityListenersByEntityClass)
    ensures consumer.boundClasses == old(consumer.boundClasses)
    ensures listener == consumer.entityListenersByEntityClass[cls]
  {
    var bound := consumer.ForEntity(cls);
    listener := bound.value;
  }

  /** `forEntity` in the wiring loop, for an entity no earlier listener
      names: binds it to a new listener, which has no handlers yet, as
      wiring from `done` says. */
  method BindNew(consumer: EntityEventsConsumer, ghost done: seq<ListenerDef>, cls: EntityClass)
    returns (listener: EntityEventsListener)
    requires consumer.Valid() && cls in consumer.prime && cls !in consumer.entityListenersByEntityClass
    requires consumer.boundClasses == ClassesOf(done) && Wired(consumer.entityListenersByEntityClass, done)
    modifies consumer`entityListenersByEntityClass, consumer`entityListenersByTable, consumer`boundClasses
    ensures consumer.Valid() && Wired(consumer.entityListenersByEntityClass, done)
    ensures fresh(listener)
    ensures consumer.entityListenersByEntityClass == old(consumer.entityListenersByEntityClass)[cls := listener]
    ensures consumer.boundClasses == old(consumer.boundClasses) + [cls]
  {
    ghost var before := consumer.entityListenersByEntityClass;
    var bound := consumer.ForEntity(cls);
    listener := bound.value;
    WiredBind(before, done, cls, listener);
  }

  /** The handler step of wiring: appends `l`'s handlers to the listener
      bound to `l`'s entity, so that the consumer, wired from `done`, is
      wired from `done + [l]`. */
  method Extend(consumer: EntityEventsConsumer, ghost done: seq<ListenerDef>, l: ListenerDef)
    requires consumer.Valid() && l.entityClass in consumer.entityListenersByEntityClass
    requires Wired(consumer.entityListenersByEntityClass, done)
    modifies consumer.entityListenersByEntityClass[l.entityClass]
    ensures unchanged(consumer) && consumer.Valid()
    ensures Wired(consumer.entityListenersByEntityClass, done + [l])
  {
    var byClass := consumer.entityListenersByEntityClass;
    var listener := byClass[l.entityClass];
    AddHandlers(listener, l);
    forall c | c in byClass
      ensures byClass[c].insertListeners == HandlersFor(done + [l], c, Insert)
      ensures byClass[c].updateListeners == HandlersFor(done + [l], c, Update)
      ensures byClass[c].deleteListeners == HandlersFor(done + [l], c, Delete)
    {
      HandlersForSnoc(done, l, c, Insert);
      HandlersForSnoc(done, l, c, Update);
      HandlersForSnoc(done, l, c, Delete);
      assert c != l.entityClass ==> byClass[c] != listener;
    }
  }

  /** One step of wiring: binds `l`'s entity on the consumer (creating its
      listener on first use) and appends `l`'s three handlers to that
      listener, so that the consumer is wired from `done + [l]`. */
  method Wire(consumer: EntityEventsConsumer, ghost done: seq<ListenerDef>, l: ListenerDef)
    requires consumer.Valid() && l.entityClass in consumer.prime
    requires consumer.boundClasses == ClassesOf(done) && Wired(consumer.entityListenersByEntityClass, done)
    modifies consumer`entityListenersByEntityClass, consumer`entityListenersByTable, consumer`boundClasses
    modifies if l.entityClass in consumer.entityListenersByEntityClass then {consumer.entityListenersByEntityClass[l.entityClass]} else {}
    ensures consumer.Valid()
    ensures consumer.boundClasses == ClassesOf(done + [l])
    ensures Wired(consumer.entityListenersByEntityClass, done + [l])
    ensures forall c :: c in consumer.entityListenersByEntityClass ==>
      (c in old(consumer.entityListenersByEntityClass) && consumer.entityListenersByEntityClass[c] == old(consumer.entityListenersByEntityClass[c]))
      || fresh(consumer.entityListenersByEntityClass[c])
  {
    ClassesOfSnoc(done, l);
    if l.entityClass in consumer.entityListenersByEntityClass {
      var listener := Rebind(consumer, done, l.entityClass);
    } else {
      var listener := BindNew(consumer, done, l.entityClass);
    }
    Extend(consumer, done, l);
  }

  /** Wires every listener of `matches`, in order, into a consumer that has
      bound nothing yet. */
  method WireAll(consumer: EntityEventsConsumer, matches: seq<ListenerDef>)
    requires consumer.Valid() && consumer.entityListenersByEntityClass == map[] && consumer.boundClasses == []
    requires forall l :: l in matches ==> l.entityClass in consumer.prime
    modifies consumer`entityListenersByEntityClass, consumer`entityListenersByTable, consumer`boundClasses
    ensures consumer.Valid()
    ensures consumer.boundClasses == ClassesOf(matches)
    ensures Wired(consumer.entityListenersByEntityClass, matches)
    ensures forall t :: t in consumer.entityListenersByTable ==>
      && consumer.entityListenersByTable[t].insertListeners == HandlersFor(matches, consumer.entityListenersByTable[t].entityClass, Insert)
      && consumer.entityListenersByTable[t].updateListeners == HandlersFor(matches, consumer.entityListenersByTable[t].entityClass, Update)
      && consumer.entityListenersByTable[t].deleteListeners == HandlersFor(matches, consumer.entityListenersByTable[t].entityClass, Delete)
  {
    for i := 0 to |matches|
      invariant consumer.Valid()
      invariant consumer.boundClasses == ClassesOf(matches[..i])
      invariant forall c :: c in consumer.entityListenersByEntityClass ==> fresh(consumer.entityListenersByEntityClass[c])
      invariant Wired(consumer.entityListenersByEntityClass, matches[..i])
    {
      TakeSnoc(matches, i);
      Wire(consumer, matches[..i], matches[i]);
    }
    assert matches[..|matches|] == matches;
    TablesRouteWired(consumer, matches);
  }

  class ConsumersFactory {
    const prime: Schema
    const fs: FileSystem
    const trace: Trace
    var config: map<string, ConsumerConfiguration>
    var listeners: seq<ListenerDef>

    constructor (prime: Schema, config: map<string, ConsumerConfiguration>, listeners: seq<ListenerDef>, fs: FileSystem, trace: Trace)
      ensures this.prime == prime && this.config == config && this.listeners == listeners
      ensures this.fs == fs && this.trace == trace
    {
      this.prime := prime;
      this.config := config;
      this.listeners := listeners;
      this.fs := fs;
      this.trace := trace;
    }

    /** The configuration of connection `n`: the one given, or an empty one. */
    function ConfigFor(n: string): ConsumerConfiguration
      reads this
    {
      if n in config then config[n] else ConsumerConfiguration([])
    }

    /** Sets the configuration of a connection, wrapping a plain array. */
    method Configure(connection: string, arg: ConfigArgument)
      modifies this`config
      ensures config == old(config)[connection := ConfigurationOf(arg)]
    {
      config := config[connection := ConfigurationOf(arg)];
    }

    /** Registers a listener after those already registered. */
    method Register(l: ListenerDef)
      modifies this`listeners
      ensures listeners == old(listeners) + [l]
    {
      listeners := listeners + [l];
    }

    /** The listeners whose entity lives on `connection`, in registration
        order; fails at the first listener whose entity has no repository. */
    method FilterListenersForConnection(connection: string) returns (r: Result<seq<ListenerDef>>)
      ensures FirstOrphan(prime, listeners).Some? ==>
        r == Err(ListenerEntityNotFound(FirstOrphan(prime, listeners).value.entityClass, FirstOrphan(prime, listeners).value.name))
      ensures FirstOrphan(prime, listeners).None? ==> r == Ok(Matching(prime, listeners, connection))
    {
      var matches: seq<ListenerDef> := [];
      FirstOrphanIsFirst(prime, listeners);
      for i := 0 to |listeners|
        invariant matches == Matching(prime, listeners[..i], connection)
        invariant forall k :: 0 <= k < i ==> listeners[k].entityClass in prime
      {
        assert listeners[..i + 1][..i] == listeners[..i];
        var listener := listeners[i];
        if listener.entityClass !in prime {
          return Err(ListenerEntityNotFound(listener.entityClass, listener.name));
        }
        if prime[listener.entityClass].connection.name == connection {
          matches := matches + [listener];
        }
      }
      assert listeners[..|listeners|] == listeners;
      r := Ok(matches);
    }

    /** The consumer of `connection`, not started, with every matching
        listener's handlers registered on the listener of its entity. */
    method ForConnection(connection: string) returns (r: Result<EntityEventsConsumer>)
      ensures FirstOrphan(prime, listeners).Some? ==>
        r == Err(ListenerEntityNotFound(FirstOrphan(prime, listeners).value.entityClass, FirstOrphan(prime, listeners).value.name))
      ensures FirstOrphan(prime, listeners).None? && Matching(prime, listeners, connection) == [] ==>
        r == Err(NoListeners(connection))
      ensures FirstOrphan(prime, listeners).None? && Matching(prime, listeners, connection) != [] ==>
        && r.Ok? && fresh(r.value) && r.value.Valid()
        && r.value.prime == prime && r.value.fs == fs && r.value.trace == trace
        && r.value.logPositionFile == ConfigFor(connection).LogPositionFile()
        && r.value.configurator == Some(ConfigFor(connection))
        && r.value.binLogStream == null
        && r.value.binLogCurrent == LoadedPosition(fs.files, ConfigFor(connection).LogPositionFile())
        && r.value.boundClasses == ClassesOf(Matching(prime, listeners, connection))
        && (forall c :: c in r.value.entityListenersByEntityClass ==>
          && r.value.entityListenersByEntityClass[c].insertListeners == HandlersFor(Matching(prime, listeners, connection), c, Insert)
          && r.value.entityListenersByEntityClass[c].updateListeners == HandlersFor(Matching(prime, listeners, connection), c, Update)
          && r.value.entityListenersByEntityClass[c].deleteListeners == HandlersFor(Matching(prime, listeners, connection), c, Delete))
        && (forall t :: t in r.value.entityListenersByTable ==>
          && r.value.entityListenersByTable[t].insertListeners == HandlersFor(Matching(prime, listeners, connection), r.value.entityListenersByTable[t].entityClass, Insert)
          && r.value.entityListenersByTable[t].updateListeners == HandlersFor(Matching(prime, listeners, connection), r.value.entityListenersByTable[t].entityClass, Update)
          && r.value.entityListenersByTable[t].deleteListeners == HandlersFor(Matching(prime, listeners, connection), r.value.entityListenersByTable[t].entityClass, Delete))
    {
      var filtered := FilterListenersForConnection(connection);
      if filtered.Err? {
        return Err(filtered.error);
      }
      var matches := filtered.value;
      if matches == [] {
        return Err(NoListeners(connection));
      }
      MatchingExactly(prime, listeners, connection);

      var cfg := ConfigFor(connection);
      var consumer := new EntityEventsConsumer(prime, cfg.LogPositionFile(), Some(cfg), fs, trace);

      WireAll(consumer, matches);
      r := Ok(consumer);
    }
  }
}
