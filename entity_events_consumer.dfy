/** EntityEventsConsumer: binds entity classes to listeners, opens the
    replication stream with a configuration derived from the bound entities,
    routes each row event to the listener bound to the event's table, and
    keeps the binlog position of the last event in a checkpoint file. */
module Consumers {
  import opened Base
  import opened Replication
  import opened Orm
  import opened Environment
  import opened Configuration
  import opened Listeners

  // ---------------------------------------------------------------------
  // Checkpoint file

  /** The position read back from the checkpoint file: none when no file is
      configured (a null, "" or "0" path), when the file does not exist, or
      when its content does not decode to a binlog position. */
  function LoadedPosition(files: map<string, Decoded>, path: Option<string>): (r: Option<BinLogCurrent>)
    ensures r.Some? <==> Truthy(path) && path.value in files && files[path.value].PositionValue?
    ensures r.Some? ==> r.value == files[path.value].position
  {
    if !Truthy(path) || path.value !in files then None
    else match files[path.value]
      case PositionValue(p) => Some(p)
      case _ => None
  }

  /** The files after saving: unchanged when no file is configured or no
      position is known, otherwise the file holds the position. */
  function SavedFiles(files: map<string, Decoded>, path: Option<string>, pos: Option<BinLogCurrent>): (r: map<string, Decoded>)
    ensures forall p :: p in files && !(Truthy(path) && pos.Some? && p == path.value) ==> p in r && r[p] == files[p]
    ensures forall p :: p in r ==> p in files || (Truthy(path) && pos.Some? && p == path.value)
  {
    if !Truthy(path) || pos.None? then files else files[path.value := PositionValue(pos.value)]
  }

  /** A saved position is read back unchanged. */
  lemma CheckpointRoundTrip(files: map<string, Decoded>, path: Option<string>, pos: BinLogCurrent)
    requires Truthy(path)
    ensures LoadedPosition(SavedFiles(files, path, Some(pos)), path) == Some(pos)
  {
  }

  // ---------------------------------------------------------------------
  // The stream configuration derived from the bound entities

  /** The distinct truthy database names of the connections, in order of
      first appearance. */
  function Databases(metas: seq<EntityMeta>): seq<string>
    decreases |metas|
  {
    if metas == [] then []
    else
      var prior := Databases(metas[..|metas| - 1]);
      var db := metas[|metas| - 1].connection.database;
      if Truthy(db) && db.value !in prior then prior + [db.value] else prior
  }

  /** One table per entity, in binding order. */
  function Tables(metas: seq<EntityMeta>): seq<string>
    decreases |metas|
  {
    if metas == [] then [] else Tables(metas[..|metas| - 1]) + [metas[|metas| - 1].table]
  }

  datatype Credential = UserName | UserPassword | HostName

  /** A connection parameter; only DBAL connections have parameters. */
  function Param(d: Driver, c: Credential): Option<string> {
    if d.OtherDriver? then None
    else match c
      case UserName => d.user
      case UserPassword => d.password
      case HostName => d.host
  }

  /** `$value = $value ?? $params[...]` over the entities in order. */
  function FirstParam(metas: seq<EntityMeta>, c: Credential): Option<string>
    decreases |metas|
  {
    if metas == [] then None
    else Coalesce(FirstParam(metas[..|metas| - 1], c), Param(metas[|metas| - 1].connection.driver, c))
  }

  /** The prefix functions above, one entity further. */
  lemma PrefixStep(metas: seq<EntityMeta>, i: nat)
    requires i < |metas|
    ensures var prior := Databases(metas[..i]); var db := metas[i].connection.database;
      Databases(metas[..i + 1]) == if Truthy(db) && db.value !in prior then prior + [db.value] else prior
    ensures Tables(metas[..i + 1]) == Tables(metas[..i]) + [metas[i].table]
    ensures FirstParam(metas[..i + 1], UserName) == Coalesce(FirstParam(metas[..i], UserName), Param(metas[i].connection.driver, UserName))
    ensures FirstParam(metas[..i + 1], UserPassword) == Coalesce(FirstParam(metas[..i], UserPassword), Param(metas[i].connection.driver, UserPassword))
    ensures FirstParam(metas[..i + 1], HostName) == Coalesce(FirstParam(metas[..i], HostName), Param(metas[i].connection.driver, HostName))
  {
    assert metas[..i + 1][..i] == metas[..i];
  }

  predicate NotMySql(m: EntityMeta) {
    m.connection.driver.Dbal? && !m.connection.driver.isMySql
  }

  /** The name of the first DBAL connection whose platform is not MySQL. */
  function FirstNotMySql(metas: seq<EntityMeta>): Option<string>
    decreases |metas|
  {
    if metas == [] then None
    else if NotMySql(metas[0]) then Some(metas[0].connection.name)
    else FirstNotMySql(metas[1..])
  }

  function WithTruthy(settings: map<Setting, Argument>, s: Setting, v: Option<string>): map<Setting, Argument> {
    if Truthy(v) then settings[s := Scalar(Text(v.value))] else settings
  }

  function WithPosition(settings: map<Setting, Argument>, pos: Option<BinLogCurrent>): map<Setting, Argument> {
    if pos.Some? then
      settings[BinLogPosition := Scalar(Number(pos.value.binLogPosition))][BinLogFileName := Scalar(Text(pos.value.binFileName))]
    else settings
  }

  function FilterSettings(databases: seq<string>, tables: seq<string>): map<Setting, Argument> {
    map[][SlaveId := Scalar(Number(100))][HeartbeatPeriod := Scalar(Number(3))]
      [DatabasesOnly := Names(databases)][TablesOnly := Names(tables)]
  }

  /** The builder's settings before the configurator runs, from what the
      scan of the entities collected and the known position. */
  function Settings(databases: seq<string>, tables: seq<string>, pos: Option<BinLogCurrent>,
                    user: Option<string>, password: Option<string>, host: Option<string>): map<Setting, Argument> {
    WithTruthy(WithTruthy(WithTruthy(WithPosition(FilterSettings(databases, tables), pos),
      User, user), Password, password), Host, host)
  }

  function BaseSettings(metas: seq<EntityMeta>, pos: Option<BinLogCurrent>): map<Setting, Argument> {
    Settings(Databases(metas), Tables(metas), pos,
      FirstParam(metas, UserName), FirstParam(metas, UserPassword), FirstParam(metas, HostName))
  }

  function Configured(configurator: Option<ConsumerConfiguration>, settings: map<Setting, Argument>): map<Setting, Argument> {
    if configurator.Some? then Applied(configurator.value.config, settings) else settings
  }

  /** The configuration a consumer opens its stream with, or the error
      raised while computing it. */
  function ExpectedConfig(metas: seq<EntityMeta>, pos: Option<BinLogCurrent>, configurator: Option<ConsumerConfiguration>): Result<Config> {
    match FirstNotMySql(metas)
    case Some(name) => Err(NotMySqlConnection(name))
    case None => Ok(Config(Configured(configurator, BaseSettings(metas, pos))))
  }

  /** The first half of `config()`: one pass over the bound entities, in
      binding order, collecting the database and table filters and the
      first connection parameters, and stopping at the first DBAL
      connection that is not MySQL. */
  method ScanEntities(metas: seq<EntityMeta>)
    returns (failure: Option<string>, databases: seq<string>, tables: seq<string>,
             username: Option<string>, password: Option<string>, host: Option<string>)
    ensures failure == FirstNotMySql(metas)
    ensures failure.None? ==>
      && databases == Databases(metas) && tables == Tables(metas)
      && username == FirstParam(metas, UserName)
      && password == FirstParam(metas, UserPassword)
      && host == FirstParam(metas, HostName)
  {
    databases, tables := [], [];
    username, password, host := None, None, None;
    var i := 0;
    while i < |metas|
      invariant 0 <= i <= |metas|
      invariant databases == Databases(metas[..i])
      invariant tables == Tables(metas[..i])
      invariant username == FirstParam(metas[..i], UserName)
      invariant password == FirstParam(metas[..i], UserPassword)
      invariant host == FirstParam(metas[..i], HostName)
      invariant forall k :: 0 <= k < i ==> !NotMySql(metas[k])
    {
      PrefixStep(metas, i);
      var connection := metas[i].connection;
      if Truthy(connection.database) && connection.database.value !in databases {
        databases := databases + [connection.database.value];
      }
      tables := tables + [metas[i].table];
      if connection.driver.Dbal? {
        if !connection.driver.isMySql {
          FirstNotMySqlIsFirst(metas);
          return Some(connection.name), databases, tables, username, password, host;
        }
        assert Param(connection.driver, UserName) == connection.driver.user;
        assert Param(connection.driver, UserPassword) == connection.driver.password;
        assert Param(connection.driver, HostName) == connection.driver.host;
        username := Coalesce(username, connection.driver.user);
        password := Coalesce(password, connection.driver.password);
        host := Coalesce(host, connection.driver.host);
      } else {
        assert Param(connection.driver, UserName) == None;
        assert Param(connection.driver, UserPassword) == None;
        assert Param(connection.driver, HostName) == None;
      }
      assert !NotMySql(metas[i]);
      i := i + 1;
    }
    assert metas[..i] == metas;
    FirstNotMySqlIsFirst(metas);
    failure := None;
  }

  /** The database filter names each truthy database once, and only those. */
  lemma {:induction false} DatabasesDistinct(metas: seq<EntityMeta>)
    ensures forall i, j :: 0 <= i < j < |Databases(metas)| ==> Databases(metas)[i] != Databases(metas)[j]
    ensures forall name :: name in Databases(metas) <==>
      exists k :: 0 <= k < |metas| && Truthy(metas[k].connection.database) && metas[k].connection.database.value == name
    decreases |metas|
  {
    if metas != [] {
      var init := metas[..|metas| - 1];
      DatabasesDistinct(init);
      assert forall k :: 0 <= k < |init| ==> init[k] == metas[k];
    }
  }

  /** The table filter has one table per bound entity, in binding order. */
  lemma {:induction false} TablesOnePerEntity(metas: seq<EntityMeta>)
    ensures |Tables(metas)| == |metas|
    ensures forall k :: 0 <= k < |metas| ==> Tables(metas)[k] == metas[k].table
    decreases |metas|
  {
    if metas != [] {
      TablesOnePerEntity(metas[..|metas| - 1]);
    }
  }

  /** A credential is the first non-null one across the entities' DBAL
      connections; it is null only when all of them are. */
  lemma {:induction false} FirstParamIsFirstNonNull(metas: seq<EntityMeta>, c: Credential)
    ensures FirstParam(metas, c).Some? ==>
      exists k :: 0 <= k < |metas| && Param(metas[k].connection.driver, c) == FirstParam(metas, c)
        && forall j :: 0 <= j < k ==> Param(metas[j].connection.driver, c).None?
    ensures FirstParam(metas, c).None? ==> forall k :: 0 <= k < |metas| ==> Param(metas[k].connection.driver, c).None?
    decreases |metas|
  {
    if metas != [] {
      var init := metas[..|metas| - 1];
      FirstParamIsFirstNonNull(init, c);
      assert forall k :: 0 <= k < |init| ==> init[k] == metas[k];
      if FirstParam(init, c).Some? {
        var k :| 0 <= k < |init| && Param(init[k].connection.driver, c) == FirstParam(init, c)
          && forall j :: 0 <= j < k ==> Param(init[j].connection.driver, c).None?;
        assert Param(metas[k].connection.driver, c) == FirstParam(metas, c);
      } else if FirstParam(metas, c).Some? {
        assert Param(metas[|metas| - 1].connection.driver, c) == FirstParam(metas, c);
      }
    }
  }

  /** The configuration fails exactly when some entity's DBAL connection is
      not MySQL, and then names the first such connection. */
  lemma {:induction false} FirstNotMySqlIsFirst(metas: seq<EntityMeta>)
    ensures FirstNotMySql(metas).None? <==> forall k :: 0 <= k < |metas| ==> !NotMySql(metas[k])
    ensures FirstNotMySql(metas).Some? ==>
      exists k :: 0 <= k < |metas| && NotMySql(metas[k]) && FirstNotMySql(metas) == Some(metas[k].connection.name)
        && forall j :: 0 <= j < k ==> !NotMySql(metas[j])
    decreases |metas|
  {
    if metas != [] && !NotMySql(metas[0]) {
      FirstNotMySqlIsFirst(metas[1..]);
      if FirstNotMySql(metas[1..]).Some? {
        var k :| 0 <= k < |metas[1..]| && NotMySql(metas[1..][k]) && FirstNotMySql(metas[1..]) == Some(metas[1..][k].connection.name)
          && forall j :: 0 <= j < k ==> !NotMySql(metas[1..][j]);
        assert NotMySql(metas[k + 1]);
      }
    }
  }

  /** The configurator runs last: whatever setting it names ends up with
      the value of the last entry naming it, whatever the entities say. */
  lemma ConfiguratorOverrides(metas: seq<EntityMeta>, pos: Option<BinLogCurrent>, conf: ConsumerConfiguration, s: Setting, k: nat)
    requires FirstNotMySql(metas).None?
    requires k < |conf.config| && SettingFor(conf.config[k].key) == Some(s)
    requires forall j :: k < j < |conf.config| ==> SettingFor(conf.config[j].key) != Some(s)
    ensures ExpectedConfig(metas, pos, Some(conf)).Ok?
    ensures s in ExpectedConfig(metas, pos, Some(conf)).value.settings
    ensures ExpectedConfig(metas, pos, Some(conf)).value.settings[s] == Scalar(conf.config[k].value)
  {
    AppliedTakes(conf.config, BaseSettings(metas, pos), s, k);
  }

  /** A setting the configurator does not name keeps the value derived from
      the entities and the known position. */
  predicate Untouched(configurator: Option<ConsumerConfiguration>, s: Setting) {
    configurator.Some? ==> forall i :: 0 <= i < |configurator.value.config| ==> SettingFor(configurator.value.config[i].key) != Some(s)
  }

  /** Each setting the builder gets before the configurator runs. */
  lemma SettingsAt(databases: seq<string>, tables: seq<string>, pos: Option<BinLogCurrent>,
                   user: Option<string>, password: Option<string>, host: Option<string>)
    ensures var base := Settings(databases, tables, pos, user, password, host);
      && SlaveId in base && base[SlaveId] == Scalar(Number(100))
      && HeartbeatPeriod in base && base[HeartbeatPeriod] == Scalar(Number(3))
      && DatabasesOnly in base && base[DatabasesOnly] == Names(databases)
      && TablesOnly in base && base[TablesOnly] == Names(tables)
      && (BinLogPosition in base <==> pos.Some?)
      && (pos.Some? ==> base[BinLogPosition] == Scalar(Number(pos.value.binLogPosition)))
      && (BinLogFileName in base <==> pos.Some?)
      && (pos.Some? ==> base[BinLogFileName] == Scalar(Text(pos.value.binFileName)))
      && (User in base <==> Truthy(user))
      && (User in base ==> base[User] == Scalar(Text(user.value)))
      && (Password in base <==> Truthy(password))
      && (Password in base ==> base[Password] == Scalar(Text(password.value)))
      && (Host in base <==> Truthy(host))
      && (Host in base ==> base[Host] == Scalar(Text(host.value)))
  {
  }

  lemma ConfiguredKeeps(configurator: Option<ConsumerConfiguration>, settings: map<Setting, Argument>, s: Setting)
    requires Untouched(configurator, s)
    ensures s in Configured(configurator, settings) <==> s in settings
    ensures s in settings ==> Configured(configurator, settings)[s] == settings[s]
  {
    if configurator.Some? {
      AppliedKeeps(configurator.value.config, settings, s);
    }
  }

  /** The fixed settings and the filters, unless the configurator names
      them: server id 100, a heartbeat every 3 seconds, the distinct
      databases and one table per bound entity. */
  lemma DerivedFilters(metas: seq<EntityMeta>, pos: Option<BinLogCurrent>, configurator: Option<ConsumerConfiguration>)
    requires FirstNotMySql(metas).None?
    ensures ExpectedConfig(metas, pos, configurator).Ok?
    ensures var settings := ExpectedConfig(metas, pos, configurator).value.settings;
      && (Untouched(configurator, SlaveId) ==> SlaveId in settings && settings[SlaveId] == Scalar(Number(100)))
      && (Untouched(configurator, HeartbeatPeriod) ==> HeartbeatPeriod in settings && settings[HeartbeatPeriod] == Scalar(Number(3)))
      && (Untouched(configurator, DatabasesOnly) ==> DatabasesOnly in settings && settings[DatabasesOnly] == Names(Databases(metas)))
      && (Untouched(configurator, TablesOnly) ==> TablesOnly in settings && settings[TablesOnly] == Names(Tables(metas)))
  {
    var base := BaseSettings(metas, pos);
    SettingsAt(Databases(metas), Tables(metas), pos, FirstParam(metas, UserName), FirstParam(metas, UserPassword), FirstParam(metas, HostName));
    if Untouched(configurator, SlaveId) { ConfiguredKeeps(configurator, base, SlaveId); }
    if Untouched(configurator, HeartbeatPeriod) { ConfiguredKeeps(configurator, base, HeartbeatPeriod); }
    if Untouched(configurator, DatabasesOnly) { ConfiguredKeeps(configurator, base, DatabasesOnly); }
    if Untouched(configurator, TablesOnly) { ConfiguredKeeps(configurator, base, TablesOnly); }
  }

  /** Resuming: unless the configurator names them, the stream starts at the
      known position exactly when one is known, and at the server's current
      position otherwise. */
  lemma DerivedPosition(metas: seq<EntityMeta>, pos: Option<BinLogCurrent>, configurator: Option<ConsumerConfiguration>)
    requires FirstNotMySql(metas).None?
    ensures ExpectedConfig(metas, pos, configurator).Ok?
    ensures var settings := ExpectedConfig(metas, pos, configurator).value.settings;
      && (Untouched(configurator, BinLogPosition) ==>
            (BinLogPosition in settings <==> pos.Some?)
            && (pos.Some? ==> settings[BinLogPosition] == Scalar(Number(pos.value.binLogPosition))))
      && (Untouched(configurator, BinLogFileName) ==>
            (BinLogFileName in settings <==> pos.Some?)
            && (pos.Some? ==> settings[BinLogFileName] == Scalar(Text(pos.value.binFileName))))
  {
    var base := BaseSettings(metas, pos);
    SettingsAt(Databases(metas), Tables(metas), pos, FirstParam(metas, UserName), FirstParam(metas, UserPassword), FirstParam(metas, HostName));
    if Untouched(configurator, BinLogPosition) { ConfiguredKeeps(configurator, base, BinLogPosition); }
    if Untouched(configurator, BinLogFileName) { ConfiguredKeeps(configurator, base, BinLogFileName); }
  }

  /** Unless the configurator names it, a credential is set exactly when the
      first non-null one across the connections is truthy, and to that one. */
  lemma DerivedCredentials(metas: seq<EntityMeta>, pos: Option<BinLogCurrent>, configurator: Option<ConsumerConfiguration>)
    requires FirstNotMySql(metas).None?
    ensures ExpectedConfig(metas, pos, configurator).Ok?
    ensures var settings := ExpectedConfig(metas, pos, configurator).value.settings;
      && (Untouched(configurator, User) ==>
            (User in settings <==> Truthy(FirstParam(metas, UserName)))
            && (User in settings ==> settings[User] == Scalar(Text(FirstParam(metas, UserName).value))))
      && (Untouched(configurator, Password) ==>
            (Password in settings <==> Truthy(FirstParam(metas, UserPassword)))
            && (Password in settings ==> settings[Password] == Scalar(Text(FirstParam(metas, UserPassword).value))))
      && (Untouched(configurator, Host) ==>
            (Host in settings <==> Truthy(FirstParam(metas, HostName)))
            && (Host in settings ==> settings[Host] == Scalar(Text(FirstParam(metas, HostName).value))))
  {
    var base := BaseSettings(metas, pos);
    SettingsAt(Databases(metas), Tables(metas), pos, FirstParam(metas, UserName), FirstParam(metas, UserPassword), FirstParam(metas, HostName));
    if Untouched(configurator, User) { ConfiguredKeeps(configurator, base, User); }
    if Untouched(configurator, Password) { ConfiguredKeeps(configurator, base, Password); }
    if Untouched(configurator, Host) { ConfiguredKeeps(configurator, base, Host); }
  }

  // ---------------------------------------------------------------------
  // Routing of row events

  /** What dispatching the inserted rows, in order, produces. */
  function WriteRowsEffects(cls: EntityClass, cbs: seq<Callback>, rows: seq<Row>): seq<Effect>
    decreases |rows|
  {
    if rows == [] then []
    else WriteRowsEffects(cls, cbs, rows[..|rows| - 1]) + WriteEffects(cls, cbs, rows[|rows| - 1])
  }

  lemma WriteRowsStep(cls: EntityClass, cbs: seq<Callback>, rows: seq<Row>, i: nat)
    requires i < |rows|
    ensures WriteRowsEffects(cls, cbs, rows[..i + 1]) == WriteRowsEffects(cls, cbs, rows[..i]) + WriteEffects(cls, cbs, rows[i])
  {
    assert rows[..i + 1][..i] == rows[..i];
  }

  function UpdateRowsEffects(cls: EntityClass, cbs: seq<Callback>, rows: seq<UpdateRow>): seq<Effect>
    decreases |rows|
  {
    if rows == [] then []
    else UpdateRowsEffects(cls, cbs, rows[..|rows| - 1]) + UpdateEffects(cls, cbs, rows[|rows| - 1])
  }

  lemma UpdateRowsStep(cls: EntityClass, cbs: seq<Callback>, rows: seq<UpdateRow>, i: nat)
    requires i < |rows|
    ensures UpdateRowsEffects(cls, cbs, rows[..i + 1]) == UpdateRowsEffects(cls, cbs, rows[..i]) + UpdateEffects(cls, cbs, rows[i])
  {
    assert rows[..i + 1][..i] == rows[..i];
  }

  function DeleteRowsEffects(cls: EntityClass, cbs: seq<Callback>, rows: seq<Row>): seq<Effect>
    decreases |rows|
  {
    if rows == [] then []
    else DeleteRowsEffects(cls, cbs, rows[..|rows| - 1]) + DeleteEffects(cls, cbs, rows[|rows| - 1])
  }

  lemma DeleteRowsStep(cls: EntityClass, cbs: seq<Callback>, rows: seq<Row>, i: nat)
    requires i < |rows|
    ensures DeleteRowsEffects(cls, cbs, rows[..i + 1]) == DeleteRowsEffects(cls, cbs, rows[..i]) + DeleteEffects(cls, cbs, rows[i])
  {
    assert rows[..i + 1][..i] == rows[..i];
  }

  /** Hands each inserted row, in order, to `listener`. */
  method DispatchWrites(listener: EntityEventsListener, rows: seq<Row>)
    modifies listener.trace
    ensures listener.trace.effects == old(listener.trace.effects) + WriteRowsEffects(listener.entityClass, listener.insertListeners, rows)
  {
    ghost var before := listener.trace.effects;
    for i := 0 to |rows|
      invariant listener.trace.effects == before + WriteRowsEffects(listener.entityClass, listener.insertListeners, rows[..i])
    {
      WriteRowsStep(listener.entityClass, listener.insertListeners, rows, i);
      ConcatAssoc(before, WriteRowsEffects(listener.entityClass, listener.insertListeners, rows[..i]), WriteEffects(listener.entityClass, listener.insertListeners, rows[i]));
      listener.OnWrite(rows[i]);
    }
    assert rows[..|rows|] == rows;
  }

  /** Hands each updated row, in order, to `listener`. */
  method DispatchUpdates(listener: EntityEventsListener, rows: seq<UpdateRow>)
    modifies listener.trace
    ensures listener.trace.effects == old(listener.trace.effects) + UpdateRowsEffects(listener.entityClass, listener.updateListeners, rows)
  {
    ghost var before := listener.trace.effects;
    for i := 0 to |rows|
      invariant listener.trace.effects == before + UpdateRowsEffects(listener.entityClass, listener.updateListeners, rows[..i])
    {
      UpdateRowsStep(listener.entityClass, listener.updateListeners, rows, i);
      ConcatAssoc(before, UpdateRowsEffects(listener.entityClass, listener.updateListeners, rows[..i]), UpdateEffects(listener.entityClass, listener.updateListeners, rows[i]));
      listener.OnUpdate(rows[i]);
    }
    assert rows[..|rows|] == rows;
  }

  /** Hands each deleted row, in order, to `listener`. */
  method DispatchDeletes(listener: EntityEventsListener, rows: seq<Row>)
    modifies listener.trace
    ensures listener.trace.effects == old(listener.trace.effects) + DeleteRowsEffects(listener.entityClass, listener.deleteListeners, rows)
  {
    ghost var before := listener.trace.effects;
    for i := 0 to |rows|
      invariant listener.trace.effects == before + DeleteRowsEffects(listener.entityClass, listener.deleteListeners, rows[..i])
    {
      DeleteRowsStep(listener.entityClass, listener.deleteListeners, rows, i);
      ConcatAssoc(before, DeleteRowsEffects(listener.entityClass, listener.deleteListeners, rows[..i]), DeleteEffects(listener.entityClass, listener.deleteListeners, rows[i]));
      listener.OnDelete(rows[i]);
    }
    assert rows[..|rows|] == rows;
  }

  /** An effect that belongs to the binding of `cls` with callbacks `cbs`:
      a log record naming `cls`, or a call of one of `cbs` with entities of
      class `cls`. */
  predicate Concerns(e: Effect, cls: EntityClass, cbs: seq<Callback>) {
    match e
    case Logged(Info(_, c)) => c == cls
    case Logged(Error(_, c, _)) => c == cls
    case Invoked(cb, args) => cb in cbs && forall a :: a in args ==> a.entityClass == cls
  }

  lemma {:induction false} NotificationConcerns(cls: EntityClass, cbs: seq<Callback>, rest: seq<Callback>, args: seq<Entity>)
    requires forall cb :: cb in rest ==> cb in cbs
    requires forall a :: a in args ==> a.entityClass == cls
    ensures forall e :: e in Notification(cls, rest, args) ==> Concerns(e, cls, cbs)
    decreases |rest|
  {
    if rest != [] {
      NotificationConcerns(cls, cbs, rest[1..], args);
    }
  }

  /** Routing: an inserted-rows event reaches nothing but its binding's
      insert callbacks, and logs nothing but records naming its class. */
  lemma {:induction false} WriteRowsStayWithBinding(cls: EntityClass, cbs: seq<Callback>, rows: seq<Row>)
    ensures forall e :: e in WriteRowsEffects(cls, cbs, rows) ==> Concerns(e, cls, cbs)
    decreases |rows|
  {
    if rows != [] {
      WriteRowsStayWithBinding(cls, cbs, rows[..|rows| - 1]);
      NotificationConcerns(cls, cbs, cbs, [Hydrate(cls, rows[|rows| - 1])]);
    }
  }

  lemma {:induction false} UpdateRowsStayWithBinding(cls: EntityClass, cbs: seq<Callback>, rows: seq<UpdateRow>)
    ensures forall e :: e in UpdateRowsEffects(cls, cbs, rows) ==> Concerns(e, cls, cbs)
    decreases |rows|
  {
    if rows != [] {
      var last := rows[|rows| - 1];
      UpdateRowsStayWithBinding(cls, cbs, rows[..|rows| - 1]);
      NotificationConcerns(cls, cbs, cbs, [Hydrate(cls, last.before), Hydrate(cls, last.after)]);
    }
  }

  lemma {:induction false} DeleteRowsStayWithBinding(cls: EntityClass, cbs: seq<Callback>, rows: seq<Row>)
    ensures forall e :: e in DeleteRowsEffects(cls, cbs, rows) ==> Concerns(e, cls, cbs)
    decreases |rows|
  {
    if rows != [] {
      DeleteRowsStayWithBinding(cls, cbs, rows[..|rows| - 1]);
      NotificationConcerns(cls, cbs, cbs, [Hydrate(cls, rows[|rows| - 1])]);
    }
  }

  /** Rows are delivered in order: the calls of a multi-row event are the
      calls of its first rows followed by those of its last row. */
  lemma WriteRowsInOrder(cls: EntityClass, cbs: seq<Callback>, rows: seq<Row>, row: Row)
    ensures Calls(WriteRowsEffects(cls, cbs, rows + [row]))
      == Calls(WriteRowsEffects(cls, cbs, rows)) + seq(|cbs|, i requires 0 <= i < |cbs| => Invoked(cbs[i], [Hydrate(cls, row)]))
  {
    assert (rows + [row])[..|rows|] == rows;
    CallsAppend(WriteRowsEffects(cls, cbs, rows), WriteEffects(cls, cbs, row));
    CallsAppend([Logged(Info("write", cls))], Notification(cls, cbs, [Hydrate(cls, row)]));
    NotificationCallsEvery(cls, cbs, [Hydrate(cls, row)]);
  }

  /** The same for updated rows; each call gets the row before and the row
      after. */
  lemma UpdateRowsInOrder(cls: EntityClass, cbs: seq<Callback>, rows: seq<UpdateRow>, row: UpdateRow)
    ensures Calls(UpdateRowsEffects(cls, cbs, rows + [row]))
      == Calls(UpdateRowsEffects(cls, cbs, rows))
         + seq(|cbs|, i requires 0 <= i < |cbs| => Invoked(cbs[i], [Hydrate(cls, row.before), Hydrate(cls, row.after)]))
  {
    assert (rows + [row])[..|rows|] == rows;
    CallsAppend(UpdateRowsEffects(cls, cbs, rows), UpdateEffects(cls, cbs, row));
    CallsAppend([Logged(Info("update", cls))], Notification(cls, cbs, [Hydrate(cls, row.before), Hydrate(cls, row.after)]));
    NotificationCallsEvery(cls, cbs, [Hydrate(cls, row.before), Hydrate(cls, row.after)]);
  }

  /** The same for deleted rows. */
  lemma DeleteRowsInOrder(cls: EntityClass, cbs: seq<Callback>, rows: seq<Row>, row: Row)
    ensures Calls(DeleteRowsEffects(cls, cbs, rows + [row]))
      == Calls(DeleteRowsEffects(cls, cbs, rows)) + seq(|cbs|, i requires 0 <= i < |cbs| => Invoked(cbs[i], [Hydrate(cls, row)]))
  {
    assert (rows + [row])[..|rows|] == rows;
    CallsAppend(DeleteRowsEffects(cls, cbs, rows), DeleteEffects(cls, cbs, row));
    CallsAppend([Logged(Info("delete", cls))], Notification(cls, cbs, [Hydrate(cls, row)]));
    NotificationCallsEvery(cls, cbs, [Hydrate(cls, row)]);
  }

  function MetasOf(prime: Schema, classes: seq<EntityClass>): (r: seq<EntityMeta>)
    requires forall k :: 0 <= k < |classes| ==> classes[k] in prime
    ensures |r| == |classes| && forall k :: 0 <= k < |classes| ==> r[k] == prime[classes[k]]
  {
    seq(|classes|, k requires 0 <= k < |classes| && classes[k] in prime => prime[classes[k]])
  }

  class EntityEventsConsumer {
    const prime: Schema
    const logPositionFile: Option<string>
    const configurator: Option<ConsumerConfiguration>
    const fs: FileSystem
    const trace: Trace

    var entityListenersByEntityClass: map<EntityClass, EntityEventsListener>
    /** The keys of entityListenersByEntityClass in insertion order, as a
        PHP array keeps them. */
    var boundClasses: seq<EntityClass>
    var entityListenersByTable: map<string, EntityEventsListener>
    var binLogStream: BinLogStream?
    var binLogCurrent: Option<BinLogCurrent>

    /** Every listener bound to a table logs to, and is observed through,
        the consumer's trace. */
    ghost predicate SharesTrace()
      reads this
    {
      forall t :: t in entityListenersByTable ==> entityListenersByTable[t].trace == trace
    }

    ghost predicate Valid()
      reads this
    {
      && SharesTrace()
      && (forall c :: c in entityListenersByEntityClass ==>
            c in prime
            && entityListenersByEntityClass[c].entityClass == c
            && entityListenersByEntityClass[c].trace == trace
            && prime[c].table in entityListenersByTable)
      && (forall t :: t in entityListenersByTable ==>
            entityListenersByTable[t].entityClass in prime
            && prime[entityListenersByTable[t].entityClass].table == t
            && entityListenersByTable[t].entityClass in entityListenersByEntityClass
            && entityListenersByEntityClass[entityListenersByTable[t].entityClass] == entityListenersByTable[t])
      && (forall i, j :: 0 <= i < j < |boundClasses| ==> boundClasses[i] != boundClasses[j])
      && (forall c :: c in entityListenersByEntityClass <==> c in boundClasses)
    }

    /** The metadata of the bound entities, in binding order. */
    function Metas(): seq<EntityMeta>
      reads this
      requires Valid()
    {
      MetasOf(prime, boundClasses)
    }

    /** The configuration `start` would open the stream with. */
    function StartConfig(): Result<Config>
      reads this
      requires Valid()
    {
      ExpectedConfig(Metas(), binLogCurrent, configurator)
    }

    /** The log records and callback calls routing `e` produces. */
    function EventEffects(e: Event): seq<Effect>
      reads this, entityListenersByTable.Values
    {
      if e.OtherEvent? || e.table !in entityListenersByTable then []
      else
        var l := entityListenersByTable[e.table];
        match e
        case WriteRows(_, _, rows) => WriteRowsEffects(l.entityClass, l.insertListeners, rows)
        case UpdateRows(_, _, rows) => UpdateRowsEffects(l.entityClass, l.updateListeners, rows)
        case DeleteRows(_, _, rows) => DeleteRowsEffects(l.entityClass, l.deleteListeners, rows)
    }

    /** How routing `e` ends: it fails only for a row event that has rows
        and whose table no entity is bound to. */
    function EventOutcome(e: Event): Outcome
      reads this
    {
      match e
      case OtherEvent(_) => Pass
      case WriteRows(_, t, rows) => if t !in entityListenersByTable && rows != [] then Fail(UnboundTable(t)) else Pass
      case UpdateRows(_, t, rows) => if t !in entityListenersByTable && rows != [] then Fail(UnboundTable(t)) else Pass
      case DeleteRows(_, t, rows) => if t !in entityListenersByTable && rows != [] then Fail(UnboundTable(t)) else Pass
    }

    /** Builds the consumer and loads the last saved position. */
    constructor (prime: Schema, logPositionFile: Option<string>, configurator: Option<ConsumerConfiguration>, fs: FileSystem, trace: Trace)
      ensures Valid()
      ensures this.prime == prime && this.logPositionFile == logPositionFile && this.configurator == configurator
      ensures this.fs == fs && this.trace == trace
      ensures entityListenersByEntityClass == map[] && boundClasses == [] && entityListenersByTable == map[]
      ensures binLogStream == null
      ensures binLogCurrent == LoadedPosition(fs.files, logPositionFile)
    {
      this.prime := prime;
      this.logPositionFile := logPositionFile;
      this.configurator := configurator;
      this.fs := fs;
      this.trace := trace;
      entityListenersByEntityClass := map[];
      boundClasses := [];
      entityListenersByTable := map[];
      binLogStream := null;
      binLogCurrent := None;
      new;
      LoadLastPosition();
    }

    /** The listener for `cls`, created and bound to the class and to its
        table on the first call; later calls return the same listener and
        change nothing. A class the ORM has no repository for is an error. */
    method ForEntity(cls: EntityClass) returns (r: Result<EntityEventsListener>)
      requires Valid()
      modifies this`entityListenersByEntityClass, this`entityListenersByTable, this`boundClasses
      ensures Valid()
      ensures cls in old(entityListenersByEntityClass) ==>
        && r == Ok(old(entityListenersByEntityClass[cls]))
        && entityListenersByEntityClass == old(entityListenersByEntityClass)
        && entityListenersByTable == old(entityListenersByTable)
        && boundClasses == old(boundClasses)
      ensures cls !in old(entityListenersByEntityClass) && cls !in prime ==>
        && r == Err(UnknownEntity(cls))
        && entityListenersByEntityClass == old(entityListenersByEntityClass)
        && entityListenersByTable == old(entityListenersByTable)
        && boundClasses == old(boundClasses)
      ensures cls !in old(entityListenersByEntityClass) && cls in prime ==>
        && r.Ok? && fresh(r.value)
        && r.value.entityClass == cls && r.value.trace == trace
        && r.value.insertListeners == [] && r.value.updateListeners == [] && r.value.deleteListeners == []
        && entityListenersByEntityClass == old(entityListenersByEntityClass)[cls := r.value]
        && entityListenersByTable == old(entityListenersByTable)[prime[cls].table := r.value]
        && boundClasses == old(boundClasses) + [cls]
    {
      if cls in entityListenersByEntityClass {
        return Ok(entityListenersByEntityClass[cls]);
      }
      if cls !in prime {
        return Err(UnknownEntity(cls));
      }
      var listener := new EntityEventsListener(cls, trace);
      entityListenersByTable := entityListenersByTable[prime[cls].table := listener];
      entityListenersByEntityClass := entityListenersByEntityClass[cls := listener];
      boundClasses := boundClasses + [cls];
      r := Ok(listener);
    }

    /** Records the position of every event, whatever its kind. */
    method AllEvents(e: Event)
      modifies this`binLogCurrent
      ensures binLogCurrent == Some(e.info)
    {
      binLogCurrent := Some(e.info);
    }

    /** Dispatches each inserted row, in order, to the listener bound to the
        event's table. */
    method OnWrite(e: Event) returns (outcome: Outcome)
      requires SharesTrace() && e.WriteRows?
      modifies this`binLogCurrent, trace
      ensures binLogCurrent == Some(e.info)
      ensures e.table !in entityListenersByTable ==>
        outcome == (if e.rows != [] then Fail(UnboundTable(e.table)) else Pass) && trace.effects == old(trace.effects)
      ensures e.table in entityListenersByTable ==>
        && outcome == Pass
        && trace.effects == old(trace.effects) + WriteRowsEffects(entityListenersByTable[e.table].entityClass,
                                                                  entityListenersByTable[e.table].insertListeners, e.rows)
    {
      AllEvents(e);
      if e.table !in entityListenersByTable {
        return if e.rows != [] then Fail(UnboundTable(e.table)) else Pass;
      }
      DispatchWrites(entityListenersByTable[e.table], e.rows);
      outcome := Pass;
    }

    /** Dispatches each updated row, in order, to the listener bound to the
        event's table. */
    method OnUpdate(e: Event) returns (outcome: Outcome)
      requires SharesTrace() && e.UpdateRows?
      modifies this`binLogCurrent, trace
      ensures binLogCurrent == Some(e.info)
      ensures e.table !in entityListenersByTable ==>
        outcome == (if e.updates != [] then Fail(UnboundTable(e.table)) else Pass) && trace.effects == old(trace.effects)
      ensures e.table in entityListenersByTable ==>
        && outcome == Pass
        && trace.effects == old(trace.effects) + UpdateRowsEffects(entityListenersByTable[e.table].entityClass,
                                                                  entityListenersByTable[e.table].updateListeners, e.updates)
    {
      AllEvents(e);
      if e.table !in entityListenersByTable {
        return if e.updates != [] then Fail(UnboundTable(e.table)) else Pass;
      }
      DispatchUpdates(entityListenersByTable[e.table], e.updates);
      outcome := Pass;
    }

    /** Dispatches each deleted row, in order, to the listener bound to the
        event's table. */
    method OnDelete(e: Event) returns (outcome: Outcome)
      requires SharesTrace() && e.DeleteRows?
      modifies this`binLogCurrent, trace
      ensures binLogCurrent == Some(e.info)
      ensures e.table !in entityListenersByTable ==>
        outcome == (if e.rows != [] then Fail(UnboundTable(e.table)) else Pass) && trace.effects == old(trace.effects)
      ensures e.table in entityListenersByTable ==>
        && outcome == Pass
        && trace.effects == old(trace.effects) + DeleteRowsEffects(entityListenersByTable[e.table].entityClass,
                                                                  entityListenersByTable[e.table].deleteListeners, e.rows)
    {
      AllEvents(e);
      if e.table !in entityListenersByTable {
        return if e.rows != [] then Fail(UnboundTable(e.table)) else Pass;
      }
      DispatchDeletes(entityListenersByTable[e.table], e.rows);
      outcome := Pass;
    }

    /** What the subscribed stream does with one event. */
    method HandleEvent(e: Event) returns (outcome: Outcome)
      requires SharesTrace()
      modifies this`binLogCurrent, trace
      ensures binLogCurrent == Some(e.info)
      ensures outcome == EventOutcome(e)
      ensures trace.effects == old(trace.effects) + EventEffects(e)
    {
      match e {
        case WriteRows(_, _, _) => outcome := OnWrite(e);
        case UpdateRows(_, _, _) => outcome := OnUpdate(e);
        case DeleteRows(_, _, _) => outcome := OnDelete(e);
        case OtherEvent(_) => AllEvents(e); outcome := Pass;
      }
    }

    /** Opens the stream unless one is open already. */
    method Start() returns (outcome: Outcome)
      requires Valid()
      modifies this`binLogStream
      ensures old(binLogStream) != null ==> binLogStream == old(binLogStream) && outcome == Pass
      ensures old(binLogStream) == null && StartConfig().Err? ==> binLogStream == null && outcome == Fail(StartConfig().error)
      ensures old(binLogStream) == null && StartConfig().Ok? ==>
        binLogStream != null && fresh(binLogStream) && binLogStream.config == StartConfig().value && outcome == Pass
    {
      if binLogStream != null {
        return Pass;
      }
      var config := Config();
      match config {
        case Err(error) => outcome := Fail(error);
        case Ok(c) =>
          binLogStream := new BinLogStream(c);
          outcome := Pass;
      }
    }

    /** Consumes one event from the stream, starting the consumer first. */
    method Consume(e: Event) returns (outcome: Outcome)
      requires Valid()
      modifies this`binLogStream, this`binLogCurrent, trace
      ensures old(binLogStream) != null ==> binLogStream == old(binLogStream)
      ensures old(binLogStream) == null && old(StartConfig()).Err? ==>
        && binLogStream == null && outcome == Fail(old(StartConfig()).error)
        && binLogCurrent == old(binLogCurrent) && trace.effects == old(trace.effects)
      ensures old(binLogStream) != null || old(StartConfig()).Ok? ==>
        && binLogStream != null
        && (old(binLogStream) == null ==> fresh(binLogStream) && binLogStream.config == old(StartConfig()).value)
        && binLogCurrent == Some(e.info)
        && outcome == EventOutcome(e)
        && trace.effects == old(trace.effects) + EventEffects(e)
    {
      outcome := Start();
      if outcome.Fail? {
        return;
      }
      outcome := HandleEvent(e);
    }

    /** Closes the stream, if one is open, and saves the last position. */
    method Stop()
      requires Valid()
      modifies this`binLogStream, fs
      ensures binLogStream == null
      ensures fs.files == if old(binLogStream) == null then old(fs.files)
                          else SavedFiles(old(fs.files), logPositionFile, binLogCurrent)
    {
      if binLogStream == null {
        return;
      }
      binLogStream := null;
      SaveLastPosition();
    }

    /** Computes the stream configuration from the bound entities, in
        binding order. */
    method Config() returns (r: Result<Config>)
      requires Valid()
      ensures r == StartConfig()
    {
      var metas := Metas();
      var failure, databases, tables, username, password, host := ScanEntities(metas);
      if failure.Some? {
        return Err(NotMySqlConnection(failure.value));
      }
      r := BuildConfig(databases, tables, username, password, host);
    }

    /** The second half of `config()`: the builder calls, the configurator,
        and the build. */
    method BuildConfig(databases: seq<string>, tables: seq<string>, username: Option<string>, password: Option<string>, host: Option<string>)
      returns (r: Result<Config>)
      ensures r.Ok? && r.value.settings == Configured(configurator, Settings(databases, tables, binLogCurrent, username, password, host))
    {
      var builder := new ConfigBuilder();
      builder.With(SlaveId, Scalar(Number(100)));
      builder.With(HeartbeatPeriod, Scalar(Number(3)));
      builder.With(DatabasesOnly, Names(databases));
      builder.With(TablesOnly, Names(tables));
      if binLogCurrent.Some? {
        builder.With(BinLogPosition, Scalar(Number(binLogCurrent.value.binLogPosition)));
        builder.With(BinLogFileName, Scalar(Text(binLogCurrent.value.binFileName)));
      }
      if Truthy(username) {
        builder.With(User, Scalar(Text(username.value)));
      }
      if Truthy(password) {
        builder.With(Password, Scalar(Text(password.value)));
      }
      if Truthy(host) {
        builder.With(Host, Scalar(Text(host.value)));
      }
      if configurator.Some? {
        configurator.value.Configure(builder);
      }
      var config := builder.Build();
      r := Ok(config);
    }

    /** Reads the checkpoint file; leaves the position as it is when there
        is nothing valid to read. */
    method LoadLastPosition()
      modifies this`binLogCurrent
      ensures binLogCurrent == if LoadedPosition(fs.files, logPositionFile).Some?
                               then LoadedPosition(fs.files, logPositionFile) else old(binLogCurrent)
    {
      if !Truthy(logPositionFile) || logPositionFile.value !in fs.files {
        return;
      }
      var content := fs.files[logPositionFile.value];
      if !content.PositionValue? {
        return;
      }
      binLogCurrent := Some(content.position);
    }

    /** Writes the last position to the checkpoint file, when both are
        known. */
    method SaveLastPosition()
      modifies fs
      ensures fs.files == SavedFiles(old(fs.files), logPositionFile, binLogCurrent)
    {
      if !Truthy(logPositionFile) || binLogCurrent.None? {
        return;
      }
      fs.files := fs.files[logPositionFile.value := PositionValue(binLogCurrent.value)];
    }
  }
}
