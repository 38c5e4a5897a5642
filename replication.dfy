/** The parts of the MySQL replication client library the consumer talks to:
    binlog positions, row events, the configuration builder and the stream.
    The wire protocol itself is not modelled; a stream only carries the
    configuration it was opened with, and the events it delivers are given to
    the consumer by its caller. */
module Replication {
  import opened Base

  /** A binlog position (the library's BinLogCurrent): a log file and an
      offset in it. */
  datatype BinLogCurrent = BinLogCurrent(binLogPosition: int, binFileName: string)

  /** One row as the stream decodes it: column name to raw value. */
  type Row = map<string, Value>

  datatype UpdateRow = UpdateRow(before: Row, after: Row)

  /** The events a stream hands to its subscriber. Every event carries the
      binlog position it was read at. */
  datatype Event =
    | WriteRows(info: BinLogCurrent, table: string, rows: seq<Row>)
    | UpdateRows(info: BinLogCurrent, table: string, updates: seq<UpdateRow>)
    | DeleteRows(info: BinLogCurrent, table: string, rows: seq<Row>)
    /** Any other event: heartbeat, rotation, table map, query, ... */
    | OtherEvent(info: BinLogCurrent)

  /** The settings of the library's ConfigBuilder, one per `with<Name>`
      method. */
  datatype Setting =
    | User | Host | Port | Password | Charset | Gtid | MariaDbGtid | SlaveId
    | BinLogFileName | BinLogPosition | EventsOnly | EventsIgnore | TablesOnly
    | DatabasesOnly | Custom | TableCacheSize | HeartbeatPeriod | SlaveUuid

  /** Every setting the builder has, in the order its methods are declared. */
  const AllSettings: seq<Setting> := [
    User, Host, Port, Password, Charset, Gtid, MariaDbGtid, SlaveId,
    BinLogFileName, BinLogPosition, EventsOnly, EventsIgnore, TablesOnly,
    DatabasesOnly, Custom, TableCacheSize, HeartbeatPeriod, SlaveUuid]

  lemma AllSettingsComplete(s: Setting)
    ensures s in AllSettings
  {
    match s
    case User => case Host => case Port => case Password => case Charset =>
    case Gtid => case MariaDbGtid => case SlaveId => case BinLogFileName =>
    case BinLogPosition => case EventsOnly => case EventsIgnore =>
    case TablesOnly => case DatabasesOnly => case Custom => case TableCacheSize =>
    case HeartbeatPeriod => case SlaveUuid =>
  }

  function FindSetting(candidates: seq<Setting>, lowered: string): (r: Option<Setting>)
    ensures r.Some? ==> r.value in candidates && Lower(SettingName(r.value)) == lowered
    ensures r.None? ==> forall s :: s in candidates ==> Lower(SettingName(s)) != lowered
  {
    if candidates == [] then None
    else if Lower(SettingName(candidates[0])) == lowered then Some(candidates[0])
    else FindSetting(candidates[1..], lowered)
  }

  /** The builder method `with<name>`, if the builder has one. PHP looks
      method names up without regard to ASCII case. */
  function SettingFor(name: string): Option<Setting> {
    FindSetting(AllSettings, Lower(name))
  }

  /** `with<name>` is found exactly when some builder method has that name
      up to ASCII case, and then it is that method. */
  lemma SettingForMatches(name: string)
    ensures SettingFor(name).Some? ==> Lower(SettingName(SettingFor(name).value)) == Lower(name)
    ensures SettingFor(name).None? ==> forall s :: Lower(SettingName(s)) != Lower(name)
  {
    forall s ensures s in AllSettings {
      AllSettingsComplete(s);
    }
  }

  /** The name that follows `with` in the setting's builder method. */
  function SettingName(s: Setting): string {
    match s
    case User => "user"
    case Host => "host"
    case Port => "port"
    case Password => "password"
    case Charset => "charset"
    case Gtid => "gtid"
    case MariaDbGtid => "mariaDbGtid"
    case SlaveId => "slaveId"
    case BinLogFileName => "binLogFileName"
    case BinLogPosition => "binLogPosition"
    case EventsOnly => "eventsOnly"
    case EventsIgnore => "eventsIgnore"
    case TablesOnly => "tablesOnly"
    case DatabasesOnly => "databasesOnly"
    case Custom => "custom"
    case TableCacheSize => "tableCacheSize"
    case HeartbeatPeriod => "heartbeatPeriod"
    case SlaveUuid => "slaveUuid"
  }

  /** An argument passed to a builder method: a scalar, or a list of names
      (the database and table filters). */
  datatype Argument = Scalar(value: Value) | Names(names: seq<string>)

  /** What the builder builds: every setting that was given a value. */
  datatype Config = Config(settings: map<Setting, Argument>)

  /** The library's ConfigBuilder: each `with<Name>` call records a value. */
  class ConfigBuilder {
    var settings: map<Setting, Argument>

    constructor ()
      ensures settings == map[]
    {
      settings := map[];
    }

    method With(s: Setting, a: Argument)
      modifies this
      ensures settings == old(settings)[s := a]
    {
      settings := settings[s := a];
    }

    method Build() returns (c: Config)
      ensures c.settings == settings
    {
      c := Config(settings);
    }
  }

  /** An open replication stream (the library's MySQLReplicationFactory),
      opened with the given configuration. */
  class BinLogStream {
    const config: Config

    constructor (config: Config)
      ensures this.config == config
    {
      this.config := config;
    }
  }
}
