/** What the consumer asks of the Prime ORM: for an entity class, its table,
    the name of its connection and what that connection is, and a way to turn
    a decoded row into an entity. */
module Orm {
  import opened Base
  import opened Replication

  type EntityClass = string

  /** What the consumer needs to know of a connection. */
  datatype Driver =
    /** A Doctrine DBAL connection, with its platform and its parameters. */
    | Dbal(isMySql: bool, user: Option<string>, password: Option<string>, host: Option<string>)
    /** Any other kind of connection: no platform check, no credentials. */
    | OtherDriver

  datatype Connection = Connection(name: string, database: Option<string>, driver: Driver)

  /** An entity's repository metadata: its table and its connection. */
  datatype EntityMeta = EntityMeta(table: string, connection: Connection)

  /** The ORM's repositories: the classes it knows, with their metadata. A
      class outside the map has no repository. */
  type Schema = map<EntityClass, EntityMeta>

  /** An entity built by the class's mapper from a row. The mapper is opaque
      here: two entities are equal exactly when they come from the same class
      and the same row. */
  datatype Entity = Entity(entityClass: EntityClass, row: Row)

  function Hydrate(cls: EntityClass, row: Row): (e: Entity)
    ensures e.entityClass == cls
  {
    Entity(cls, row)
  }
}
