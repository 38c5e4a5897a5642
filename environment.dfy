/** The world around the consumer that it reads and changes: the filesystem
    holding the checkpoint file, and what an observer sees of a run — log
    records and calls of user callbacks, in the order they happen. */
module Environment {
  import opened Base
  import opened Replication
  import opened Orm

  /** What PHP's `unserialize` makes of a file's content, with only
      BinLogCurrent allowed as a class. */
  datatype Decoded =
    | PositionValue(position: BinLogCurrent)
    /** A value of any other type, an object of a class not allowed included. */
    | OtherValue
    /** Content `unserialize` rejects. */
    | Undecodable

  /** The files that exist, by path, with what their content decodes to. */
  class FileSystem {
    var files: map<string, Decoded>

    constructor (files: map<string, Decoded>)
      ensures this.files == files
    {
      this.files := files;
    }
  }

  /** A user callback registered on an entity listener. `owner` is the
      listener's identity as the error log names it ("Closure" for a closure,
      the class of the object for a method), `handler` tells callbacks of one
      owner apart, and `failure` is the message of the exception the callback
      raises when it is called, if it raises one. */
  datatype Callback = Callback(owner: string, handler: string, failure: Option<string>)

  datatype LogRecord =
    /** "[MySQL Event] <action> on <entity class>", at info level. */
    | Info(action: string, entityClass: EntityClass)
    /** "Error during the execution of listener <listener> for entity
        <entity class> : <message>", at error level. */
    | Error(listener: string, entityClass: EntityClass, message: string)

  datatype Effect =
    | Logged(record: LogRecord)
    | Invoked(callback: Callback, args: seq<Entity>)

  /** Everything observed so far, oldest first. */
  class Trace {
    var effects: seq<Effect>

    constructor ()
      ensures effects == []
    {
      effects := [];
    }
  }
}
