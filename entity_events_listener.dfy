/** EntityEventsListener: the registry of insert, update and delete callbacks
    for one entity class, and the dispatch that turns a decoded row into an
    entity and hands it to those callbacks.

    Calling the callbacks is done by the EventNotifier trait of another
    package, which is not part of this model. Its behaviour is taken as
    given: callbacks of one kind run in registration order, and one that
    raises is logged once, at error level, naming the listener and the entity
    class, and does not stop the callbacks after it. */
module Listeners {
  import opened Base
  import opened Replication
  import opened Orm
  import opened Environment

  /** What calling one callback with `args` produces: the call, then the
      error record if the callback raises. */
  function Invocation(cls: EntityClass, cb: Callback, args: seq<Entity>): seq<Effect> {
    [Invoked(cb, args)] + (if cb.failure.Some? then [Logged(Error(cb.owner, cls, cb.failure.value))] else [])
  }

  /** What notifying the callbacks `cbs` with `args` produces. */
  function Notification(cls: EntityClass, cbs: seq<Callback>, args: seq<Entity>): seq<Effect>
    decreases |cbs|
  {
    if cbs == [] then [] else Invocation(cls, cbs[0], args) + Notification(cls, cbs[1..], args)
  }

  /** The calls among `effects`, in order. */
  function Calls(effects: seq<Effect>): (r: seq<Effect>)
    ensures forall e :: e in r ==> e.Invoked? && e in effects
    decreases |effects|
  {
    if effects == [] then []
    else (if effects[0].Invoked? then [effects[0]] else []) + Calls(effects[1..])
  }

  /** The error records among `effects`, in order. */
  function Errors(effects: seq<Effect>): (r: seq<LogRecord>)
    ensures forall rec :: rec in r ==> rec.Error?
    decreases |effects|
  {
    if effects == [] then []
    else (if effects[0].Logged? && effects[0].record.Error? then [effects[0].record] else []) + Errors(effects[1..])
  }

  lemma {:induction false} CallsAppend(a: seq<Effect>, b: seq<Effect>)
    ensures Calls(a + b) == Calls(a) + Calls(b)
    decreases |a|
  {
    if a == [] {
      assert a + b == b;
    } else {
      assert (a + b)[0] == a[0] && (a + b)[1..] == a[1..] + b;
      CallsAppend(a[1..], b);
    }
  }

  lemma {:induction false} ErrorsAppend(a: seq<Effect>, b: seq<Effect>)
    ensures Errors(a + b) == Errors(a) + Errors(b)
    decreases |a|
  {
    if a == [] {
      assert a + b == b;
    } else {
      assert (a + b)[0] == a[0] && (a + b)[1..] == a[1..] + b;
      ErrorsAppend(a[1..], b);
    }
  }

  /** The failing callbacks' error records, in registration order. */
  function FailureRecords(cls: EntityClass, cbs: seq<Callback>): seq<LogRecord>
    decreases |cbs|
  {
    if cbs == [] then []
    else (if cbs[0].failure.Some? then [Error(cbs[0].owner, cls, cbs[0].failure.value)] else [])
         + FailureRecords(cls, cbs[1..])
  }

  lemma InvocationCalls(cls: EntityClass, cb: Callback, args: seq<Entity>)
    ensures Calls(Invocation(cls, cb, args)) == [Invoked(cb, args)]
  {
    var first := Invocation(cls, cb, args);
    if cb.failure.Some? {
      var rec := Logged(Error(cb.owner, cls, cb.failure.value));
      assert first[1..] == [rec] && [rec][1..] == [];
      assert Calls([rec]) == [];
    } else {
      assert first[1..] == [];
    }
  }

  lemma InvocationErrors(cls: EntityClass, cb: Callback, args: seq<Entity>)
    ensures Errors(Invocation(cls, cb, args)) == FailureRecords(cls, [cb])
  {
    var first := Invocation(cls, cb, args);
    assert [cb][1..] == [];
    if cb.failure.Some? {
      var rec := Logged(Error(cb.owner, cls, cb.failure.value));
      assert first[1..] == [rec] && [rec][1..] == [];
      assert Errors([rec]) == [rec.record];
    } else {
      assert first[1..] == [];
    }
  }

  /** Error isolation, first half: every callback is called, once and in
      registration order, with the same arguments, whether or not the ones
      before it raised. */
  lemma {:induction false} NotificationCallsEvery(cls: EntityClass, cbs: seq<Callback>, args: seq<Entity>)
    ensures Calls(Notification(cls, cbs, args)) == seq(|cbs|, i requires 0 <= i < |cbs| => Invoked(cbs[i], args))
    decreases |cbs|
  {
    if cbs != [] {
      NotificationCallsEvery(cls, cbs[1..], args);
      CallsAppend(Invocation(cls, cbs[0], args), Notification(cls, cbs[1..], args));
      InvocationCalls(cls, cbs[0], args);
    }
  }

  /** Error isolation, second half: exactly one error record is logged per
      callback that raised, naming it and the entity class, in registration
      order. */
  lemma {:induction false} NotificationLogsFailures(cls: EntityClass, cbs: seq<Callback>, args: seq<Entity>)
    ensures Errors(Notification(cls, cbs, args)) == FailureRecords(cls, cbs)
    decreases |cbs|
  {
    if cbs != [] {
      NotificationLogsFailures(cls, cbs[1..], args);
      ErrorsAppend(Invocation(cls, cbs[0], args), Notification(cls, cbs[1..], args));
      InvocationErrors(cls, cbs[0], args);
    }
  }

  /** What dispatching one inserted row produces. */
  function WriteEffects(cls: EntityClass, cbs: seq<Callback>, row: Row): seq<Effect> {
    [Logged(Info("write", cls))] + Notification(cls, cbs, [Hydrate(cls, row)])
  }

  /** What dispatching one updated row produces: the row before and the row
      after are each turned into an entity, and passed in that order. */
  function UpdateEffects(cls: EntityClass, cbs: seq<Callback>, row: UpdateRow): seq<Effect> {
    [Logged(Info("update", cls))] + Notification(cls, cbs, [Hydrate(cls, row.before), Hydrate(cls, row.after)])
  }

  /** What dispatching one deleted row produces. */
  function DeleteEffects(cls: EntityClass, cbs: seq<Callback>, row: Row): seq<Effect> {
    [Logged(Info("delete", cls))] + Notification(cls, cbs, [Hydrate(cls, row)])
  }

  class EntityEventsListener {
    const entityClass: EntityClass
    /** Where the listener's logger writes and its callbacks are observed. */
    const trace: Trace
    var insertListeners: seq<Callback>
    var updateListeners: seq<Callback>
    var deleteListeners: seq<Callback>

    constructor (entityClass: EntityClass, trace: Trace)
      ensures this.entityClass == entityClass && this.trace == trace
      ensures insertListeners == [] && updateListeners == [] && deleteListeners == []
    {
      this.entityClass := entityClass;
      this.trace := trace;
      insertListeners, updateListeners, deleteListeners := [], [], [];
    }

    /** Registers a callback for inserted entities; returns the listener
        itself so that registrations can be chained. */
    method Inserted(cb: Callback) returns (self: EntityEventsListener)
      modifies this
      ensures self == this
      ensures insertListeners == old(insertListeners) + [cb]
      ensures updateListeners == old(updateListeners) && deleteListeners == old(deleteListeners)
    {
      insertListeners := insertListeners + [cb];
      self := this;
    }

    /** Registers a callback for updated entities, chainable. */
    method Updated(cb: Callback) returns (self: EntityEventsListener)
      modifies this
      ensures self == this
      ensures updateListeners == old(updateListeners) + [cb]
      ensures insertListeners == old(insertListeners) && deleteListeners == old(deleteListeners)
    {
      updateListeners := updateListeners + [cb];
      self := this;
    }

    /** Registers a callback for deleted entities, chainable. */
    method Deleted(cb: Callback) returns (self: EntityEventsListener)
      modifies this
      ensures self == this
      ensures deleteListeners == old(deleteListeners) + [cb]
      ensures insertListeners == old(insertListeners) && updateListeners == old(updateListeners)
    {
      deleteListeners := deleteListeners + [cb];
      self := this;
    }

    /** The row as an entity of this listener's class. */
    function ToEntity(row: Row): (e: Entity)
      ensures e.entityClass == entityClass
    {
      Hydrate(entityClass, row)
    }

    /** Logs the write, then notifies the insert callbacks. */
    method OnWrite(row: Row)
      modifies trace
      ensures trace.effects == old(trace.effects) + WriteEffects(entityClass, insertListeners, row)
    {
      var entity := ToEntity(row);
      trace.effects := trace.effects + [Logged(Info("write", entityClass))];
      trace.effects := trace.effects + Notification(entityClass, insertListeners, [entity]);
    }

    /** Logs the update, then notifies the update callbacks with the entity
        before and the entity after, in that order. */
    method OnUpdate(row: UpdateRow)
      modifies trace
      ensures trace.effects == old(trace.effects) + UpdateEffects(entityClass, updateListeners, row)
    {
      var before := ToEntity(row.before);
      var after := ToEntity(row.after);
      trace.effects := trace.effects + [Logged(Info("update", entityClass))];
      trace.effects := trace.effects + Notification(entityClass, updateListeners, [before, after]);
    }

    /** Logs the delete, then notifies the delete callbacks. */
    method OnDelete(row: Row)
      modifies trace
      ensures trace.effects == old(trace.effects) + DeleteEffects(entityClass, deleteListeners, row)
    {
      var entity := ToEntity(row);
      trace.effects := trace.effects + [Logged(Info("delete", entityClass))];
      trace.effects := trace.effects + Notification(entityClass, deleteListeners, [entity]);
    }
  }
}
