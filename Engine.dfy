/**
 * The engine services the catch event calls, passed explicitly instead of being looked
 * up from a process-wide context: the event-subscription table, the event dispatcher
 * and the execution manager.
 */
module Engine {
  import opened Wrappers
  import opened Subscriptions

  /** Why an execution was deleted; only the reason this catch event gives is modelled. */
  datatype DeleteReason = EventBasedGatewayCancel

  /** Where an execution stands with respect to the catch node. */
  datatype ExecutionStatus =
    | AtNode                                          // reached the node and not yet moved on
    | Left                                            // left the node and continued along its outgoing flow
    | Deleted(reason: DeleteReason, cascade: bool)    // removed together with its related data

  /** The payload of a "message waiting" event; `correlationKey == None` is the `null` key. */
  datatype DispatchedEvent = MessageWaiting(executionId: ExecutionId, messageName: string, correlationKey: Option<string>)

  /** The errors the store reports to its caller. */
  datatype StoreError = RowNotFound(id: nat)

  /**
   * The state of one command: the subscription table (with the next free primary key),
   * the log of dispatched events, the status of each execution, and whether the event
   * dispatcher is enabled.
   */
  class CommandContext {
    const eventDispatcherEnabled: bool
    var store: seq<EventSubscription>
    var nextId: nat
    var dispatched: seq<DispatchedEvent>
    var statuses: map<ExecutionId, ExecutionStatus>

    /** Primary keys are distinct and all below the next key to be handed out. */
    ghost predicate Valid()
      reads this
    {
      DistinctIds(store) && forall s :: s in store ==> s.id < nextId
    }

    constructor (dispatcherEnabled: bool, executions: map<ExecutionId, ExecutionStatus>)
      ensures Valid()
      ensures eventDispatcherEnabled == dispatcherEnabled && statuses == executions
      ensures store == [] && nextId == 0 && dispatched == []
    {
      eventDispatcherEnabled := dispatcherEnabled;
      store := [];
      nextId := 0;
      dispatched := [];
      statuses := executions;
    }

    /** Persists a new message subscription of `owner` named `name`, with no key, under a fresh primary key. */
    method InsertMessageEvent(name: string, owner: ExecutionId) returns (sub: EventSubscription)
      requires Valid()
      modifies this
      ensures Valid()
      ensures sub == EventSubscription(old(nextId), Message, name, None, owner)
      ensures sub.id !in set s | s in old(store) :: s.id
      ensures store == old(store) + [sub]
      ensures nextId == old(nextId) + 1
      ensures dispatched == old(dispatched) && statuses == old(statuses)
    {
      sub := EventSubscription(nextId, Message, name, None, owner);
      store := store + [sub];
      nextId := nextId + 1;
    }

    /** Sets the correlation key of the row with primary key `id`. */
    method SetConfiguration(id: nat, key: string)
      requires Valid()
      modifies this
      ensures Valid()
      ensures store == Configure(old(store), id, key)
      ensures nextId == old(nextId) && dispatched == old(dispatched) && statuses == old(statuses)
    {
      var before := store;
      store := Configure(store, id, key);
      forall s | s in store ensures s.id < nextId {
        var i :| 0 <= i < |store| && store[i] == s;
        assert before[i] in before;
      }
    }

    /** Deletes the row whose primary key is that of `sub`; a key with no row is an error. */
    method Delete(sub: EventSubscription) returns (outcome: Outcome<StoreError>)
      requires Valid()
      modifies this
      ensures Valid()
      ensures outcome == (if exists s :: s in old(store) && s.id == sub.id then Pass else Fail(RowNotFound(sub.id)))
      ensures store == (if outcome.Pass? then DeleteById(old(store), sub.id) else old(store))
      ensures nextId == old(nextId) && dispatched == old(dispatched) && statuses == old(statuses)
    {
      if exists s :: s in store && s.id == sub.id {
        FilterKeepsDistinctIds(store, IdIsNot(sub.id));
        store := DeleteById(store, sub.id);
        outcome := Pass;
      } else {
        outcome := Fail(RowNotFound(sub.id));
      }
    }

    /** Hands `event` to the dispatcher, which records it. */
    method DispatchEvent(event: DispatchedEvent)
      modifies this
      ensures dispatched == old(dispatched) + [event]
      ensures store == old(store) && nextId == old(nextId) && statuses == old(statuses)
    {
      dispatched := dispatched + [event];
    }

    /** Moves `execution` past the catch node along its outgoing flow. */
    method LeaveIntermediateCatchEvent(execution: ExecutionId)
      modifies this
      ensures statuses == old(statuses)[execution := Left]
      ensures store == old(store) && nextId == old(nextId) && dispatched == old(dispatched)
    {
      statuses := statuses[execution := Left];
    }

    /** Deletes `execution` with `reason`, together with every subscription it still owns. */
    method DeleteExecutionAndRelatedData(execution: ExecutionId, reason: DeleteReason, cascade: bool)
      requires Valid()
      modifies this
      ensures Valid()
      ensures statuses == old(statuses)[execution := Deleted(reason, cascade)]
      ensures store == RemoveOwnedBy(old(store), execution)
      ensures nextId == old(nextId) && dispatched == old(dispatched)
    {
      FilterKeepsDistinctIds(store, OwnerIsNot(execution));
      store := RemoveOwnedBy(store, execution);
      statuses := statuses[execution := Deleted(reason, cascade)];
    }
  }
}
