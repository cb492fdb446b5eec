/**
 * The intermediate catch event that waits for a named message: subscribing the arriving
 * execution, and on trigger or on cancellation by an event-based gateway deleting the
 * execution's message subscriptions of that name before leaving the node or deleting
 * the execution.
 */
module MessageCatch {
  import opened Wrappers
  import opened Subscriptions
  import opened Engine

  /** An execution as the resolvers see it: its id and the process variables in scope. */
  datatype Execution = Execution(id: ExecutionId, variables: map<string, string>)

  /** A message name or correlation key expression that could not be evaluated. */
  datatype EvaluationError = EvaluationError(expression: string)

  /** The message definition of the catch event, as parsed from the process model. */
  datatype MessageEventDefinition = MessageEventDefinition(
    messageRef: string,
    messageExpression: Option<string>,
    correlationKey: Option<string>)

  /**
   * Resolves, for an execution, the name of the awaited message and its optional
   * correlation key. Absence of a key is a success (`Success(None)`), not an error.
   */
  datatype MessageExecutionContext = MessageExecutionContext(
    messageName: Execution -> Result<string, EvaluationError>,
    correlationKey: Execution -> Result<Option<string>, EvaluationError>)

  class MessageCatchBehavior {
    const messageEventDefinition: MessageEventDefinition
    const messageExecutionContext: MessageExecutionContext

    constructor (definition: MessageEventDefinition, resolver: MessageExecutionContext)
      ensures GetMessageEventDefinition() == definition
      ensures GetMessageExecutionContext() == resolver
    {
      messageEventDefinition := definition;
      messageExecutionContext := resolver;
    }

    function GetMessageEventDefinition(): MessageEventDefinition
    {
      messageEventDefinition
    }

    function GetMessageExecutionContext(): MessageExecutionContext
    {
      messageExecutionContext
    }

    /**
     * Entering the node: subscribe `execution` to the resolved message, store the key when
     * there is one, and announce the wait when the dispatcher is enabled. The execution
     * stays at the node. A key that fails to evaluate is reported after the subscription
     * was inserted, which is the order the operation runs in.
     */
    method Execute(ctx: CommandContext, execution: Execution) returns (outcome: Outcome<EvaluationError>)
      requires ctx.Valid()
      modifies ctx
      ensures ctx.Valid()
      ensures ctx.statuses == old(ctx.statuses)
      ensures match messageExecutionContext.messageName(execution)
        case Failure(err) =>
          outcome == Fail(err) &&
          ctx.store == old(ctx.store) && ctx.nextId == old(ctx.nextId) && ctx.dispatched == old(ctx.dispatched)
        case Success(name) =>
          var sub := EventSubscription(old(ctx.nextId), Message, name, None, execution.id);
          ctx.nextId == old(ctx.nextId) + 1 &&
          match messageExecutionContext.correlationKey(execution)
            case Failure(err) =>
              outcome == Fail(err) && ctx.store == old(ctx.store) + [sub] && ctx.dispatched == old(ctx.dispatched)
            case Success(key) =>
              outcome == Pass &&
              ctx.store == old(ctx.store) + [sub.(configuration := key)] &&
              ctx.dispatched == old(ctx.dispatched) +
                (if ctx.eventDispatcherEnabled then [MessageWaiting(execution.id, name, key)] else [])
    {
      var nameResult := messageExecutionContext.messageName(execution);
      if nameResult.Failure? {
        return Fail(nameResult.error);
      }
      var name := nameResult.value;
      var sub := ctx.InsertMessageEvent(name, execution.id);
      var keyResult := messageExecutionContext.correlationKey(execution);
      if keyResult.Failure? {
        return Fail(keyResult.error);
      }
      var key := keyResult.value;
      if key.Some? {
        ConfigureLast(old(ctx.store), sub, key.value);
        ctx.SetConfiguration(sub.id, key.value);
      }
      if ctx.eventDispatcherEnabled {
        ctx.DispatchEvent(MessageWaiting(execution.id, name, key));
      }
      outcome := Pass;
    }

    /**
     * Deletes every message subscription of `execution` whose name is the re-resolved
     * message name, visiting the execution's subscription list once. The correlation
     * key is not compared. No deletion can hit a missing row: the list holds each row once.
     */
    method DeleteMessageEventSubscription(ctx: CommandContext, execution: Execution)
      returns (result: Result<ExecutionId, EvaluationError>)
      requires ctx.Valid()
      modifies ctx
      ensures ctx.Valid()
      ensures ctx.nextId == old(ctx.nextId) && ctx.dispatched == old(ctx.dispatched) && ctx.statuses == old(ctx.statuses)
      ensures match messageExecutionContext.messageName(execution)
        case Failure(err) => result == Failure(err) && ctx.store == old(ctx.store)
        case Success(name) => result == Success(execution.id) && ctx.store == RemoveMatching(old(ctx.store), execution.id, name)
    {
      var nameResult := messageExecutionContext.messageName(execution);
      if nameResult.Failure? {
        return Failure(nameResult.error);
      }
      var name := nameResult.value;
      var subscriptions := OwnedBy(ctx.store, execution.id);
      ghost var initial := ctx.store;
      SweptNothing(initial, execution.id, name);
      var i := 0;
      while i < |subscriptions|
        invariant 0 <= i <= |subscriptions|
        invariant ctx.Valid()
        invariant ctx.store == Swept(initial, subscriptions[..i], execution.id, name)
        invariant ctx.nextId == old(ctx.nextId) && ctx.dispatched == old(ctx.dispatched) && ctx.statuses == old(ctx.statuses)
      {
        var sub := subscriptions[i];
        SweptStep(initial, subscriptions, i, execution.id, name);
        if sub.kind == Message && sub.eventName == name {
          var deleted := ctx.Delete(sub);
        }
        i := i + 1;
      }
      assert subscriptions[..i] == subscriptions;
      SweptOwnedIsRemoveMatching(initial, execution.id, name);
      result := Success(execution.id);
    }

    /**
     * A message arrived for this node: delete the matching subscriptions and leave the
     * node, whether or not anything matched. The trigger's name and data play no part.
     */
    method Trigger<Data>(ctx: CommandContext, execution: Execution, triggerName: Option<string>, triggerData: Data)
      returns (outcome: Outcome<EvaluationError>)
      requires ctx.Valid()
      modifies ctx
      ensures ctx.Valid()
      ensures ctx.nextId == old(ctx.nextId) && ctx.dispatched == old(ctx.dispatched)
      ensures match messageExecutionContext.messageName(execution)
        case Failure(err) =>
          outcome == Fail(err) && ctx.store == old(ctx.store) && ctx.statuses == old(ctx.statuses)
        case Success(name) =>
          outcome == Pass &&
          ctx.store == RemoveMatching(old(ctx.store), execution.id, name) &&
          ctx.statuses == old(ctx.statuses)[execution.id := Left]
    {
      var deleted := DeleteMessageEventSubscription(ctx, execution);
      if deleted.Failure? {
        return Fail(deleted.error);
      }
      ctx.LeaveIntermediateCatchEvent(deleted.value);
      outcome := Pass;
    }

    /**
     * A competing branch of an event-based gateway won: delete the matching subscriptions,
     * then delete the execution (and what it still owns) without leaving the node.
     */
    method EventCancelledByEventGateway(ctx: CommandContext, execution: Execution)
      returns (outcome: Outcome<EvaluationError>)
      requires ctx.Valid()
      modifies ctx
      ensures ctx.Valid()
      ensures ctx.nextId == old(ctx.nextId) && ctx.dispatched == old(ctx.dispatched)
      ensures match messageExecutionContext.messageName(execution)
        case Failure(err) =>
          outcome == Fail(err) && ctx.store == old(ctx.store) && ctx.statuses == old(ctx.statuses)
        case Success(name) =>
          outcome == Pass &&
          ctx.store == RemoveOwnedBy(RemoveMatching(old(ctx.store), execution.id, name), execution.id) &&
          ctx.store == RemoveOwnedBy(old(ctx.store), execution.id) &&
          ctx.statuses == old(ctx.statuses)[execution.id := Deleted(EventBasedGatewayCancel, false)]
    {
      var deleted := DeleteMessageEventSubscription(ctx, execution);
      if deleted.Failure? {
        return Fail(deleted.error);
      }
      ctx.DeleteExecutionAndRelatedData(execution.id, EventBasedGatewayCancel, false);
      RemoveOwnedAbsorbsRemoveMatching(old(ctx.store), execution.id, messageExecutionContext.messageName(execution).value);
      outcome := Pass;
    }
  }

  /**
   * Two executions wait for "Approved"; the message for the first removes only the
   * first one's subscription and moves it on, while the second keeps waiting.
   */
  method ApprovedScenario()
  {
    var resolver := MessageExecutionContext(e => Success("Approved"), e => Success(None));
    var behavior := new MessageCatchBehavior(MessageEventDefinition("Approved", None, None), resolver);
    var ctx := new CommandContext(true, map["e1" := AtNode, "e2" := AtNode]);
    var e1 := Execution("e1", map[]);
    var e2 := Execution("e2", map[]);
    var entered1 := behavior.Execute(ctx, e1);
    var entered2 := behavior.Execute(ctx, e2);
    var first := EventSubscription(0, Message, "Approved", None, "e1");
    var second := EventSubscription(1, Message, "Approved", None, "e2");
    assert ctx.store == [first, second];
    assert ctx.dispatched == [MessageWaiting("e1", "Approved", None), MessageWaiting("e2", "Approved", None)];
    var triggered := behavior.Trigger(ctx, e1, Some("Approved"), 0);
    assert triggered == Pass;
    assert first !in ctx.store && second in ctx.store;
    assert ctx.statuses["e1"] == Left && ctx.statuses["e2"] == AtNode;
  }

  /**
   * An execution waits for "OrderReceived" with correlation key "42"; a competing gateway
   * branch wins, so its subscription is gone and the execution is deleted, not left.
   */
  method GatewayCancelScenario()
  {
    var resolver := MessageExecutionContext(e => Success("OrderReceived"), e => Success(Some("42")));
    var behavior := new MessageCatchBehavior(MessageEventDefinition("OrderReceived", None, Some("42")), resolver);
    var ctx := new CommandContext(false, map["e" := AtNode]);
    var e := Execution("e", map[]);
    var entered := behavior.Execute(ctx, e);
    assert ctx.store == [EventSubscription(0, Message, "OrderReceived", Some("42"), "e")];
    assert ctx.dispatched == [];
    var cancelled := behavior.EventCancelledByEventGateway(ctx, e);
    assert ctx.store == [];
    assert ctx.statuses["e"] == Deleted(EventBasedGatewayCancel, false);
  }
}
