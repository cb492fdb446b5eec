# Message intermediate catch event

This project models the behaviour of the BPMN *intermediate message catch event* in the
Activiti workflow engine (`IntermediateCatchMessageEventActivityBehavior`). It proves
properties of that model in Dafny.

An execution that reaches the node resolves a message name and an optional correlation
key. It inserts a message event subscription for itself and keeps the key as the
subscription's configuration. When the event dispatcher is enabled, it announces a
"message waiting" event. Later one of two things happens:

- The message arrives (`trigger`). The execution deletes every message subscription it
  owns under the re-resolved name and leaves the node.
- A competing branch of an event-based gateway wins (`eventCancelledByEventGateway`). The
  execution deletes the same subscriptions and is then deleted itself, with reason
  "event-based gateway cancel" and no cascade.

Files:

- `Wrappers.dfy`: `Option`, `Result` and `Outcome`.
- `Sequences.dfy`: an order-preserving `Filter` on sequences, with its algebra.
- `Subscriptions.dfy`: the subscription record and the views of the subscription table
  that the node reads and writes. It also holds the lemmas about them, including the
  step lemmas of the deletion loop.
- `Engine.dfy`: class `CommandContext`. It holds the subscription table, the next primary
  key, the log of dispatched events, each execution's status and the dispatcher's
  enabled flag. Its methods are the store, dispatcher and execution-manager operations
  that the node calls.
- `MessageCatch.dfy`: class `MessageCatchBehavior`, the node itself. It holds the message
  definition and the resolver as constants. The file ends with two client scenarios.

In the source, the ambient command context is looked up globally. Here it is passed to
every operation as the `CommandContext` argument. The message-name and correlation-key
resolvers are functions of the execution: each returns a value or an `EvaluationError`.
"The execution's subscription list" is the view `OwnedBy(store, id)`. The deletion loop
walks a snapshot of that list taken before the first deletion.

Where the design description and the code disagree, the model follows the code:

- The description says that after entering the node exactly one subscription with that
  name exists for the execution. The code does not check for an earlier one. `Execute`
  adds exactly one subscription (`InsertAddsOneMatch`), so after entering the node twice
  there are two.
- If the correlation key fails to evaluate, the code reports the error after the
  subscription was inserted. `Execute` states exactly that state, and leaves the rollback
  to the host.

## Model

| member | source | states |
|---|---|---|
| `MessageCatch.MessageCatchBehavior.constructor` | activiti-engine/src/main/java/org/activiti/engine/impl/bpmn/behavior/IntermediateCatchMessageEventActivityBehavior.java:37-41 | the two accessors return exactly the message definition and the resolver the node was built with |
| `MessageCatch.MessageCatchBehavior.Execute` | activiti-engine/src/main/java/org/activiti/engine/impl/bpmn/behavior/IntermediateCatchMessageEventActivityBehavior.java:43-61 | if the name fails to resolve, that error is returned and nothing changes; otherwise the table gains exactly one row, a message subscription of this execution under the resolved name and the next key, and nothing else in the table changes; the row's configuration is the key when one resolves and stays absent (not "") when none does; exactly one MessageWaiting(execution, name, key-or-null) event is logged when the dispatcher is enabled, and none when it is disabled; a key that fails to evaluate returns its error after the insertion and logs no event; the execution's status is unchanged, because it waits at the node |
| `MessageCatch.MessageCatchBehavior.DeleteMessageEventSubscription` | activiti-engine/src/main/java/org/activiti/engine/impl/bpmn/behavior/IntermediateCatchMessageEventActivityBehavior.java:76-89 | the loop over the execution's list leaves the table equal to RemoveMatching(old table, execution, re-resolved name), which deletes exactly the message rows of this execution with that name; no deletion in the loop hits a missing row; the execution is returned; if the name fails to resolve, the error is returned and the table is unchanged; keys, log and statuses are unchanged |
| `MessageCatch.MessageCatchBehavior.Trigger` | activiti-engine/src/main/java/org/activiti/engine/impl/bpmn/behavior/IntermediateCatchMessageEventActivityBehavior.java:63-67 | for any trigger name and any trigger data: deletes the matching rows and sets the execution's status to Left, even when nothing matched; it never marks the execution deleted; if name resolution fails, nothing changes |
| `MessageCatch.MessageCatchBehavior.EventCancelledByEventGateway` | activiti-engine/src/main/java/org/activiti/engine/impl/bpmn/behavior/IntermediateCatchMessageEventActivityBehavior.java:69-74 | deletes the matching rows, then marks the execution Deleted(EventBasedGatewayCancel, cascade false) and never Left; the execution's remaining rows go with it, so no row of the execution remains; if name resolution fails, nothing changes |
| `Engine.CommandContext.InsertMessageEvent` | activiti-engine/src/main/java/org/activiti/engine/impl/bpmn/behavior/IntermediateCatchMessageEventActivityBehavior.java:48-50 | appends a message subscription for the execution under the name, with no configuration and a primary key no existing row has; keys stay distinct |
| `Engine.CommandContext.SetConfiguration` | activiti-engine/src/main/java/org/activiti/engine/impl/bpmn/behavior/IntermediateCatchMessageEventActivityBehavior.java:53 | sets only the configuration of the row with the given key; every other field and every other row is unchanged |
| `Engine.CommandContext.DispatchEvent` | activiti-engine/src/main/java/org/activiti/engine/impl/bpmn/behavior/IntermediateCatchMessageEventActivityBehavior.java:56-59 | appends the event to the dispatched log and changes nothing else |
| `Engine.CommandContext.Delete` | activiti-engine/src/main/java/org/activiti/engine/impl/bpmn/behavior/IntermediateCatchMessageEventActivityBehavior.java:85 | deletes exactly the row with the subscription's key; a key with no row is a RowNotFound error and the table is unchanged |
| `Engine.CommandContext.LeaveIntermediateCatchEvent` | activiti-engine/src/main/java/org/activiti/engine/impl/bpmn/behavior/IntermediateCatchMessageEventActivityBehavior.java:66 | sets only the execution's status to Left |
| `Engine.CommandContext.DeleteExecutionAndRelatedData` | activiti-engine/src/main/java/org/activiti/engine/impl/bpmn/behavior/IntermediateCatchMessageEventActivityBehavior.java:72-73 | sets the execution's status to Deleted with the given reason and cascade flag, and deletes exactly the rows the execution owns |
| `Subscriptions.OwnedBy` | activiti-engine/src/main/java/org/activiti/engine/impl/bpmn/behavior/IntermediateCatchMessageEventActivityBehavior.java:81 | the execution's subscription list holds exactly the rows whose owner is the execution |
| `Subscriptions.RemoveMatching` | activiti-engine/src/main/java/org/activiti/engine/impl/bpmn/behavior/IntermediateCatchMessageEventActivityBehavior.java:82-86 | a row survives iff it is not a message subscription of the execution with that name; other kinds, other names and other owners all survive; the table never grows |
| `Subscriptions.Configure` | activiti-engine/src/main/java/org/activiti/engine/impl/bpmn/behavior/IntermediateCatchMessageEventActivityBehavior.java:53 | same length and keys; only the row with the key changes, and only its configuration, which becomes the key value |
| `Subscriptions.ConfigureLast` | activiti-engine/src/main/java/org/activiti/engine/impl/bpmn/behavior/IntermediateCatchMessageEventActivityBehavior.java:48-53 | setting the key on the row just inserted under a fresh key gives the old table plus that row with its configuration set |
| `Subscriptions.RemoveOwnedBy` | activiti-engine/src/main/java/org/activiti/engine/impl/bpmn/behavior/IntermediateCatchMessageEventActivityBehavior.java:72-73 | a row survives iff its owner is not the deleted execution |
| `Subscriptions.RemoveMatchingKeepsOtherOwners` | activiti-engine/src/main/java/org/activiti/engine/impl/bpmn/behavior/IntermediateCatchMessageEventActivityBehavior.java:81-85 | after the deletion, every other execution's subscription list is exactly what it was, in the same order |
| `Subscriptions.RemoveMatchingIdempotent` | activiti-engine/src/main/java/org/activiti/engine/impl/bpmn/behavior/IntermediateCatchMessageEventActivityBehavior.java:76-89 | running the deletion a second time with the same name deletes nothing more |
| `Subscriptions.RemoveMatchingWithoutMatch` | activiti-engine/src/main/java/org/activiti/engine/impl/bpmn/behavior/IntermediateCatchMessageEventActivityBehavior.java:82-86 | when nothing matches, the deletion leaves the table exactly as it was, so a trigger with no match only leaves the node |
| `Subscriptions.RemoveMatchingUndoesInsert` | activiti-engine/src/main/java/org/activiti/engine/impl/bpmn/behavior/IntermediateCatchMessageEventActivityBehavior.java:48-86 | when the table had no match before, deleting the matches after the insertion of `execute` restores the table exactly |
| `Subscriptions.InsertAddsOneMatch` | activiti-engine/src/main/java/org/activiti/engine/impl/bpmn/behavior/IntermediateCatchMessageEventActivityBehavior.java:48-50 | the insertion adds exactly one match for (execution, name), the new row; earlier matches are kept, so entering twice leaves two |
| `Subscriptions.RemoveOwnedAbsorbsRemoveMatching` | activiti-engine/src/main/java/org/activiti/engine/impl/bpmn/behavior/IntermediateCatchMessageEventActivityBehavior.java:71-73 | after the gateway cancellation, the table is the old table without any row of the execution |
| `Subscriptions.MatchingIgnoresConfiguration` | activiti-engine/src/main/java/org/activiti/engine/impl/bpmn/behavior/IntermediateCatchMessageEventActivityBehavior.java:83-84 | two rows that match and differ only in key and configuration are both deleted; the stored correlation key is never compared |
| `Subscriptions.SweptStep` | activiti-engine/src/main/java/org/activiti/engine/impl/bpmn/behavior/IntermediateCatchMessageEventActivityBehavior.java:82-86 | one loop iteration: a visited row that matches is still in the table, because the list holds each row once, and deleting it by key extends the sweep; a row that does not match changes nothing |
| `Subscriptions.SweptOwnedIsRemoveMatching` | activiti-engine/src/main/java/org/activiti/engine/impl/bpmn/behavior/IntermediateCatchMessageEventActivityBehavior.java:81-87 | once the whole list of the execution is visited, the swept table is exactly RemoveMatching |

## Left out

- `getMessageEventDefinition` and `getMessageExecutionContext` are plain accessors. The model has them as functions without their own contract: the constructor's contract already says what they return.
- The global command-context and engine-configuration lookups are not modelled. `CommandContext` is passed explicitly instead.
- Evaluation of the message-name and correlation-key expressions is not modelled. They are functions of the execution (its id and variables) supplied with the resolver.
- Event construction and delivery are not modelled. Only the payload of the "message waiting" event is appended to a log.
- Persistence is reduced to a sequence of rows. Primary keys come from a counter, and creation timestamps, the database and flushing are not modelled. Entities are values, so `setConfiguration` on the entity object is an update of its row, and aliasing of entity objects is not modelled.
- `leaveIntermediateCatchEvent` (in the base class, not part of this model) is a status change to `Left`.
- `deleteExecutionAndRelatedData` is a status change plus the deletion of the execution's remaining subscriptions. History, variables, child executions and further events of that operation are not modelled.
- Only the `EVENT_BASED_GATEWAY_CANCEL` delete reason is modelled, as a constructor rather than its string value.
- Transaction rollback after a failure belongs to the host and is not modelled. Each method reports the state as the operation leaves it when the error is raised.
- Concurrency and the serialisation of commands belong to the host. The code has none of its own.
- Event names are non-null strings, so the `NullPointerException` a null name would raise in `equals` is not modelled.
- The Java cast to `ExecutionEntity` and `serialVersionUID` are not modelled.
- Deleting from the list while iterating over it is modelled as a loop over a snapshot of the list.
