/**
 * Event-subscription records and the views of the subscription table that the
 * message catch event reads and writes: the subscriptions an execution owns,
 * the message subscriptions it matches by name, and what is left after deleting them.
 */
module Subscriptions {
  import opened Wrappers
  import opened Sequences

  type ExecutionId = string

  /** The concrete subscription entity class: only `Message` subscriptions are ever matched here. */
  datatype EventKind = Message | Signal | Compensate

  /**
   * One row of the subscription table. `configuration` holds the correlation key of a
   * message subscription; `None` (never set) is distinct from `Some("")`.
   */
  datatype EventSubscription = EventSubscription(
    id: nat,
    kind: EventKind,
    eventName: string,
    configuration: Option<string>,
    executionId: ExecutionId)

  /** The test of the deletion loop: a message subscription of `owner` named `name`; the stored key plays no part. */
  predicate Matches(s: EventSubscription, owner: ExecutionId, name: string)
  {
    s.executionId == owner && s.kind == Message && s.eventName == name
  }

  /** The filters the views below are built from, as function values shared by the lemmas. */
  function OwnerIs(owner: ExecutionId): EventSubscription -> bool { (s: EventSubscription) => s.executionId == owner }
  function OwnerIsNot(owner: ExecutionId): EventSubscription -> bool { (s: EventSubscription) => s.executionId != owner }
  function MatchesName(owner: ExecutionId, name: string): EventSubscription -> bool { s => Matches(s, owner, name) }
  function DoesNotMatch(owner: ExecutionId, name: string): EventSubscription -> bool { s => !Matches(s, owner, name) }
  function IdIsNot(id: nat): EventSubscription -> bool { (s: EventSubscription) => s.id != id }
  function NotSwept(visited: seq<EventSubscription>, owner: ExecutionId, name: string): EventSubscription -> bool
  {
    s => !(Matches(s, owner, name) && s in visited)
  }

  /** No two rows of the table share an id. */
  ghost predicate DistinctIds(store: seq<EventSubscription>)
  {
    forall i, j :: 0 <= i < j < |store| ==> store[i].id != store[j].id
  }

  /** The subscriptions `owner` holds, in table order: what the execution's subscription list shows. */
  function OwnedBy(store: seq<EventSubscription>, owner: ExecutionId): (r: seq<EventSubscription>)
    ensures forall s :: s in r <==> s in store && s.executionId == owner
  {
    Filter(store, OwnerIs(owner))
  }

  /** The message subscriptions of `owner` named `name`. */
  function Matching(store: seq<EventSubscription>, owner: ExecutionId, name: string): (r: seq<EventSubscription>)
    ensures forall s :: s in r <==> s in store && Matches(s, owner, name)
  {
    Filter(store, MatchesName(owner, name))
  }

  /** The table once every message subscription of `owner` named `name` is deleted. */
  function RemoveMatching(store: seq<EventSubscription>, owner: ExecutionId, name: string): (r: seq<EventSubscription>)
    ensures |r| <= |store|
    ensures forall s :: s in r <==> s in store && !Matches(s, owner, name)
  {
    Filter(store, DoesNotMatch(owner, name))
  }

  /** The table once the row with primary key `id` is deleted. */
  function DeleteById(store: seq<EventSubscription>, id: nat): (r: seq<EventSubscription>)
    ensures forall s :: s in r <==> s in store && s.id != id
  {
    Filter(store, IdIsNot(id))
  }

  /** The table once every subscription of `owner`, of any kind, is deleted. */
  function RemoveOwnedBy(store: seq<EventSubscription>, owner: ExecutionId): (r: seq<EventSubscription>)
    ensures forall s :: s in r <==> s in store && s.executionId != owner
  {
    Filter(store, OwnerIsNot(owner))
  }

  /** The table once the row with key `id` has its correlation key set to `key`; nothing else moves or changes. */
  function Configure(store: seq<EventSubscription>, id: nat, key: string): (r: seq<EventSubscription>)
    ensures |r| == |store|
    ensures forall i :: 0 <= i < |r| ==> r[i].id == store[i].id
    ensures forall i :: 0 <= i < |r| && store[i].id != id ==> r[i] == store[i]
    ensures forall i :: 0 <= i < |r| && store[i].id == id ==>
              r[i].configuration == Some(key) && r[i].(configuration := store[i].configuration) == store[i]
  {
    seq(|store|, i requires 0 <= i < |store| =>
      if store[i].id == id then store[i].(configuration := Some(key)) else store[i])
  }

  /** Setting the key of a row just appended, under a key no earlier row has, changes only that row. */
  lemma ConfigureLast(store: seq<EventSubscription>, sub: EventSubscription, key: string)
    requires forall s :: s in store ==> s.id != sub.id
    ensures Configure(store + [sub], sub.id, key) == store + [sub.(configuration := Some(key))]
  {
    var r := Configure(store + [sub], sub.id, key);
    forall i | 0 <= i < |store| ensures r[i] == store[i] {
      assert store[i] in store;
    }
  }

  /** Filtering keeps the table's primary keys distinct. */
  lemma {:induction false} FilterKeepsDistinctIds(store: seq<EventSubscription>, keep: EventSubscription -> bool)
    requires DistinctIds(store)
    ensures DistinctIds(Filter(store, keep))
  {
    if store != [] {
      var tail := store[1..];
      FilterKeepsDistinctIds(tail, keep);
      if keep(store[0]) {
        var t := Filter(tail, keep);
        var r := [store[0]] + t;
        forall i, j | 0 <= i < j < |r| ensures r[i].id != r[j].id {
          if i == 0 {
            assert r[j] in tail;
            var k :| 0 <= k < |tail| && tail[k] == r[j];
            assert store[k + 1] == r[j];
          } else {
            assert r[i] == t[i - 1] && r[j] == t[j - 1];
          }
        }
      }
    }
  }

  /** In a table with distinct keys, a key determines its row. */
  lemma SameIdSameRow(store: seq<EventSubscription>, a: EventSubscription, b: EventSubscription)
    requires DistinctIds(store) && a in store && b in store && a.id == b.id
    ensures a == b
  {
    var i :| 0 <= i < |store| && store[i] == a;
    var j :| 0 <= j < |store| && store[j] == b;
  }

  /** In a table with distinct keys, no row occurs before its own position. */
  lemma RowNotBefore(store: seq<EventSubscription>, i: nat)
    requires DistinctIds(store) && i < |store|
    ensures store[i] !in store[..i]
  {
    forall j | 0 <= j < i ensures store[j] != store[i] {
      assert store[j].id != store[i].id;
    }
  }

  /** Deleting matches leaves every other execution's subscription list exactly as it was. */
  lemma RemoveMatchingKeepsOtherOwners(store: seq<EventSubscription>, owner: ExecutionId, name: string, other: ExecutionId)
    requires other != owner
    ensures OwnedBy(RemoveMatching(store, owner, name), other) == OwnedBy(store, other)
  {
    FilterFilter(store, DoesNotMatch(owner, name), OwnerIs(other), OwnerIs(other));
  }

  /** Deleting matches a second time deletes nothing more. */
  lemma RemoveMatchingIdempotent(store: seq<EventSubscription>, owner: ExecutionId, name: string)
    ensures RemoveMatching(RemoveMatching(store, owner, name), owner, name) == RemoveMatching(store, owner, name)
  {
    FilterFilter(store, DoesNotMatch(owner, name), DoesNotMatch(owner, name), DoesNotMatch(owner, name));
  }

  /** A table with no match is left as it is. */
  lemma RemoveMatchingWithoutMatch(store: seq<EventSubscription>, owner: ExecutionId, name: string)
    requires Matching(store, owner, name) == []
    ensures RemoveMatching(store, owner, name) == store
  {
    FilterKeepsAll(store, DoesNotMatch(owner, name));
  }

  /** Deleting the matches of a subscription just appended to a table that had none restores the table. */
  lemma RemoveMatchingUndoesInsert(store: seq<EventSubscription>, sub: EventSubscription, owner: ExecutionId, name: string)
    requires Matching(store, owner, name) == []
    requires Matches(sub, owner, name)
    ensures RemoveMatching(store + [sub], owner, name) == store
  {
    FilterAppend(store, [sub], DoesNotMatch(owner, name));
    RemoveMatchingWithoutMatch(store, owner, name);
  }

  /** Appending a subscription that matches adds exactly one match, and it is that subscription. */
  lemma InsertAddsOneMatch(store: seq<EventSubscription>, sub: EventSubscription, owner: ExecutionId, name: string)
    requires Matches(sub, owner, name)
    ensures Matching(store + [sub], owner, name) == Matching(store, owner, name) + [sub]
    ensures |Matching(store + [sub], owner, name)| == |Matching(store, owner, name)| + 1
  {
    FilterAppend(store, [sub], MatchesName(owner, name));
  }

  /** Deleting matches before deleting everything the owner holds makes no difference to the end result. */
  lemma RemoveOwnedAbsorbsRemoveMatching(store: seq<EventSubscription>, owner: ExecutionId, name: string)
    ensures RemoveOwnedBy(RemoveMatching(store, owner, name), owner) == RemoveOwnedBy(store, owner)
  {
    FilterFilter(store, DoesNotMatch(owner, name), OwnerIsNot(owner), OwnerIsNot(owner));
  }

  /** Two matching subscriptions that differ only in key and id are both deleted. */
  lemma MatchingIgnoresConfiguration(store: seq<EventSubscription>, a: EventSubscription, b: EventSubscription, owner: ExecutionId, name: string)
    requires a in store && b in store && Matches(a, owner, name)
    requires b.kind == a.kind && b.eventName == a.eventName && b.executionId == a.executionId
    ensures a !in RemoveMatching(store, owner, name) && b !in RemoveMatching(store, owner, name)
  {
  }

  // ---- The deletion loop, one row at a time ----

  /** The table after the loop has visited `visited`, deleting each visited row that matches. */
  function Swept(store: seq<EventSubscription>, visited: seq<EventSubscription>, owner: ExecutionId, name: string): (r: seq<EventSubscription>)
    ensures forall s :: s in r <==> s in store && !(Matches(s, owner, name) && s in visited)
  {
    Filter(store, NotSwept(visited, owner, name))
  }

  /** Before the loop nothing is deleted. */
  lemma SweptNothing(store: seq<EventSubscription>, owner: ExecutionId, name: string)
    ensures Swept(store, [], owner, name) == store
  {
    FilterKeepsAll(store, NotSwept([], owner, name));
  }

  /** Visiting a matching row deletes exactly that row, by its key. */
  lemma SweptStepMatch(store: seq<EventSubscription>, visited: seq<EventSubscription>, sub: EventSubscription, owner: ExecutionId, name: string)
    requires DistinctIds(store) && sub in store && Matches(sub, owner, name)
    ensures DeleteById(Swept(store, visited, owner, name), sub.id) == Swept(store, visited + [sub], owner, name)
  {
    forall s | s in store
      ensures NotSwept(visited + [sub], owner, name)(s) == (NotSwept(visited, owner, name)(s) && IdIsNot(sub.id)(s))
    {
      if s.id == sub.id { SameIdSameRow(store, s, sub); }
    }
    FilterFilter(store, NotSwept(visited, owner, name), IdIsNot(sub.id), NotSwept(visited + [sub], owner, name));
  }

  /** Visiting a row that does not match deletes nothing. */
  lemma SweptStepSkip(store: seq<EventSubscription>, visited: seq<EventSubscription>, sub: EventSubscription, owner: ExecutionId, name: string)
    requires !Matches(sub, owner, name)
    ensures Swept(store, visited + [sub], owner, name) == Swept(store, visited, owner, name)
  {
    FilterCongruent(store, NotSwept(visited + [sub], owner, name), NotSwept(visited, owner, name));
  }

  /**
   * One iteration of the deletion loop over the owner's list `visiting` taken from `store`:
   * a matching row is still present, and deleting it by key is the next sweep; any
   * other row leaves the sweep as it is.
   */
  lemma SweptStep(store: seq<EventSubscription>, visiting: seq<EventSubscription>, i: nat, owner: ExecutionId, name: string)
    requires DistinctIds(store) && visiting == OwnedBy(store, owner) && i < |visiting|
    ensures visiting[i].executionId == owner
    ensures Matches(visiting[i], owner, name) ==>
              visiting[i] in Swept(store, visiting[..i], owner, name) &&
              DeleteById(Swept(store, visiting[..i], owner, name), visiting[i].id) == Swept(store, visiting[..i + 1], owner, name)
    ensures !Matches(visiting[i], owner, name) ==>
              Swept(store, visiting[..i + 1], owner, name) == Swept(store, visiting[..i], owner, name)
  {
    var sub := visiting[i];
    assert visiting[..i + 1] == visiting[..i] + [sub];
    assert sub in visiting;
    if Matches(sub, owner, name) {
      FilterKeepsDistinctIds(store, OwnerIs(owner));
      RowNotBefore(visiting, i);
      SweptStepMatch(store, visiting[..i], sub, owner, name);
    } else {
      SweptStepSkip(store, visiting[..i], sub, owner, name);
    }
  }

  /** Once every row the owner held has been visited, exactly the matches are gone. */
  lemma SweptOwnedIsRemoveMatching(store: seq<EventSubscription>, owner: ExecutionId, name: string)
    ensures Swept(store, OwnedBy(store, owner), owner, name) == RemoveMatching(store, owner, name)
  {
    FilterCongruent(store, NotSwept(OwnedBy(store, owner), owner, name), DoesNotMatch(owner, name));
  }
}
