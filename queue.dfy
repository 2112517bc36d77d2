/**
 * The backend's queue service: queues are Redis lists of JSON-encoded
 * entities under the key `queue:<id>`. Reading decodes the list; writing
 * first checks that the caller only touches their own entity (the one whose
 * id is their e-mail) and then replaces the list.
 */
module Queue {
  import opened Common
  import opened Middleware

  datatype Entity = Entity(id: string, name: string)

  datatype GetQueueRequest = GetQueueRequest(id: string)
  datatype SetQueueRequest = SetQueueRequest(id: string, entities: seq<Entity>)

  /**
   * One string of a Redis list. JSON is not modelled: a string either is
   * the JSON text of an entity or is something that does not decode as one.
   */
  datatype Item = EntityJson(entity: Entity) | Other(text: string)

  /** Redis drops a list that becomes empty, so no key holds an empty list. */
  type Store = map<string, seq<Item>>

  function Encode(e: Entity): Item
  {
    EntityJson(e)
  }

  function Decode(item: Item): Option<Entity>
  {
    match item
    case EntityJson(e) => Some(e)
    case Other(_) => None
  }

  const QueuePrefix: string := "queue:"

  /** `queue_key`: the Redis key of a queue. */
  function QueueKey(queue: string): (key: string)
    ensures |key| == |QueuePrefix| + |queue|
    ensures key[..|QueuePrefix|] == QueuePrefix && key[|QueuePrefix|..] == queue
  {
    QueuePrefix + queue
  }

  /** Distinct queues never share a Redis key. */
  lemma QueueKeyInjective(a: string, b: string)
    requires a != b
    ensures QueueKey(a) != QueueKey(b)
  {
    assert QueueKey(a)[|QueuePrefix|..] == a;
  }

  /** `LRANGE key 0 -1`: the whole list, empty when the key is absent. */
  function Lrange(store: Store, key: string): (items: seq<Item>)
    ensures key in store ==> items == store[key]
    ensures key !in store ==> items == []
  {
    if key in store then store[key] else []
  }

  /** The stored items that decode as entities, in stored order; the others are skipped. */
  function DecodeAll(items: seq<Item>): (entities: seq<Entity>)
    ensures |entities| <= |items|
    ensures forall e :: e in entities <==> EntityJson(e) in items
  {
    if items == [] then []
    else
      var rest := DecodeAll(items[1..]);
      assert forall e :: EntityJson(e) in items <==> items[0] == EntityJson(e) || EntityJson(e) in items[1..];
      match Decode(items[0])
      case Some(e) => [e] + rest
      case None => rest
  }

  function EncodeAll(entities: seq<Entity>): (items: seq<Item>)
    ensures |items| == |entities|
  {
    seq(|entities|, i requires 0 <= i < |entities| => Encode(entities[i]))
  }

  /** Every entity that is written is read back, in the order written. */
  lemma {:induction false} DecodeEncode(entities: seq<Entity>)
    ensures DecodeAll(EncodeAll(entities)) == entities
  {
    if entities != [] {
      assert EncodeAll(entities)[1..] == EncodeAll(entities[1..]);
      DecodeEncode(entities[1..]);
    }
  }

  /** Undecodable items between decodable ones change nothing in what is read. */
  lemma {:induction false} DecodeAllAppend(a: seq<Item>, b: seq<Item>)
    ensures DecodeAll(a + b) == DecodeAll(a) + DecodeAll(b)
  {
    if a != [] {
      assert (a + b)[1..] == a[1..] + b;
      DecodeAllAppend(a[1..], b);
    } else {
      assert a + b == b;
    }
  }

  predicate NoEmptyLists(store: Store)
  {
    forall key :: key in store ==> store[key] != []
  }

  /** What `get_queue` reads for a queue. */
  function QueueView(store: Store, queue: string): (entities: seq<Entity>)
    ensures QueueKey(queue) !in store ==> entities == []
    ensures QueueKey(queue) in store ==> |entities| <= |store[QueueKey(queue)]|
    ensures forall e :: e in entities <==> EntityJson(e) in Lrange(store, QueueKey(queue))
  {
    DecodeAll(Lrange(store, QueueKey(queue)))
  }

  /** The store after an accepted `set_queue`: the key deleted, then the encoded entities pushed. */
  function StoreAfterSet(store: Store, key: string, entities: seq<Entity>): (after: Store)
    ensures key in after <==> entities != []
    ensures key in after ==> after[key] == EncodeAll(entities)
    ensures forall k :: k != key ==> (k in after <==> k in store)
    ensures forall k :: k != key && k in store ==> after[k] == store[k]
    ensures NoEmptyLists(store) ==> NoEmptyLists(after)
  {
    if entities == [] then store - {key} else store[key := EncodeAll(entities)]
  }

  /** After an accepted write, reading the queue gives exactly the entities written. */
  lemma ReadAfterSet(store: Store, queue: string, entities: seq<Entity>)
    ensures QueueView(StoreAfterSet(store, QueueKey(queue), entities), queue) == entities
  {
    DecodeEncode(entities);
  }

  /** A write to one queue leaves every other queue as it was, and keeps lists non-empty. */
  lemma SetLeavesOtherQueues(store: Store, queue: string, entities: seq<Entity>, other: string)
    requires other != queue
    ensures QueueView(StoreAfterSet(store, QueueKey(queue), entities), other) == QueueView(store, other)
  {
    QueueKeyInjective(queue, other);
  }

  /** Deleting the key and then pushing the encoded entities is the store `StoreAfterSet` describes. */
  lemma DelThenPush(store: Store, key: string, entities: seq<Entity>)
    requires entities != []
    ensures (store - {key})[key := Lrange(store - {key}, key) + EncodeAll(entities)] == StoreAfterSet(store, key, entities)
  {
    assert Lrange(store - {key}, key) + EncodeAll(entities) == EncodeAll(entities);
  }

  // ---------------------------------------------------------------------------
  // Validation of a proposed queue against the stored one

  /** The number of entities whose id is `id`. */
  function CountId(entities: seq<Entity>, id: string): (n: nat)
    ensures n <= |entities|
    ensures n == 0 <==> forall e :: e in entities ==> e.id != id
  {
    if entities == [] then 0
    else (if entities[0].id == id then 1 else 0) + CountId(entities[1..], id)
  }

  /** Counting over a concatenation adds the counts of the parts. */
  lemma {:induction false} CountIdAppend(a: seq<Entity>, b: seq<Entity>, id: string)
    ensures CountId(a + b, id) == CountId(a, id) + CountId(b, id)
  {
    if a == [] {
      assert a + b == b;
    } else {
      assert (a + b)[1..] == a[1..] + b;
      CountIdAppend(a[1..], b, id);
    }
  }

  /** Some stored entity has the same id and the same name. */
  predicate Existed(existing: seq<Entity>, e: Entity)
  {
    exists x :: x in existing && x.id == e.id && x.name == e.name
  }

  /** An entity is made of its id and its name, so matching both means it is stored. */
  lemma ExistedIff(existing: seq<Entity>, e: Entity)
    ensures Existed(existing, e) <==> e in existing
  {
    if Existed(existing, e) {
      var x :| x in existing && x.id == e.id && x.name == e.name;
      assert x == e;
    }
  }

  /** Some proposed entity carries this id. */
  predicate StillExists(entities: seq<Entity>, id: string)
  {
    exists e :: e in entities && e.id == id
  }

  const OneEntityMessage: string := "users can only have one entity in a queue"
  const RemoveOthersMessage: string := "users cannot remove entities that don't belong to them"

  function AddOthersMessage(email: string): string
  {
    "users can only add or modify entities with their email as the ID (" + email + ")"
  }

  /**
   * The checks `set_queue` makes before writing, in the order it makes them;
   * `None` when the proposed list is accepted.
   */
  function CheckSet(email: string, entities: seq<Entity>, existing: seq<Entity>): (r: Option<Status>)
    ensures r == Some(InvalidArgument(OneEntityMessage)) <==> CountId(entities, email) > 1
    ensures r.Some? ==> r.value in {InvalidArgument(OneEntityMessage), PermissionDenied(AddOthersMessage(email)), PermissionDenied(RemoveOthersMessage)}
  {
    if CountId(entities, email) > 1 then
      Some(InvalidArgument(OneEntityMessage))
    else if exists e :: e in entities && e.id != email && !Existed(existing, e) then
      Some(PermissionDenied(AddOthersMessage(email)))
    else if exists x :: x in existing && x.id != email && !StillExists(entities, x.id) then
      Some(PermissionDenied(RemoveOthersMessage))
    else
      None
  }

  /**
   * An accepted list holds at most one entity of the caller's, no entity of
   * anyone else that was not stored under the same id and name, and every id
   * of anyone else that was stored.
   */
  lemma AcceptedMeansOnlyOwnChanges(email: string, entities: seq<Entity>, existing: seq<Entity>)
    requires CheckSet(email, entities, existing) == None
    ensures CountId(entities, email) <= 1
    ensures forall e :: e in entities && e.id != email ==> e in existing
    ensures forall x :: x in existing && x.id != email ==> exists e :: e in entities && e.id == x.id
  {
    forall e | e in entities && e.id != email ensures e in existing {
      ExistedIff(existing, e);
    }
  }

  /** Someone else's entity that was not stored under that id and name cannot be added or renamed into the queue. */
  lemma AddingOthersDenied(email: string, entities: seq<Entity>, existing: seq<Entity>, e: Entity)
    requires CountId(entities, email) <= 1
    requires e in entities && e.id != email && e !in existing
    ensures CheckSet(email, entities, existing) == Some(PermissionDenied(AddOthersMessage(email)))
  {
    ExistedIff(existing, e);
  }

  /** Someone else's stored entity whose id is missing from the proposed list cannot be removed. */
  lemma RemovingOthersDenied(email: string, entities: seq<Entity>, existing: seq<Entity>, x: Entity)
    requires CountId(entities, email) <= 1
    requires forall e :: e in entities && e.id != email ==> e in existing
    requires x in existing && x.id != email && forall e :: e in entities ==> e.id != x.id
    ensures CheckSet(email, entities, existing) == Some(PermissionDenied(RemoveOthersMessage))
  {
    forall e | e in entities && e.id != email
      ensures Existed(existing, e)
    {
      ExistedIff(existing, e);
    }
    assert !(exists e :: e in entities && e.id != email && !Existed(existing, e));
    assert !StillExists(entities, x.id);
    assert exists y :: y in existing && y.id != email && !StillExists(entities, y.id);
  }

  /**
   * Any list that keeps everyone else's entities (a reordering of them) and
   * holds at most one entity of the caller's is accepted.
   */
  lemma ReorderingAccepted(email: string, entities: seq<Entity>, existing: seq<Entity>)
    requires CountId(entities, email) <= 1
    requires forall e :: e in entities && e.id != email ==> e in existing
    requires forall x :: x in existing && x.id != email ==> x in entities
    ensures CheckSet(email, entities, existing) == None
  {
    assert forall e :: e in entities && e.id != email ==> Existed(existing, e);
    assert forall x :: x in existing && x.id != email ==> StillExists(entities, x.id);
  }

  /**
   * The checks look only at membership, so a copy of someone else's stored
   * entity may be added next to the original.
   */
  lemma DuplicatingOthersAccepted(email: string, other: Entity)
    requires other.id != email
    ensures CheckSet(email, [other, other], [other]) == None
  {
    ReorderingAccepted(email, [other, other], [other]);
  }

  // ---------------------------------------------------------------------------
  // The service

  const NotAuthenticatedMessage: string := "user not authenticated"
  const EmailRequiredMessage: string := "user email is required"

  /** `QueueService`: the gRPC queue service over its Redis connection. */
  class QueueService {
    var store: Store

    ghost predicate Valid()
      reads this
    {
      NoEmptyLists(store)
    }

    constructor (store: Store)
      requires NoEmptyLists(store)
      ensures Valid() && this.store == store
    {
      this.store := store;
    }

    /** `DEL key`. */
    method Del(key: string)
      modifies this
      ensures store == old(store) - {key}
    {
      store := store - {key};
    }

    /** `RPUSH key items...`: appends to the list, creating it when absent. */
    method Rpush(key: string, items: seq<Item>)
      requires items != []
      modifies this
      ensures store == old(store)[key := Lrange(old(store), key) + items]
    {
      store := store[key := Lrange(store, key) + items];
    }

    /** `get_queue`: the decodable entities of the queue, for an authenticated caller only. */
    method GetQueue(request: Request<GetQueueRequest>) returns (r: Result<seq<Entity>, Status>)
      ensures var user := UserFromRequest(request);
        r == if user.None? || user.value.email == "" then Err(Unauthenticated(NotAuthenticatedMessage))
             else Ok(QueueView(store, request.message.id))
    {
      var user := UserFromRequest(request);
      if user.None? || user.value.email == "" {
        return Err(Unauthenticated(NotAuthenticatedMessage));
      }
      var key := QueueKey(request.message.id);
      var items := Lrange(store, key);
      var entities := DecodeAll(items);
      return Ok(entities);
    }

    /**
     * `set_queue`: rejects an unauthenticated caller or a list that fails
     * `CheckSet`, leaving the store as it was; otherwise deletes the list and
     * pushes the new entities.
     */
    method SetQueue(request: Request<SetQueueRequest>) returns (r: Result<(), Status>)
      requires Valid()
      modifies this
      ensures Valid()
      ensures var user := UserFromRequest(request);
        var req := request.message;
        r == if user.None? then Err(Unauthenticated(NotAuthenticatedMessage))
             else if user.value.email == "" then Err(Unauthenticated(EmailRequiredMessage))
             else match CheckSet(user.value.email, req.entities, old(QueueView(store, req.id)))
                  case Some(status) => Err(status)
                  case None => Ok(())
      ensures store == if r.Ok? then StoreAfterSet(old(store), QueueKey(request.message.id), request.message.entities)
                       else old(store)
    {
      var user := UserFromRequest(request);
      if user.None? {
        return Err(Unauthenticated(NotAuthenticatedMessage));
      }
      var email := user.value.email;
      if email == "" {
        return Err(Unauthenticated(EmailRequiredMessage));
      }
      var inner := request.message;
      var key := QueueKey(inner.id);
      var existing := DecodeAll(Lrange(store, key));
      var check := CheckSet(email, inner.entities, existing);
      if check.Some? {
        return Err(check.value);
      }
      Del(key);
      if inner.entities == [] {
        return Ok(());
      }
      var items := EncodeAll(inner.entities);
      DelThenPush(old(store), key, inner.entities);
      Rpush(key, items);
      return Ok(());
    }
  }
}
