/**
 * The MCP server's queue tools. Each one calls the backend's `GetQueue`
 * and, for edits, `SetQueue` with a whole new list; the backend is given
 * here as the two functions `getQueue` and `setQueue`, and a run of a tool
 * records the calls it made and what it returned.
 */
module Tools {
  import opened Common
  import opened PyStr
  import opened Queue
  import opened Middleware

  /** A failed backend call (`grpc.RpcError`), re-raised by the tool. */
  datatype RpcError = RpcError(details: string)

  datatype ToolError = BackendError(rpc: RpcError) | ValueError(message: string)

  datatype Call = GetQueueCall(queueId: string) | SetQueueCall(queueId: string, entities: seq<Entity>)

  /** The backend calls a tool made, in order, and its return value or the exception it raised. */
  datatype ToolRun = ToolRun(calls: seq<Call>, result: Result<string, ToolError>)

  const EmptyQueueText: string := "No entities in queue"
  const QueueHeader: string := "Queue contents:"
  const EmptyIdMessage: string :=
    "entity_id is required and cannot be empty. Please provide a valid identifier for the entity."

  /** The line `get_queue` shows for one entity. */
  function EntityLine(e: Entity): (line: string)
    ensures |line| == |e.name| + |e.id| + 11
    ensures line[..4] == "  - " && line[4..4 + |e.name|] == e.name
    ensures line[4 + |e.name|..10 + |e.name|] == " (ID: "
    ensures line[|line| - 1 - |e.id|..|line| - 1] == e.id && line[|line| - 1] == ')'
  {
    "  - " + e.name + " (ID: " + e.id + ")"
  }

  function EntityLines(entities: seq<Entity>): (lines: seq<string>)
    ensures |lines| == |entities| && forall i :: 0 <= i < |entities| ==> lines[i] == EntityLine(entities[i])
  {
    seq(|entities|, i requires 0 <= i < |entities| => EntityLine(entities[i]))
  }

  /** The text `get_queue` returns for the entities the backend sent. */
  function FormatQueue(entities: seq<Entity>): (text: string)
    ensures text == EmptyQueueText <==> entities == []
    ensures entities != [] ==> |QueueHeader| < |text| && text[..|QueueHeader| + 1] == QueueHeader + "\n"
  {
    if entities == [] then EmptyQueueText
    else
      var text := QueueHeader + "\n" + Join("\n", EntityLines(entities));
      assert text[0] != EmptyQueueText[0];
      text
  }

  /** One line per entity, each introduced by a newline: an independent reading of the shown text. */
  function Listing(entities: seq<Entity>): string
  {
    if entities == [] then "" else "\n" + EntityLine(entities[0]) + Listing(entities[1..])
  }

  lemma {:induction false} JoinedLinesAreListing(entities: seq<Entity>)
    requires entities != []
    ensures "\n" + Join("\n", EntityLines(entities)) == Listing(entities)
  {
    var lines := EntityLines(entities);
    var first := EntityLine(entities[0]);
    assert lines[0] == first;
    if |entities| > 1 {
      var rest := entities[1..];
      assert lines[1..] == EntityLines(rest);
      JoinedLinesAreListing(rest);
      var tail := Join("\n", lines[1..]);
      assert Join("\n", lines) == first + "\n" + tail;
      assert Listing(entities) == "\n" + first + ("\n" + tail);
      Regroup("\n", first, tail);
    } else {
      assert Listing(entities) == "\n" + first + Listing(entities[1..]);
    }
  }

  /** Concatenation regrouped around a line and the newline after it. */
  lemma Regroup(nl: string, line: string, tail: string)
    ensures nl + (line + nl + tail) == nl + line + (nl + tail)
  {
  }

  /**
   * A non-empty queue is shown as the header followed by one line per
   * entity, in queue order, with no trailing newline.
   */
  lemma FormatQueueShowsEveryEntity(entities: seq<Entity>)
    ensures entities == [] ==> FormatQueue(entities) == EmptyQueueText
    ensures entities != [] ==> FormatQueue(entities) == QueueHeader + Listing(entities)
    ensures entities != [] ==> FormatQueue(entities)[|FormatQueue(entities)| - 1] == ')'
  {
    if entities != [] {
      JoinedLinesAreListing(entities);
      LastLineEndsWithParen(entities);
    }
  }

  lemma {:induction false} LastLineEndsWithParen(entities: seq<Entity>)
    requires entities != []
    ensures |Listing(entities)| > 0 && Listing(entities)[|Listing(entities)| - 1] == ')'
  {
    var rest := Listing(entities[1..]);
    if |entities| > 1 {
      LastLineEndsWithParen(entities[1..]);
    } else {
      assert rest == "";
    }
    assert Listing(entities) == "\n" + EntityLine(entities[0]) + rest;
  }

  /** `get_queue`: the backend's queue as text, or the backend's error re-raised. */
  function GetQueueTool(queueId: string, getQueue: string -> Result<seq<Entity>, RpcError>): (run: ToolRun)
    ensures run.calls == [GetQueueCall(queueId)]
    ensures getQueue(queueId).Err? ==> run.result == Err(BackendError(getQueue(queueId).error))
    ensures getQueue(queueId).Ok? ==> run.result == Ok(FormatQueue(getQueue(queueId).value))
  {
    match getQueue(queueId)
    case Err(e) => ToolRun([GetQueueCall(queueId)], Err(BackendError(e)))
    case Ok(entities) => ToolRun([GetQueueCall(queueId)], Ok(FormatQueue(entities)))
  }

  function AddedMessage(entityId: string, entityName: string): string
  {
    "Entity '" + entityName + "' (ID: " + entityId + ") was successfully added to the queue"
  }

  /** The success text of `add_to_queue` names the entity in quotes, then its id in parentheses. */
  lemma AddedMessageText(entityId: string, entityName: string)
    ensures var msg := AddedMessage(entityId, entityName);
      && |msg| == |entityName| + |entityId| + 52
      && msg[..8] == "Entity '" && msg[8..8 + |entityName|] == entityName
      && msg[8 + |entityName|..15 + |entityName|] == "' (ID: "
      && msg[15 + |entityName|..15 + |entityName| + |entityId|] == entityId
      && msg[|msg| - 37..] == ") was successfully added to the queue"
  {
  }

  /**
   * `add_to_queue`: refuses a blank id before calling the backend; otherwise
   * reads the queue and writes it back with the new entity at the end.
   */
  function AddToQueue(queueId: string, entityId: string, entityName: string,
                      getQueue: string -> Result<seq<Entity>, RpcError>,
                      setQueue: (string, seq<Entity>) -> Option<RpcError>): (run: ToolRun)
    ensures AllSpace(entityId) <==> run.calls == []
    ensures AllSpace(entityId) ==> run.result == Err(ValueError(EmptyIdMessage))
    ensures !AllSpace(entityId) && getQueue(queueId).Err? ==>
      run == ToolRun([GetQueueCall(queueId)], Err(BackendError(getQueue(queueId).error)))
    ensures !AllSpace(entityId) && getQueue(queueId).Ok? ==>
      var submitted := getQueue(queueId).value + [Entity(entityId, entityName)];
      && run.calls == [GetQueueCall(queueId), SetQueueCall(queueId, submitted)]
      && run.result == if setQueue(queueId, submitted).Some? then Err(BackendError(setQueue(queueId, submitted).value))
                       else Ok(AddedMessage(entityId, entityName))
  {
    StripEmptyIff(entityId);
    if entityId == "" || Strip(entityId) == "" then
      ToolRun([], Err(ValueError(EmptyIdMessage)))
    else
      match getQueue(queueId)
      case Err(e) => ToolRun([GetQueueCall(queueId)], Err(BackendError(e)))
      case Ok(existing) =>
        var submitted := existing + [Entity(entityId, entityName)];
        var calls := [GetQueueCall(queueId), SetQueueCall(queueId, submitted)];
        match setQueue(queueId, submitted)
        case Some(e) => ToolRun(calls, Err(BackendError(e)))
        case None => ToolRun(calls, Ok(AddedMessage(entityId, entityName)))
  }

  /** The entities without those carrying `entityId`, in their original order. */
  function Without(entities: seq<Entity>, entityId: string): (kept: seq<Entity>)
    ensures |kept| <= |entities|
    ensures forall i :: 0 <= i < |kept| ==> kept[i].id != entityId
  {
    if entities == [] then []
    else (if entities[0].id != entityId then [entities[0]] else []) + Without(entities[1..], entityId)
  }

  lemma {:induction false} WithoutAppend(a: seq<Entity>, b: seq<Entity>, entityId: string)
    ensures Without(a + b, entityId) == Without(a, entityId) + Without(b, entityId)
  {
    if a == [] {
      assert a + b == b;
    } else {
      var head := if a[0].id != entityId then [a[0]] else [];
      assert (a + b)[1..] == a[1..] + b;
      assert Without(a + b, entityId) == head + Without(a[1..] + b, entityId);
      WithoutAppend(a[1..], b, entityId);
      assert head + (Without(a[1..], entityId) + Without(b, entityId))
          == (head + Without(a[1..], entityId)) + Without(b, entityId);
    }
  }

  /** Removal drops every entity with the id and keeps every other one. */
  lemma {:induction false} WithoutRemovesExactlyTheId(entities: seq<Entity>, entityId: string)
    ensures forall e :: e in Without(entities, entityId) <==> e in entities && e.id != entityId
    ensures |Without(entities, entityId)| == |entities| - CountId(entities, entityId)
  {
    if entities != [] {
      WithoutRemovesExactlyTheId(entities[1..], entityId);
      assert forall e :: e in entities <==> e == entities[0] || e in entities[1..];
    }
  }

  function RemovedMessage(entityId: string): string
  {
    entityId + " was successfully removed from the queue"
  }

  /** The success text of `remove_from_queue` is the id, then the fixed text. */
  lemma RemovedMessageText(entityId: string)
    ensures var msg := RemovedMessage(entityId);
      && |msg| == |entityId| + 40
      && msg[..|entityId|] == entityId
      && msg[|entityId|..] == " was successfully removed from the queue"
  {
  }

  /**
   * `remove_from_queue`: reads the queue, keeps every entity whose id differs
   * and writes the rest back; it reports success whether or not an entity
   * had that id.
   */
  method RemoveFromQueue(queueId: string, entityId: string,
                         getQueue: string -> Result<seq<Entity>, RpcError>,
                         setQueue: (string, seq<Entity>) -> Option<RpcError>) returns (run: ToolRun)
    ensures getQueue(queueId).Err? ==>
      run == ToolRun([GetQueueCall(queueId)], Err(BackendError(getQueue(queueId).error)))
    ensures getQueue(queueId).Ok? ==>
      var submitted := Without(getQueue(queueId).value, entityId);
      && run.calls == [GetQueueCall(queueId), SetQueueCall(queueId, submitted)]
      && run.result == if setQueue(queueId, submitted).Some? then Err(BackendError(setQueue(queueId, submitted).value))
                       else Ok(RemovedMessage(entityId))
  {
    var queue: seq<Entity> := [];
    var response := getQueue(queueId);
    if response.Err? {
      return ToolRun([GetQueueCall(queueId)], Err(BackendError(response.error)));
    }
    var entities := response.value;
    var i := 0;
    while i < |entities|
      invariant 0 <= i <= |entities|
      invariant queue == Without(entities[..i], entityId)
    {
      var entity := entities[i];
      if entity.id != entityId {
        queue := queue + [entity];
      }
      WithoutAppend(entities[..i], [entity], entityId);
      assert Without([entity], entityId) == if entity.id != entityId then [entity] else [];
      assert entities[..i + 1] == entities[..i] + [entity];
      i := i + 1;
    }
    assert entities[..i] == entities;
    var calls := [GetQueueCall(queueId), SetQueueCall(queueId, queue)];
    var failure := setQueue(queueId, queue);
    if failure.Some? {
      return ToolRun(calls, Err(BackendError(failure.value)));
    }
    return ToolRun(calls, Ok(RemovedMessage(entityId)));
  }

  // ---------------------------------------------------------------------------
  // The tools against the backend's checks

  /** A caller removing their own entity (id = their e-mail) always passes the backend's checks. */
  lemma RemovingOwnEntityAccepted(email: string, existing: seq<Entity>)
    ensures CheckSet(email, Without(existing, email), existing) == None
  {
    WithoutRemovesExactlyTheId(existing, email);
    ReorderingAccepted(email, Without(existing, email), existing);
  }

  /**
   * A caller adding their own entity passes the backend's checks exactly when
   * the queue does not hold one of theirs yet; otherwise the backend answers
   * InvalidArgument.
   */
  lemma AddingOwnEntity(email: string, name: string, existing: seq<Entity>)
    ensures CheckSet(email, existing + [Entity(email, name)], existing)
      == if CountId(existing, email) == 0 then None else Some(InvalidArgument(OneEntityMessage))
  {
    var submitted := existing + [Entity(email, name)];
    CountIdAppend(existing, [Entity(email, name)], email);
    assert CountId([Entity(email, name)], email) == 1;
    if CountId(existing, email) == 0 {
      assert forall e :: e in submitted <==> e in existing || e == Entity(email, name);
      ReorderingAccepted(email, submitted, existing);
    }
  }

  /** Adding an entity under someone else's id that is not already stored is refused by the backend. */
  lemma AddingOthersEntityDenied(email: string, entityId: string, name: string, existing: seq<Entity>)
    requires entityId != email && Entity(entityId, name) !in existing
    requires CountId(existing, email) <= 1
    ensures CheckSet(email, existing + [Entity(entityId, name)], existing) == Some(PermissionDenied(AddOthersMessage(email)))
  {
    var submitted := existing + [Entity(entityId, name)];
    CountIdAppend(existing, [Entity(entityId, name)], email);
    assert Entity(entityId, name) in submitted;
    AddingOthersDenied(email, submitted, existing, Entity(entityId, name));
  }
}
