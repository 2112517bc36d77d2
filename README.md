# Queue assistant core, modelled in Dafny

The system keeps named queues of entities, such as people waiting their turn. A backend gRPC service stores each queue in Redis and enforces who may change what. An HTTP gateway forwards the proxy's authentication headers to that backend. An MCP server exposes queue tools to an LLM agent. A conversation service runs that agent in a durable per-user workflow and shows its history.

This project models the parts of that system that decide behaviour:

- **`Middleware`** (`backend/src/api/middleware.rs`): the interceptor that reads `x-auth-request-email` into a `User`, and the lookup that reads the `User` back.
- **`Queue`** (`backend/src/api/queue.rs`): the queue key, reading a queue, and `set_queue`'s permission rules and store replacement. The rules are: at most one entity of the caller's own; nobody else's entity added, renamed or removed. The service is a class whose `store` field is the Redis keyspace.
- **`Gateway`** (`gateway/main.go`): the header matcher.
- **`Tools`** (`mcp/src/tools.py`): the `get_queue`, `add_to_queue` and `remove_from_queue` tools. The backend appears as two functions, and each tool run records the calls it made.
- **`Conversation`** (`service/src/workflows/conversation.py`): the workflow's message slot, lock, response and history, as a class.
- **`Messages`** (`service/src/routes/messages.py`): the projection of a history onto `{text, actor}` rows.
- **`Config`** (`service/src/config/config.py`): turning an MCP tool's JSON schema into an activity's parameter list, return type, docstring and argument binding.

Two shared modules support these:

- `Common` holds `Option` and `Result`.
- `PyStr` holds Python's `str.isspace`, `strip`, `join` and `str.isidentifier` (`IsIdentifier`, `IsIdentifierStart`, `IsIdentifierChar`), Python's keyword list (`Keywords`), and their properties.

Where the code has a loop that builds a list, the model has a `while` loop proved against a specification function. This covers `remove_from_queue`, `get_messages` and `_mcp_tool_to_activity`. Python exceptions become `Err` values: `ValueError`, a re-raised `RpcError`, the `AttributeError` of a malformed history item, pydantic's `ValidationError` for a `Property` whose annotation is not a class, the `UnboundLocalError` of a tool with no input property, and the `ValueError` of a parameter name `inspect.Parameter` refuses.

The code does the following, and so does the model:

- History is never trimmed to a maximum turn count.
- The workflow never checkpoints itself with continue-as-new.
- No authentication context goes into the agent's input.
- The message slot is not released when the runner fails.
- A tool with no input properties fails with `UnboundLocalError`: the result property reads the loop variables, which were never bound.
- Most schema properties cannot be adapted at all. `Property.type` is declared `Type`, so pydantic accepts only a class there. An optional property of a known type gets `Optional[t]`, which is not a class. A required property of unknown type gets `None`, which is not a class either. Both make the `Property(...)` call raise a `ValidationError`. Only two kinds of property pass: a required one of known type (annotated with its class), and an optional one of unknown or missing type (annotated `Optional[None]`, which Python collapses to the class `NoneType`).
- Each property name becomes an `inspect.Parameter`, which raises `ValueError` for a name that is not an identifier or is a keyword, such as `queue-id` or `from`.
- The return annotation reuses the last input property's type (`ResultTypeFromLastProperty`).

## Model

| member | source | states |
|---|---|---|
| `Middleware.ToStr` | backend/src/api/middleware.rs:8 | A metadata value reads as text exactly when every byte is visible ASCII or a tab. The text then has the same characters as the bytes. |
| `Middleware.EmailFromMetadata` | backend/src/api/middleware.rs:5-12 | The e-mail is `""` when the header is absent or is not valid text. A non-empty e-mail is exactly the header's text, and all of its characters are visible ASCII. |
| `Middleware.EmailRoundTrip` | backend/src/api/middleware.rs:5-12 | Any visible-ASCII e-mail a client sends in the header is the e-mail the interceptor reads. |
| `Middleware.UserFromRequest` | backend/src/api/middleware.rs:18-20 | The lookup returns the request's `User` extension. That it is the `User` the interceptor attached rests on `AuthInterceptor`'s ensures, and that it is `None` on a request the interceptor has not seen rests on the `Request` constructor. |
| `Middleware.AuthInterceptor` | backend/src/api/middleware.rs:4-16 | The interceptor always returns `Ok` with the same request. It attaches the `User` built from the metadata, which `user_from_request` then returns. The metadata is unchanged. |
| `Gateway.CustomMatcher` | gateway/main.go:26-43 | The three auth headers, and the trace-context headers in any case, are forwarded under the key as received. Every other key is decided by the default matcher. |
| `Gateway.TraceHeadersAnyCase` | gateway/main.go:36-38 | Every upper/lower casing of `traceparent` or `tracestate` is forwarded unchanged. |
| `Gateway.AuthHeadersExactCase` | gateway/main.go:27-40 | A different casing of an auth header is not matched explicitly; it is left to the default matcher. |
| `Queue.QueueKey` | backend/src/api/queue.rs:21-23 | The key is `queue:` followed by the queue id. |
| `Queue.QueueKeyInjective` | backend/src/api/queue.rs:21-23 | Distinct queues have distinct keys. |
| `Queue.DecodeAll` | backend/src/api/queue.rs:54-57 | The read entities are the stored items that decode, and no others. There are never more of them than stored items. |
| `Queue.DecodeAllAppend` | backend/src/api/queue.rs:54-57 | Decoding keeps stored order; undecodable items are skipped without affecting the rest. |
| `Queue.DecodeEncode` | backend/src/api/queue.rs:142-146 | Every entity that is written decodes back, in the order written. |
| `Queue.CountId` | backend/src/api/queue.rs:78-84 | The count of entities with an id is zero exactly when none has that id. |
| `Queue.ExistedIff` | backend/src/api/queue.rs:107-109 | Matching some stored entity's id and name is the same as being a stored entity. |
| `Queue.CheckSet` | backend/src/api/queue.rs:77-130 | The list is refused with `InvalidArgument` exactly when it holds more than one entity of the caller's. Any other refusal is one of the two `PermissionDenied` messages. |
| `Queue.AcceptedMeansOnlyOwnChanges` | backend/src/api/queue.rs:77-130 | An accepted list holds at most one entity of the caller's. Every other entity in it is a stored one. Every stored id of someone else is still present. |
| `Queue.AddingOthersDenied` | backend/src/api/queue.rs:105-118 | Adding or renaming someone else's entity is refused with the add/modify message. |
| `Queue.RemovingOthersDenied` | backend/src/api/queue.rs:120-130 | Dropping someone else's stored id is refused with the removal message. |
| `Queue.ReorderingAccepted` | backend/src/api/queue.rs:105-130 | Keeping everyone else's entities, in any order, with at most one of one's own is accepted. |
| `Queue.DuplicatingOthersAccepted` | backend/src/api/queue.rs:105-130 | The checks test membership only, so a second copy of someone else's stored entity is accepted. |
| `Queue.Lrange` | backend/src/api/queue.rs:48-52 | `LRANGE key 0 -1` gives the whole list held at the key, and the empty list for an absent key. |
| `Queue.QueueView` | backend/src/api/queue.rs:33-60 | Reading a queue whose key is absent gives no entities. Otherwise it gives the decodable items of the list, never more entities than items. |
| `Queue.StoreAfterSet` | backend/src/api/queue.rs:132-155 | After a write, the key is present exactly when the new list is non-empty, and then holds the encoded entities. Every other key is untouched. A store with no empty list keeps none. |
| `Queue.CountIdAppend` | backend/src/api/queue.rs:78-84 | The count of an id over two lists is the sum of the counts. |
| `Queue.ReadAfterSet` | backend/src/api/queue.rs:132-155 | After an accepted write, reading the queue gives exactly the written entities, including the empty list. |
| `Queue.SetLeavesOtherQueues` | backend/src/api/queue.rs:132-155 | A write to one queue leaves every other queue's contents unchanged. |
| `Queue.DelThenPush` | backend/src/api/queue.rs:132-153 | DEL followed by RPUSH of the encoded entities yields the store in which the key holds exactly those entities. |
| `Queue.QueueService.constructor` | backend/src/api/queue.rs:26-28 | The service starts over a store in which no key holds an empty list. |
| `Queue.QueueService.Del` | backend/src/api/queue.rs:132-136 | DEL removes the key and nothing else. |
| `Queue.QueueService.Rpush` | backend/src/api/queue.rs:149-153 | RPUSH appends the items to the key's list, creating it if absent. |
| `Queue.QueueService.GetQueue` | backend/src/api/queue.rs:33-60 | No user or an empty e-mail gives `Unauthenticated` before any read. Otherwise the result is the decodable entities of the queue. |
| `Queue.QueueService.SetQueue` | backend/src/api/queue.rs:62-156 | The two `Unauthenticated` cases and `CheckSet`'s refusals leave the store unchanged. An accepted write replaces the queue's list with the new entities; an empty list leaves the key absent. No stored list is ever empty. |
| `Tools.GetQueueTool` | mcp/src/tools.py:17-44 | The tool makes one `GetQueue` call. It re-raises the backend's error, or returns the formatted queue. |
| `Tools.AddedMessageText` | mcp/src/tools.py:90 | The `add_to_queue` success text is `Entity '`, the name, `' (ID: `, the id, then `) was successfully added to the queue`. Its length is the name's and the id's plus 52. |
| `Tools.RemovedMessageText` | mcp/src/tools.py:131 | The `remove_from_queue` success text is the id followed by ` was successfully removed from the queue`. |
| `Tools.EntityLine` | mcp/src/tools.py:43-44 | An entity's line is `  - `, its name, the separator ` (ID: `, its id and `)`, eleven characters besides the name and id. |
| `Tools.EntityLines` | mcp/src/tools.py:43-44 | There is one line per entity, in queue order. |
| `Tools.FormatQueue` | mcp/src/tools.py:39-44 | The text is "No entities in queue" exactly when the queue is empty. Otherwise it opens with the header line `Queue contents:`. |
| `Tools.FormatQueueShowsEveryEntity` | mcp/src/tools.py:39-44 | An empty queue reads "No entities in queue". Otherwise the text is the header and then one newline-introduced `  - name (ID: id)` line per entity, in order. There is no trailing newline. |
| `Tools.JoinedLinesAreListing` | mcp/src/tools.py:43-44 | Joining the entity lines with newlines is the same as listing each one after a newline. |
| `Tools.LastLineEndsWithParen` | mcp/src/tools.py:43-44 | The shown list ends with the last entity's closing parenthesis, not with a newline. |
| `Tools.AddToQueue` | mcp/src/tools.py:46-90 | An empty or whitespace-only id raises `ValueError` before any backend call. Otherwise the tool reads the queue and writes back the existing entities with the new one at the end. It returns the success text, or re-raises the first backend error. |
| `Tools.Without` | mcp/src/tools.py:112-114 | No kept entity has the removed id, and nothing is added. |
| `Tools.WithoutAppend` | mcp/src/tools.py:112-114 | Filtering out an id works piecewise over concatenation, keeping order. |
| `Tools.WithoutRemovesExactlyTheId` | mcp/src/tools.py:112-114 | Removal drops every entity with the id and keeps every other one. The length shrinks by the number of entities with that id. |
| `Tools.RemoveFromQueue` | mcp/src/tools.py:92-131 | The loop submits the existing queue minus every entity with the id, in order. Success is reported even when nothing had that id; backend errors are re-raised. |
| `Tools.RemovingOwnEntityAccepted` | mcp/src/tools.py:112-114 | Removing one's own entity, with id equal to one's e-mail, always passes the backend's checks. |
| `Tools.AddingOwnEntity` | mcp/src/tools.py:79-82 | Adding one's own entity passes exactly when the queue holds none of one's entities yet. Otherwise it is refused with `InvalidArgument`. |
| `Tools.AddingOthersEntityDenied` | mcp/src/tools.py:79-82 | Adding a new entity under someone else's id is refused with `PermissionDenied`. |
| `Conversation.Id` | service/src/workflows/conversation.py:48-50 | The workflow id is `conversation_` followed by the user. |
| `Conversation.IdInjective` | service/src/workflows/conversation.py:48-50 | Distinct users never share a conversation. |
| `Conversation.UserTurn` | service/src/workflows/conversation.py:79-86 | The appended item has role `user` and non-empty string content. |
| `Conversation.UserTurnStrips` | service/src/workflows/conversation.py:82-84 | The indentation around the message is whitespace only, so the item's content strips to the stripped message. |
| `Conversation.FillSlot` | service/src/workflows/conversation.py:59-62 | A taken slot raises "message already set, cannot update."; an empty one takes the message. |
| `Conversation.Conversation.constructor` | service/src/workflows/conversation.py:41-46 | A new workflow has no message, no response, an empty history and a free lock. |
| `Conversation.Conversation.Start` | service/src/workflows/conversation.py:71 | `run` records the user. |
| `Conversation.Conversation.GetHistory` | service/src/workflows/conversation.py:52-54 | The query returns the current history and changes nothing. |
| `Conversation.Conversation.BeginMessage` | service/src/workflows/conversation.py:58-62 | With the lock free, `message` takes the lock and fills the slot. Because a message is pending only while its caller holds the lock, the raise is unreachable. |
| `Conversation.Conversation.Step` | service/src/workflows/conversation.py:73-94 | A pending message is processed by running the agent on the history plus exactly one user item. The history becomes the runner's input list, and the slot is cleared. |
| `Conversation.Conversation.FinishMessage` | service/src/workflows/conversation.py:63-66 | Once the slot is clear, the caller returns the final output and releases the lock. |
| `Conversation.Conversation.Converse` | service/src/workflows/conversation.py:56-94 | A whole exchange returns the runner's final output and leaves the workflow idle, ready for the next message. |
| `Messages.SegmentRow` | service/src/routes/messages.py:46-54 | A segment yields one row exactly when it has text and has type `output_text`. That row is the assistant's, with the segment's text stripped. |
| `Messages.SegmentRows` | service/src/routes/messages.py:46-54 | An assistant item yields at most one row per segment, each with actor `assistant`. |
| `Messages.TurnRows` | service/src/routes/messages.py:31-54 | Items with missing or empty content, or a missing or empty role, yield nothing. Every row carries the item's role as actor. |
| `Messages.TurnRowsByRole` | service/src/routes/messages.py:31-54 | A `user` item with string content is one `user` row of its stripped text; with a segment list it raises `AttributeError`. An `assistant` item with a segment list gives the rows of its shown segments; with string content it raises `AttributeError`. No other item raises. |
| `Messages.Projection` | service/src/routes/messages.py:30-56 | A history is shown exactly when every item is well-formed for its role. Otherwise the request fails with `AttributeError`. |
| `Messages.GetMessages` | service/src/routes/messages.py:23-56 | The loop yields the rows of the whole history in order. The first malformed item fails the request. |
| `Messages.AppendSegmentRows` | service/src/routes/messages.py:46-54 | The inner loop appends exactly the rows of the shown segments, in segment order. |
| `Messages.SegmentRowsSnoc` | service/src/routes/messages.py:46-54 | The rows of the segments are the rows of all but the last, then the last one's. |
| `Messages.SegmentRowsAppend` | service/src/routes/messages.py:46-54 | Segment rows keep segment order across concatenation. |
| `Messages.ProjectionAppend` | service/src/routes/messages.py:30-56 | Rows follow history order. A failure in an earlier part of the history is the result, and otherwise a failure in a later part is. |
| `Messages.ProjectionSnoc` | service/src/routes/messages.py:30-56 | The projection of a history is that of all but its last item, extended by the last item's rows. |
| `Messages.ProjectionSingle` | service/src/routes/messages.py:30-56 | A one-item history shows exactly that item's rows. |
| `Messages.ProjectionActors` | service/src/routes/messages.py:39-54 | Every row's actor is `user` or `assistant`; items with other roles contribute nothing. |
| `Messages.SegmentRowsAreOutputText` | service/src/routes/messages.py:47-54 | Every assistant row is the stripped text of a segment that has text and has type `output_text`. |
| `Messages.UserTurnShownAsSent` | service/src/routes/messages.py:40-44 | The user item the workflow appends for a message comes back as one `user` row holding the stripped message. |
| `PyStr.AsciiSpaces` | mcp/src/tools.py:55 | Among ASCII characters, `isspace` holds for the space, tab to carriage return, and the four separators U+001C to U+001F. |
| `PyStr.Strip` | mcp/src/tools.py:55 | `strip` never lengthens its input, and its result starts and ends with a non-whitespace character unless it is empty. |
| `PyStr.JoinStartsWithFirst` | mcp/src/tools.py:44 | `sep.join(parts)` opens with the first part, followed by the separator when more parts follow. |
| `PyStr.StripEmptyIff` | mcp/src/tools.py:55 | A string strips to `""` exactly when it is all whitespace. |
| `PyStr.StripIsTrimmedSlice` | service/src/routes/messages.py:42 | `strip` returns a slice of its input with only whitespace cut on either side, and it cuts all of it: the slice is empty or begins and ends with a non-whitespace character. |
| `PyStr.StripSurrounded` | service/src/workflows/conversation.py:82-84 | Whitespace added around a string does not change what it strips to. |
| `Config.TypeMapping` | service/src/config/config.py:19-26 | The six schema type names map to their Python types. Any other or missing type maps to `None`, and no lookup yields an `Optional`. |
| `Config.TypeRepr` | service/src/config/config.py:40 | `str(t)` starts with `<` exactly when the annotation is a class, the only annotations `Property` accepts. |
| `Config.TypeReprs` | service/src/config/config.py:39-40 | `str` prints as `<class 'str'>` and `Optional[None]` as `<class 'NoneType'>` in doc lines. |
| `Config.Docstring` | service/src/config/config.py:39-40 | A doc line is the property's name, then ` (`, then the printed type, then `): `, and ends with the description; its length is theirs plus five. |
| `Config.DocLineOf` | service/src/config/config.py:39-40 | A doc line is exactly `name (type): description`. |
| `Config.ValidParameterName` | service/src/config/config.py:104-108 | A name `inspect.Parameter` accepts is non-empty, does not start with a digit, and contains no `-`, space or `.`. A keyword is never accepted. |
| `Config.PropertyType` | service/src/config/config.py:70-77 | A property's annotation is an `Optional` exactly when its name is not in `required`. It is a class exactly when the property is required if and only if its type is known. |
| `Config.InputProperty` | service/src/config/config.py:73-78 | The appended property keeps the schema name and takes the property's annotation. Its description and title are the schema's, or `""` when missing. |
| `Config.ResultProperty` | service/src/config/config.py:80-87 | The result property is named `result`, described as "The result of the tool execution" and titled `Result`. Its type is the one the loop gave its last property. |
| `Config.InputProperties` | service/src/config/config.py:69-78 | There is one input property per schema property. |
| `Config.Docstrings` | service/src/config/config.py:114 | There is one doc line per property, in order, each the property's `docstring()`. |
| `Config.ActivityDoc` | service/src/config/config.py:114-123 | The docstring is exactly five parts, in this order:<br>1. a newline, the indentation and the tool description (`None` when missing);<br>2. two newlines, the indentation, `Args:`, a newline and the indentation;<br>3. the parameters' doc lines joined with newlines;<br>4. two newlines, the indentation, `Returns:`, a newline and the indentation;<br>5. the result's doc line, a newline and the closing indentation. |
| `Config.FirstRejected` | service/src/config/config.py:69-78 | The loop gets as far as the first property whose annotation is not a class; every property before it is a class. |
| `Config.FirstInvalidName` | service/src/config/config.py:104-108 | The signature gets as far as the first property whose name is not an identifier or is a keyword; every name before it is valid. |
| `Config.ToolToActivity` | service/src/config/config.py:66-145 | An adapted tool keeps its name and has one parameter per schema property, each annotated with a class. Its docstring is `ActivityDoc` of the tool description, the parameters and the result property. That property is named `result`, described as "The result of the tool execution", titled `Result`, and typed with the return annotation. |
| `Config.CollectInputProperties` | service/src/config/config.py:67-78 | The loop builds the input properties in schema order and raises `ValidationError` at the first one whose annotation is not a class. |
| `Config.McpToolToActivity` | service/src/config/config.py:66-145 | The adapter raises `ValidationError` at the first property whose annotation is not a class, then `UnboundLocalError` when there is no property, then `ValueError` at the first parameter name that is not an identifier or is a keyword. Otherwise it builds the activity `ToolToActivity` describes: name, parameters, return annotation and docstring. |
| `Config.OutcomeByStage` | service/src/config/config.py:66-110 | A tool is adapted exactly when validation passes every property, there is a property, and every name is valid. It fails on the unbound loop variables exactly when validation passes and there is no property. |
| `Config.AnnotatableIsClass` | service/src/config/config.py:70-78 | A property's annotation is a class exactly when it is required with a known type or optional with an unknown type. |
| `Config.ParametersFollowSchema` | service/src/config/config.py:69-108 | Parameters follow the schema's properties in order and with the same names, each a valid identifier that is not a keyword. In an adapted tool, a property is required exactly when its type is known. It is then annotated with that type; an optional one is annotated `Optional[None]`. A missing description or title becomes `""`. |
| `Config.ActivityParameters` | service/src/config/config.py:104-110 | The signature's parameters are the input properties. |
| `Config.AdaptableIff` | service/src/config/config.py:69-108 | A tool is adapted exactly when it has at least one property and each one is required with a known type or optional with an unknown type, and is named by an identifier that is not a keyword. It fails with `UnboundLocalError` exactly when it has no property. |
| `Config.FirstUnannotatableRejected` | service/src/config/config.py:73-78 | The first property that is optional with a known type, or required with an unknown type, makes the adapter raise `ValidationError` for that property. |
| `Config.FirstInvalidNameRejected` | service/src/config/config.py:104-108 | When every property is annotatable, the first name that is not an identifier or is a keyword makes the adapter raise `ValueError` for that name. |
| `Config.ParameterNameExamples` | service/src/config/config.py:106-107 | `queue-id`, the keyword `from` and the empty name are refused as parameter names; `queue_id` is accepted. |
| `Config.ResultTypeFromLastProperty` | service/src/config/config.py:80-87 | The return annotation is the type of the last input parameter. |
| `Config.ArgsSectionLines` | service/src/config/config.py:114 | The Args section puts each parameter's doc line between the lines before and after it, separated by newlines. |
| `Config.JoinedLineAt` | service/src/config/config.py:114-119 | Within newline-joined lines placed in a text, the i-th line starts right after the earlier lines joined and one more character, and appears there intact. |
| `Config.JoinedLineSeparated` | service/src/config/config.py:114-119 | Within newline-joined lines placed in a text, a newline comes right before every line but the first and right after every line but the last. |
| `Config.JoinSplit` | service/src/config/config.py:114 | A newline-joined text splits around any one of its parts. |
| `Config.JoinAppend` | service/src/config/config.py:114 | Joining two non-empty lists is joining each with one separator between. |
| `Config.RequiredStringDocumented` | service/src/config/config.py:39-40 | A required string property's doc line is `name (<class 'str'>): description`. |
| `Config.ClassDocLine` | service/src/config/config.py:39-40 | A property annotated with a class is documented as its name, ` (`, a type in angle brackets, and finally its description. |
| `Config.ParameterDocLine` | service/src/config/config.py:39-40 | Every parameter of an adapted tool is documented as its name, ` (`, its type printed as a class in angle brackets, and finally its description. |
| `Config.OptionalUntypedDocumented` | service/src/config/config.py:71-77 | An optional property of unknown or missing type has the doc line `name (<class 'NoneType'>): description`. |
| `Config.ZipBind` | service/src/config/config.py:94 | The zipped names are the names of the first `min(#params, #args)` parameters and no others. |
| `Config.BindArguments` | service/src/config/config.py:94 | With no positional arguments, the keyword arguments are forwarded unchanged. |
| `Config.PositionalBinding` | service/src/config/config.py:94 | With positional arguments, the i-th is bound to the i-th parameter's name. Extra arguments are dropped and keyword arguments are ignored. |
| `Config.ZipBindSpec` | service/src/config/config.py:94 | With distinct names, each of those names is bound to the argument at its position. |
| `Config.ActivitiesOf` | service/src/config/config.py:151-153 | There is one activity per tool, in order, named after its tool. One tool that cannot be adapted fails the whole list. |
| `Config.McpConfig.constructor` | service/src/config/config.py:55 | No tools are cached initially. |
| `Config.McpConfig.InitTools` | service/src/config/config.py:147-149 | The listed tools become the cache. |
| `Config.McpConfig.Activities` | service/src/config/config.py:151-153 | The activities exist exactly when every cached tool is adaptable: it has a property, and each of its properties is required with a known type or optional with an unknown type, and is named by an identifier that is not a keyword. They are then one per tool, each named after its tool. |

## Left out

- Redis and network failures: the `Status::internal` errors of LRANGE, DEL and RPUSH are not modelled. Every store operation succeeds.
- JSON: an item is either an entity's JSON text or something that does not decode. The serialisation format itself, and `to_string` failures, are not modelled.
- Metadata with several values for one key is not modelled. The interceptor reads the first value, which is the one given here.
- `Gateway.CustomMatcher`: `strings.ToLower` is modelled on ASCII letters only. No non-ASCII case mapping can produce `traceparent` or `tracestate`, so the matcher's answers are the same. `runtime.DefaultHeaderMatcher` is a function parameter.
- The tools' gRPC channels, metadata forwarding (`get_http_headers`) and logging are left out. The backend is given as two functions.
- `Queue.QueueService.SetQueue`: calls are modelled one at a time. In the source, LRANGE, DEL and RPUSH are separate awaits, so two concurrent `set_queue` calls can interleave. DEL, DEL, RPUSH, RPUSH leaves both lists concatenated, and a check made against a stale LRANGE can overwrite another user's addition. The model does not capture these interleavings.
- The Temporal machinery is left out: replay, `wait_condition`, queries and updates as RPCs, and concurrency. The `_processing` lock is a boolean in a sequential protocol: BeginMessage, Step, FinishMessage.
- The agent runner is a function parameter, and a runner failure is not modelled. The source releases no slot on that path.
- `create_message` and the hard-coded user of `get_messages` are left out. The route's history is a parameter.
- `Config.TypeMapping`: a JSON-schema `type` given as a list is not modelled, because the model takes `type` as one optional string.
- `Config.TypeRepr`: this is `str(type)` as Python 3.10 to 3.13 print it.
- Pydantic validation beyond the `Property.type` class check is left out. So are the Python reflection (`signature`, `__doc__`, `setattr`, `_Definition`) and the module-level debug prints. The activity is a record of its name, parameters, return type and docstring.
- The `call_tool` and `list_tools` network calls are left out.
- `Config.ValidParameterName`: `str.isidentifier` is modelled on ASCII only. Python also accepts names made of Unicode letters and digits, which the model refuses.
- `Config.ValidParameterName`: an empty name makes `inspect.Parameter` raise `IndexError`, not `ValueError`; the model reports both as `InvalidParameterName`. A name made of a dot and digits, such as `.0`, is renamed by `inspect` rather than refused; the model refuses it.
