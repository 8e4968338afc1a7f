# Spam-routing workflow and Redis-backed chat history, modelled in Dafny

This project models the local logic of two samples built on the agent framework.

- **The branching-logic workflow** (`workflows/workflow_branching_logic_conditional_edge.py`).
  A spam detector's JSON answer is routed by the edge condition `get_condition(expected)`.
  The condition lets a message through in three cases:
  - anything that is not an agent response passes;
  - a response whose text parses as a detection passes when `is_spam == expected`;
  - a response that does not parse never passes.

  The model covers the condition, the three executors written in the sample (`send_email`, `handle_spam`, `to_email_assistant_request`) and the four-edge table with its start executor.
  - Messages are a closed variant: request, response, or any other object.
  - Pydantic's JSON validation is an abstract partial function (`string -> Option<…>`).
  - An executor invocation returns the outputs it yielded and the messages it sent, or the error it raised.
- **`RedisChatMessageStore`** (`agents/agent_store_history_third_party.py`).
  A thread's history is one Redis list under `key_prefix:thread_id`.
  - The Redis server is an in-memory `map<string, seq<string>>`.
  - RPUSH, LLEN, LRANGE, LTRIM and DEL follow Redis semantics. Negative indices count from the tail, out-of-range windows are clamped, and a list trimmed to nothing loses its key.
  - Each store operation is a pure transformer of the store configuration and that map.
  - Message (de)serialisation to JSON is a pair of function parameters. Their round trip is assumed only where a lemma needs it.

Modules: `Base` (optional values, results, chat messages, mapping over a sequence), `SpamRouting`, `WorkflowGraph`, `RedisList`, `ChatStore`.

The workflow engine itself (`WorkflowBuilder`, `run`, scheduling, idle detection, `Case`/`Default`) belongs to the external framework package, which is not part of this model. The model therefore states which edges of the table fire for a message and which walks the table allows. It does not state how the engine runs the targets. A general engine, with switch groups, build-time validation and run results, is not part of this model.

In the code the condition catches its own parse error and returns false, and the engine is never involved. The model follows the code: a parse failure is a `None` from the abstract parser, and the condition turns it into `false`.

Corner cases the proofs bring out, all modelled as the code is written:
- **`max_messages = 0` bounds nothing.** The trim call becomes `LTRIM key -0 -1`, which is `LTRIM key 0 -1` and keeps every entry (`ChatStore.ZeroLimitKeepsEverything`).
- **A negative limit drops entries from the head.** It drops the oldest `-m` entries on every non-empty add (`ChatStore.AddNonPositiveLimit`).
- **The length bound holds only after a non-empty add.** With a positive limit the list is bounded after each add of at least one message. Adding nothing leaves a longer list alone, for example after a restored state lowered the limit (`ChatStore.AddBounded`).
- **A non-response from the detector passes both detector edge guards.** The condition's pass-through guard lets a message that is not an agent response through the guards of both detector edges (`WorkflowGraph.DetectorRouting`).

## Model

| member | source | states |
|---|---|---|
| SpamRouting.Condition | workflows/workflow_branching_logic_conditional_edge.py:51-72 | a message that is not an agent response passes; a response passes exactly when its text parses and the parsed spam flag equals `expected` |
| SpamRouting.NonResponsePassesBoth | workflows/workflow_branching_logic_conditional_edge.py:56-59 | a message that is not an agent response passes the condition for both expected values |
| SpamRouting.ParsedResponseMatchesFlag | workflows/workflow_branching_logic_conditional_edge.py:61-66 | for a response whose text parses to `d`, the condition for `expected` holds iff `d.is_spam == expected` |
| SpamRouting.ParseFailureFailsClosed | workflows/workflow_branching_logic_conditional_edge.py:67-70 | a response whose text does not parse passes neither condition (fail closed) |
| SpamRouting.ResponseConditionsExclusive | workflows/workflow_branching_logic_conditional_edge.py:51-72 | for any response the spam and not-spam conditions never both hold; one of them holds iff the text parses |
| SpamRouting.HandleEmailResponse | workflows/workflow_branching_logic_conditional_edge.py:75-80 | succeeds iff the reply parses; then it yields exactly `"Email sent:\n" + response` and sends nothing; otherwise it raises a validation error |
| SpamRouting.HandleSpamClassifierResponse | workflows/workflow_branching_logic_conditional_edge.py:83-92 | succeeds iff the detection parses with `is_spam` set, yielding exactly `"Email marked as spam: " + reason` and sending nothing; raises a validation error on a parse failure and the RuntimeError guard when not spam |
| SpamRouting.ToEmailAssistantRequest | workflows/workflow_branching_logic_conditional_edge.py:95-108 | succeeds iff the detection parses; then it yields nothing and sends exactly one request with `should_respond` set, holding one USER message with the detection's `email_content` |
| SpamRouting.SpamEdgeNeverRaises | workflows/workflow_branching_logic_conditional_edge.py:61-92 | any response admitted by `get_condition(True)` makes the spam handler's own parse succeed with `is_spam` set, so its RuntimeError branch cannot be reached through that edge |
| SpamRouting.NotSpamEdgeNeverRaises | workflows/workflow_branching_logic_conditional_edge.py:95-108 | any response admitted by `get_condition(False)` parses as not spam, and the transformer does not raise on it |
| WorkflowGraph.Routed | workflows/workflow_branching_logic_conditional_edge.py:156-166 | the targets selected from a source are exactly the targets of its edges whose guard lets the message through (every matching edge fires) |
| WorkflowGraph.IdsDistinct | workflows/workflow_branching_logic_conditional_edge.py:75-147 | the five executors are registered under pairwise distinct ids |
| WorkflowGraph.DetectorRouting | workflows/workflow_branching_logic_conditional_edge.py:156-166 | from the detector: a non-response passes both detector edge guards, in edge order; a spam response passes only the guard of the edge to the spam handler; a non-spam response passes only the guard of the edge to the transformer; an unparsable response passes neither |
| WorkflowGraph.ResponseTakesAtMostOneBranch | workflows/workflow_branching_logic_conditional_edge.py:160-164 | at most one of the two detector edges fires for an agent response, and exactly one fires iff its text parses |
| WorkflowGraph.PathsOfBranching | workflows/workflow_branching_logic_conditional_edge.py:156-166 | every walk from the start executor is a prefix of detector → transformer → assistant → sender or of detector → spam handler |
| WorkflowGraph.SendEmailOnlyViaAssistant | workflows/workflow_branching_logic_conditional_edge.py:159-162 | `send_email` is reached only as the fourth step, after `to_email_assistant_request` and `email_assistant_agent`, and the edge into the transformer carries the not-spam condition |
| WorkflowGraph.HandleSpamOnlyFromDetector | workflows/workflow_branching_logic_conditional_edge.py:163-164 | the spam handler is reached only directly from the detector, and every edge into it carries the spam condition |
| WorkflowGraph.SpamScenario | workflows/workflow_branching_logic_conditional_edge.py:83-92 | a response flagged as spam passes only the guard of the edge to the spam handler, which yields the single spam notice |
| WorkflowGraph.HamScenario | workflows/workflow_branching_logic_conditional_edge.py:153-162 | a non-spam response passes only the guard of the edge to the transformer. Its single request is selected only by the edge to the assistant. Any assistant response is selected only by the edge to the sender, which yields the sent email when the reply parses |
| RedisList.LLen | agents/agent_store_history_third_party.py:89 | LLEN is zero exactly when the key holds no entries |
| RedisList.LRange | agents/agent_store_history_third_party.py:101 | LRANGE never returns more entries than the list holds |
| RedisList.RPush | agents/agent_store_history_third_party.py:85 | RPUSH appends the values at the tail in order, creates the key, and leaves every other key unchanged |
| RedisList.WindowSelects | agents/agent_store_history_third_party.py:92 | the clamped window covers exactly the positions between the resolved start and stop indices, with negative indices counted from the tail |
| RedisList.LRangeSelects | agents/agent_store_history_third_party.py:101 | LRANGE returns exactly the contiguous block of selected positions, in list order |
| RedisList.LRangeAll | agents/agent_store_history_third_party.py:101 | `LRANGE key 0 -1` returns the whole list |
| RedisList.LTrim | agents/agent_store_history_third_party.py:92 | LTRIM keeps exactly what LRANGE with the same arguments returns, removes the key when that is empty, and leaves other keys unchanged |
| RedisList.Del | agents/agent_store_history_third_party.py:155 | DEL removes the key and nothing else |
| RedisList.NewestIsTail | agents/agent_store_history_third_party.py:91-92 | the newest `m` entries are a tail of the list, at most `m` long, and end with its last entry |
| RedisList.LTrimKeepsNewest | agents/agent_store_history_third_party.py:91-92 | `LTRIM key -m -1` with `m > 0` keeps the last `min(len, m)` entries |
| RedisList.LTrimDropsOldest | agents/agent_store_history_third_party.py:92 | `LTRIM key n -1` with `n >= 0` drops the oldest `n` entries, or all of them |
| ChatStore.New | agents/agent_store_history_third_party.py:35-60 | fails with the ValueError exactly when `redis_url` is None. Otherwise it keeps the URL, prefix and limit. It keeps a truthy thread id and replaces a missing or empty one with `"thread_" + uuid`, so the thread id is never empty |
| ChatStore.RedisKey | agents/agent_store_history_third_party.py:69-72 | the key is the prefix, then a colon, then the thread id, and nothing else |
| ChatStore.KeysSeparateThreads | agents/agent_store_history_third_party.py:69-72 | the key is the prefix, a colon, then the thread id, so within one prefix two stores share a list exactly when they share a thread id |
| ChatStore.AddMessages | agents/agent_store_history_third_party.py:80-81 | adding no messages leaves the whole server unchanged |
| ChatStore.AddTouchesOnlyThread | agents/agent_store_history_third_party.py:74-92 | an add changes only this thread's key, and preserves the no-empty-list invariant |
| ChatStore.ApplyLimit | agents/agent_store_history_third_party.py:87-92 | the trimming step changes nothing without a limit or within it; with a positive limit `m` it leaves the newest `min(len, m)` entries |
| ChatStore.AddUnbounded | agents/agent_store_history_third_party.py:84-85 | without a limit the list becomes the old list followed by the serialized messages in the given order |
| ChatStore.AddBounded | agents/agent_store_history_third_party.py:87-92 | with a positive limit `m`, a non-empty add leaves the last `min(len, m)` entries of old list ++ new messages |
| ChatStore.AddBoundedKeepsNewest | agents/agent_store_history_third_party.py:87-92 | after a non-empty add with a positive limit `m`, the list is non-empty and at most `m` long. It is a tail of old ++ new, so order is kept, and it ends with the newest message |
| ChatStore.AddNonPositiveLimit | agents/agent_store_history_third_party.py:88-92 | with a limit `m <= 0`, a non-empty add drops the oldest `-m` entries of old ++ new, or all of them |
| ChatStore.ZeroLimitKeepsEverything | agents/agent_store_history_third_party.py:88-92 | with `max_messages = 0` an add keeps every entry, exactly as without a limit |
| ChatStore.ListMessages | agents/agent_store_history_third_party.py:94-108 | succeeds exactly when every entry of the thread's list deserializes, and then returns one message per entry, each the entry's deserialization, oldest first; otherwise it raises the decoding error |
| ChatStore.Clear | agents/agent_store_history_third_party.py:153-155 | after clearing, the thread's list is empty and every other key is unchanged |
| ChatStore.AddBatchesUnbounded | agents/agent_store_history_third_party.py:74-92 | without a limit, a series of adds appends every serialized message in call order |
| ChatStore.ListAfterAppends | agents/agent_store_history_third_party.py:94-108 | an unbounded thread that started empty holds, after a series of adds, one deserializable entry per appended message, decoding to the messages in call order, given the serialisation round trip; with `ListMessages`, listing returns exactly the appended messages |
| ChatStore.DeserializeState | agents/agent_store_history_third_party.py:125-141 | a falsy state changes nothing and an invalid one raises. A valid one replaces the thread id, prefix and limit. The URL changes only to the state's non-empty URL, which always ends up current |
| ChatStore.FactoryStore | agents/agent_store_history_third_party.py:177-181 | the store the history sample's factory builds (URL and limit 100 only) gets the default prefix and a generated thread id, so it writes under `chat_messages:thread_<uuid>` |
| ChatStore.RestoreRetargetsKey | agents/agent_store_history_third_party.py:132-136 | after restoring a state, the store's key is the state's prefix, a colon, then its thread id |
| ChatStore.RestoreIdempotent | agents/agent_store_history_third_party.py:132-141 | restoring the same state twice gives the same store as restoring it once |

## Left out

- The workflow engine (`WorkflowBuilder` validation, `run` scheduling, fan-out execution, idle termination, switch/case groups): it lives in the external framework package, which is not part of this model; only the local edge table and which edges fire are modelled.
- Pydantic JSON validation and `json.dumps`/`json.loads`: foreign calls, abstracted as partial parse functions and as serialize/deserialize parameters.
- LLM agents (`spam_detection_agent`, `email_assistant_agent`), Azure credentials, project and chat clients, `.env` loading and the sample `main` functions: network and configuration plumbing.
- Redis connection setup, reconnection on a URL change and `aclose`: network I/O. The server is a single in-memory map, and the password is handed only to the connection.
- `serialize_state`: it reads `self.redis_psw`, which `__init__` never assigns, so as written it fails with an attribute error. No round trip with `deserialize_state` is modelled.
- The other samples (`agents/agent_human_in_loop.py`, `agents/agent_persist_thread_history.py`, `agents/agent_middleware.py`, `agents/agent_multiturn.py`, `agents/agent_with_image.py`, `sample.py`): console loops, file persistence, logging middleware, wall-clock time and thin calls into the framework.
- Async/await and concurrency: every coroutine is a sequential state transformer.
- RedisList.RPush: requires at least one value instead of modelling Redis's arity error, because `add_messages` never pushes an empty batch.
- Whether an edge's target accepts the message's type: the engine checks a target's declared input types before delivering, and that dispatch is not modelled. `Routed` and `DetectorRouting` state only which edge guards pass. Both detector targets take agent responses, which is what the detector emits.
- WorkflowGraph.Routed: its contract states which targets are selected, not their order. The order for the detector's edges is stated exactly by `WorkflowGraph.DetectorRouting`.
