# SDLC workflow engine: a Dafny model

This project models the core of an SDLC assistant written in Python on top of LangGraph. The
assistant runs a five-node graph. It initialises a project, waits for requirements, generates one
user story per requirement, waits for a product owner's decision, and on approval writes a
functional design document. Three HTTP handlers drive it, and they keep the workflow state in a
checkpoint store keyed by task id.

The modules follow the source files:

| module | file | source |
|---|---|---|
| `SdlcState` | `sdlc_state.dfy` | `src/state/sdlc_state.py` |
| `SdlcNode` | `sdlc_node.dfy` | `src/nodes/sdlc_node.py` |
| `DesignDocNode` | `design_doc_node.dfy` | `src/nodes/design_doc_node.py` |
| `GraphBuilder` | `graph_builder.dfy` | `src/graph/graph_builder.py` |
| `App` | `app.dfy` | `app.py` |

Three helper modules sit beside them. `Wrappers` holds `Option` and `Result`. `Text` models
Python's `str.join` and `str(int)`. `Generation` models the language-model service as two
uninterpreted functions that are passed in as values.

How the model is built:

- **State.** The state dictionary is one record, `SDLCState`, whose fields are all `Option`.
  A Python key can be absent, and the code reads absent keys with `.get(key, default)` or fails
  with `KeyError`. The first three fields are the keys that `SDLCState` declares. The others
  (`progress`, `status`, `next_required_input`, `current_node`, `product_decision`,
  `feedback_reason`, `design_documents`) are keys that the nodes and handlers write. A node's
  partial update is a record of the same type, read as the keys it sets. `Merge` applies an
  update key by key, because the state declares no reducers.
- **Nodes.** `project_initilization` changes the dictionary it receives in place (class
  `StateDict`, method `ProjectInitilization`). The function `Initialized` specifies it.
  `get_requirements` returns no update. `auto_generate_user_stories` maps the requirements, in
  order, to generated stories with indices starting at 1. `JoinByIndex` models the ordered join
  of `asyncio.gather`.
- **Formatters.** `_format_list` is a function. `_format_user_stories` is a loop method,
  checked against the function `UserStoriesText`. A story item is an object (`Story`), a
  dictionary (`Mapping`, whose values are already rendered as `str` would render them), or
  anything else (`Other`), which is dropped.
- **Graph.** The graph is a value in two forms: the declaration `build_graph` records, with
  names as strings, and the typed tables the stepper uses. Five lemmas
  (`NodesMatchDeclaration` and the four after it) prove that the two agree. The stepper is a
  loop, `Stream`, checked against the recursive function `Run`.
  A run stops before an interrupt node without running it, stops at `END`, or fails. Resuming
  (`ResumeRun`, `ResumeAs`) applies an update as the pending node and continues from that
  node's successor. The router's body is not part of this model; it is read as
  returning the `product_decision` key. An absent key is `MissingKey`, and a label outside the table is
  `UnknownLabel`.
- **Handlers.** `Service` holds the checkpoint store as a `map<string, SDLCState>` and has one
  method per handler. The eight-character hex suffix of a task id is a parameter. A handler
  whose run raises saves nothing and returns `Err`.

Three facts about the code that a reader might expect otherwise:

- `current_node` and `next_required_input` do not track the suspended position. Only
  `project_initilization` writes them, so after the stories are generated the state still says
  `project_initilization` and `requirements` (`PositionKeysNotUpdated`).
- The review reason is kept as a single `feedback_reason` string, not as a list of past
  reasons.
- The requirements handler resumes whether or not a checkpoint is stored (app.py:67-73). No
  handler checks whether the run already completed. With no stored state, the review handler
  does not resume and answers with the task id only.

## Model

| member | source | states |
|---|---|---|
| `SdlcState.Input` | app.py:37 | The initial input of a run sets `project_name` and no other key. |
| `SdlcState.Merge` | src/graph/graph_builder.py:11 | After an update, every key the update sets has the update's value, every other key keeps its stored value, and no key is lost. |
| `SdlcState.MergeAssociative` | src/graph/graph_builder.py:11 | Two updates applied one after the other equal one combined update in which the later update's keys win. |
| `SdlcState.MergeCovering` | src/graph/graph_builder.py:11 | Applying an update that sets every stored key gives the update itself. An empty update leaves the state as it is. |
| `SdlcNode.Initialized` | src/nodes/sdlc_node.py:17-20 | Sets `progress` to 10, `status` to "in_progress", `next_required_input` to "requirements" and `current_node` to "project_initilization". Every other key, including `project_name` and `requirements`, is unchanged. |
| `SdlcNode.ProjectInitilization` | src/nodes/sdlc_node.py:12-21 | Changes the dictionary it receives, in place, to `Initialized` of its old contents, and returns that same dictionary. |
| `SdlcNode.InitializedAsUpdate` | src/nodes/sdlc_node.py:21 | The returned dictionary, applied as an update, yields itself. Running the node twice changes nothing further. |
| `SdlcNode.GetRequirements` | src/nodes/sdlc_node.py:23-27 | The node's update leaves every state unchanged. |
| `SdlcNode.AutoGenerateUserStories` | src/nodes/sdlc_node.py:48-61 | Fails with a missing `project_name` or `requirements` key, and succeeds otherwise. On success there is exactly one story per requirement. Story i (0-based) is the one generated for requirement i with index i+1. The update touches only `user_stories`. |
| `SdlcNode.NoRequirementsNoStories` | src/nodes/sdlc_node.py:55-61 | An empty requirement list gives an empty `user_stories`. |
| `SdlcNode.FillSlots` | src/nodes/sdlc_node.py:60 | Whatever the completion order, each completed task's result sits in the slot of its own position, and no other slot is created. |
| `SdlcNode.JoinByIndex` | src/nodes/sdlc_node.py:60 | For every completion order of the tasks, the gathered list equals the results in task order. |
| `SdlcNode.StoriesAreJoined` | src/nodes/sdlc_node.py:55-61 | Whatever order the generation tasks complete in, the node's `user_stories` is the join of their results. |
| `DesignDocNode.FormatListLines` | src/nodes/design_doc_node.py:81-83 | An empty list formats to "". Any other list formats to its "- item" lines, each followed by a newline, minus the final newline: items in order, joined by "\n", no trailing newline. |
| `DesignDocNode.FormatUserStories` | src/nodes/design_doc_node.py:85-95 | The loop's result is `UserStoriesText(stories)`: entries for object and dictionary items, in input order, joined by "\n". |
| `DesignDocNode.EntriesAppend` | src/nodes/design_doc_node.py:87-95 | The entries of a concatenated list are the concatenated entries, so input order is kept. |
| `DesignDocNode.OtherDropped` | src/nodes/design_doc_node.py:89-94 | An item that is neither an object nor a dictionary adds nothing to the output, wherever it stands. |
| `DesignDocNode.EntriesInOrder` | src/nodes/design_doc_node.py:87-94 | When every item is an object or a dictionary, there is exactly one entry per item, and entry i is the entry of item i. |
| `DesignDocNode.EntriesSnoc` | src/nodes/design_doc_node.py:88-94 | One more object or dictionary item appends exactly its own entry at the end. |
| `DesignDocNode.StatusNotShown` | src/nodes/design_doc_node.py:91 | A story's entry does not depend on its `status`. |
| `DesignDocNode.ObjectAndDictionaryAgree` | src/nodes/design_doc_node.py:89-94 | A story object and the dictionary of its rendered `id`, `title` and `description` give the same entry. |
| `DesignDocNode.MissingKeysShowNA` | src/nodes/design_doc_node.py:94 | Each of the `id`, `title` and `description` slots shows the dictionary's value for that key, or "N/A" when that key is missing, whatever the other keys hold. A dictionary with none of them shows "N/A" three times. |
| `DesignDocNode.FormatList` | src/nodes/design_doc_node.py:81-83 | The formatted list is "" exactly when the list is empty. Otherwise it starts with "- " and the first item. The full rendering is stated by `FormatListLines`. |
| `DesignDocNode.GenerateFunctionalDesign` | src/nodes/design_doc_node.py:38-79 | The design text is generated from the project name, the formatted requirements, and the stories' entries in order, one per story, joined by newlines. |
| `DesignDocNode.CreateDesignDocument` | src/nodes/design_doc_node.py:14-36 | Returns every existing key unchanged plus `design_documents`. Its `functional` text is generated from the project name and the formatted requirements and stories, with absent keys read as empty. |
| `DesignDocNode.MissingListsFormatEmpty` | src/nodes/design_doc_node.py:19-20 | With no `requirements` and no `user_stories` in the state, both formatted lists handed to the generator are "". |
| `Text.IntToStringRoundTrip` | src/nodes/design_doc_node.py:91 | A story id's rendering reads back to the id, so distinct ids render differently. |
| `Text.NatToString` | src/nodes/design_doc_node.py:91 | The rendering of a natural number is a non-empty string of decimal digits with no leading zero. |
| `Text.JoinThenSeparator` | src/nodes/design_doc_node.py:95 | A join of a non-empty list plus one separator is every part followed by the separator: the join adds no trailing separator. |
| `Text.JoinAppend` | src/nodes/design_doc_node.py:95 | Joining one more part onto a non-empty list adds exactly one separator before it. |
| `GraphBuilder.BuildGraph` | src/graph/graph_builder.py:14-47 | Every added node has a way out. No endpoint is the source of two static edges, and the node with the conditional edge has no static edge, so each node leaves in exactly one declared way. |
| `GraphBuilder.SetupGraphWellFormed` | src/graph/graph_builder.py:22-51 | Node names are distinct. Every name used by an edge, by the routing table or by the interrupt list is one of the five added nodes. |
| `GraphBuilder.NodesMatchDeclaration` | src/graph/graph_builder.py:22-26 | Every typed node is one of the five added nodes. A name denotes a typed node exactly when it was added. |
| `GraphBuilder.DeclaredEdgesAreTyped` | src/graph/graph_builder.py:30-42 | Every declared static edge, including the `START` edge and the edge to `END`, is an edge of the typed graph. |
| `GraphBuilder.TypedEdgesAreDeclared` | src/graph/graph_builder.py:30-42 | `START` enters `project_initilization`. Every static successor of the typed graph is a declared edge: `project_initilization` to `get_requirements`, `get_requirements` to `auto_generate_user_stories`, `auto_generate_user_stories` to `product_owner_review_decision`, and `create_design_document` to `END`. |
| `GraphBuilder.BranchMatchesDeclaration` | src/graph/graph_builder.py:34-41 | The one conditional edge leaves the only node without a static edge. Its label table is the routing table. |
| `GraphBuilder.InterruptsMatchDeclaration` | src/graph/graph_builder.py:51 | The typed interrupt set is exactly the `interrupt_before` list. |
| `GraphBuilder.NodeNameRoundTrip` | src/graph/graph_builder.py:22-26 | Node names and nodes correspond one to one. |
| `GraphBuilder.ProductDecisionRouter` | src/graph/graph_builder.py:36 | The router returns the stored `product_decision` as it is, and fails with a missing `product_decision` key exactly when it is absent. |
| `GraphBuilder.Route` | src/graph/graph_builder.py:34-41 | `approved` leads to `create_design_document` and `feedback` to `auto_generate_user_stories`. Any other label is an `UnknownLabel` error, and only these two labels resolve. |
| `GraphBuilder.EveryNodeReachable` | src/graph/graph_builder.py:30-42 | Every node, and the end, is reachable from the entry node along the declared edges. |
| `GraphBuilder.Run` | src/graph/graph_builder.py:49-51 | A run stops before an interrupt node, stops at the end, or fails. Whichever it does, no key of the state it started from is lost. |
| `GraphBuilder.StartRun` | app.py:37 | A fresh run loses no key of its input and keeps its `project_name`. |
| `GraphBuilder.ResumeRun` | app.py:73-79 | A resumed run loses no key of the stored state or of the applied update, and it suspends only at an interrupt node. |
| `GraphBuilder.ExecuteNode` | src/graph/graph_builder.py:22-26 | Running a non-interrupt node's body, as the source writes it, gives the update that `Step` specifies. |
| `GraphBuilder.Stream` | src/graph/graph_builder.py:30-51 | The stepper loop stops exactly where `Run` does, in the same state. |
| `GraphBuilder.Invoke` | app.py:37 | Streaming a new thread is a fresh run from `START`. |
| `GraphBuilder.ResumeAs` | app.py:73-79 | Updating as a node and then streaming applies the update and continues from that node's successor. |
| `GraphBuilder.InterruptSuspends` | src/graph/graph_builder.py:51 | Before `get_requirements` or `product_owner_review_decision`, the run halts with that node pending and the state untouched: its body does not run. |
| `GraphBuilder.SuspendsOnlyAtInterrupts` | src/graph/graph_builder.py:51 | A suspended run is always pending at an interrupt node. |
| `GraphBuilder.CompletionHasDesign` | src/graph/graph_builder.py:42 | A run from a node that reaches the end holds a design document. |
| `GraphBuilder.FreshRunSuspendsAtRequirements` | src/graph/graph_builder.py:30-31 | A fresh run executes only `project_initilization` and suspends with `get_requirements` pending. |
| `GraphBuilder.ResumeAfterRequirements` | src/graph/graph_builder.py:32-33 | After an update as `get_requirements`, story generation runs and the run suspends with `product_owner_review_decision` pending, or fails with a missing key. |
| `GraphBuilder.ApprovedCompletes` | src/graph/graph_builder.py:34-42 | After an update as `product_owner_review_decision` with `approved`, `create_design_document` runs and the run completes. |
| `GraphBuilder.FeedbackRegenerates` | src/graph/graph_builder.py:33-40 | With `feedback`, stories are generated again and the run suspends again before the review. |
| `GraphBuilder.UnroutableDecisionFails` | src/graph/graph_builder.py:34-41 | Any other decision, or an absent one, fails the run before any node runs. |
| `GraphBuilder.PositionKeysNotUpdated` | src/nodes/sdlc_node.py:61 | Generating stories leaves `current_node` and `next_required_input` as they were. |
| `App.TaskId` | app.py:30 | A task id is "sdlc-task-" followed by the 8 lowercase hex characters, 18 characters in all. |
| `App.TaskIdBijective` | app.py:30 | Every well-formed id comes from exactly one suffix. |
| `App.WithRequirements` | app.py:62-69 | On a non-empty loaded state, only `requirements` is overwritten, with `[]` when the body lacks it. An empty loaded state is returned unpatched. |
| `App.WithDecision` | app.py:95-104 | Only `product_decision` and `feedback_reason` are set, each "" when the body lacks it. |
| `App.Service.FlushAll` | app.py:27 | Every stored checkpoint, of every task, is cleared. |
| `App.Service.Save` | app.py:42 | Saving replaces the checkpoint of that task id and no other. |
| `App.Service.Load` | app.py:67 | Loading returns the stored checkpoint, or none. |
| `App.Service.StartWorkflow` | app.py:22-52 | The store holds exactly the new task id, mapped to the suspended state of a fresh run. The response's `status`, `next_required_input`, `progress` and `current_node` are copied from that state. |
| `App.Service.SubmitRequirements` | app.py:55-85 | Applies the patched state as `get_requirements` and resumes. It saves the state reached under the same id and returns it, or saves nothing when the run fails. A saved run is suspended. |
| `App.Service.ProductOwnerReview` | app.py:87-121 | With a stored, non-empty state, sets the decision and reason, resumes as `product_owner_review_decision` and saves the result. With none, it neither resumes nor saves, and answers with the task id only. |
| `App.StartingAnotherTaskForgetsTheFirst` | app.py:27 | After a second task starts, a review of the first finds no checkpoint and returns only its id. |
| `App.ApprovedWalkthrough` | app.py:22-121 | Start, submit requirements, approve: the last reply holds the requirements, one story per requirement, the decision and a design document. |

## Left out

- HTTP routing, JSON request parsing, server start-up and the startup hook that builds the graph
  (app.py:11-20, :124-125). These are I/O plumbing. Handler bodies arrive as typed parameters,
  and a key missing from the body is `None`.
- Python's `''` default for `requirements` in the requirements handler is modelled as the empty
  list. Every consumer iterates the value, and an empty string and an empty list iterate alike.
  The stored value is not modelled as a string.
- The language-model calls (prompt text, `invoke`, `with_structured_output`, the client
  classes) are not modelled. Generation is the pair of total functions in `Llm`. The design
  generator receives the project name and the two formatted lists, which are the only variable
  parts of its prompt. Service failures and the failure of one gathered task are not modelled.
- Generation is deterministic in the model: the same prompt always yields the same story or
  text. A `feedback` round therefore regenerates exactly the stories already stored, while the
  real service can answer the same prompt differently on each call. The model does not say
  that a feedback round changes the stories.
- `asyncio` concurrency is not modelled. `JoinByIndex` states the order of the join for an
  arbitrary completion order.
- Random UUIDs are not modelled. The 8-character hex suffix is a parameter.
- The Redis client (`src/cache/redis_cache.py`) is not part of this model. The store is a map
  with save, load and flush-all, and nothing is claimed about serialisation. LangGraph's
  in-memory checkpointer is not modelled separately either: the thread values that an update is
  merged into are taken to be the stored state, which is what each handler saved last. The
  handlers apply the update to the thread (app.py:73, :108) before the run that may fail, and a
  failed run saves nothing to the store. After a failed resume the thread already holds the
  applied update while the store keeps the old state. The model does not capture this
  divergence: a later resume merges into the stored state.
- The body of `product_owner_review_decision` is not part of this model. It is never executed: the node is an
  interrupt point, and the review handler always resumes as that node. `Step` therefore requires
  a non-interrupt node.
- `product_decision_router` and `DesignDocument` are not part of this model. The router returns the
  `product_decision` key, and an absent key is an error. `DesignDocument` is a record with one
  `functional` string.
- App.Service.SubmitRequirements: requires a stored state. With none, the handler passes `None`
  to the library's `update_state`, whose behaviour is not part of this model.
- LangGraph's compile-time checks and its step-by-step event stream are not modelled. The reply
  data is taken to be the state that the run reached, which is the last streamed value.
- Story items that carry `id`, `title` and `description` attributes but are not user stories
  are represented only by `Story`.
- The unused imports, the `print` calls, the commented-out `design_review` code and the unused
  `delete_from_redis` import are dead code and are left out.
