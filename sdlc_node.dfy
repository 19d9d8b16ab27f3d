/** The bodies of the first three workflow nodes. */
module SdlcNode {
  import opened Wrappers
  import opened SdlcState
  import opened Generation

  /** The state dictionary a node receives, which it may change in place. */
  class StateDict {
    var values: SDLCState

    constructor (values: SDLCState)
      ensures this.values == values
    {
      this.values := values;
    }
  }

  /** What `project_initilization` leaves in the dictionary: the four
      bookkeeping keys set, every other key as it was. */
  function Initialized(s: SDLCState): (r: SDLCState)
    ensures r.progress == Some(10)
    ensures r.status == Some("in_progress")
    ensures r.nextRequiredInput == Some("requirements")
    ensures r.currentNode == Some("project_initilization")
    ensures r.(progress := s.progress, status := s.status,
               nextRequiredInput := s.nextRequiredInput, currentNode := s.currentNode) == s
  {
    s.(progress := Some(10), status := Some("in_progress"),
       nextRequiredInput := Some("requirements"), currentNode := Some("project_initilization"))
  }

  /** `project_initilization`: assigns the four keys of the dictionary it is
      given and returns that same dictionary. */
  method ProjectInitilization(state: StateDict) returns (r: StateDict)
    modifies state
    ensures r == state
    ensures state.values == Initialized(old(state.values))
  {
    state.values := state.values.(progress := Some(10));
    state.values := state.values.(status := Some("in_progress"));
    state.values := state.values.(nextRequiredInput := Some("requirements"));
    state.values := state.values.(currentNode := Some("project_initilization"));
    r := state;
  }

  /** The returned dictionary sets every key the input had, so as an update
      it yields itself; running the node twice changes nothing more. */
  lemma InitializedAsUpdate(s: SDLCState)
    ensures Merge(s, Initialized(s)) == Initialized(s)
    ensures Initialized(Initialized(s)) == Initialized(s)
  {
    MergeCovering(s, Initialized(s));
  }

  /** `get_requirements`: returns nothing, so the state is left as it is. */
  function GetRequirements(s: SDLCState): (u: SDLCState)
    ensures Merge(s, u) == s
  {
    NoFields
  }

  /** The task list `[generate_user_story(name, requirement, index) for index,
      requirement in enumerate(requirements, start=1)]`, read by position. */
  function Gather(llm: Llm, projectName: string, requirements: seq<string>): seq<UserStory> {
    seq(|requirements|, i requires 0 <= i < |requirements| =>
      llm.userStory(projectName, requirements[i], i + 1))
  }

  /** `auto_generate_user_stories`: one story per requirement, in requirement
      order and with 1-based indices; the update sets only `user_stories`.
      Reading `state["project_name"]` or `state["requirements"]` fails when
      the key is absent. */
  function AutoGenerateUserStories(llm: Llm, s: SDLCState): (r: Result<SDLCState, Error>)
    ensures r.Ok? <==> s.projectName.Some? && s.requirements.Some?
    ensures s.projectName.None? ==> r == Err(MissingKey("project_name"))
    ensures s.projectName.Some? && s.requirements.None? ==> r == Err(MissingKey("requirements"))
    ensures r.Ok? ==>
      var requirements := s.requirements.value;
      var stories := r.value.userStories;
      && stories.Some?
      && |stories.value| == |requirements|
      && (forall i :: 0 <= i < |requirements| ==>
            stories.value[i] == llm.userStory(s.projectName.value, requirements[i], i + 1))
      && Merge(s, r.value) == s.(userStories := stories)
  {
    if s.projectName.None? then Err(MissingKey("project_name"))
    else if s.requirements.None? then Err(MissingKey("requirements"))
    else Ok(NoFields.(userStories := Some(Gather(llm, s.projectName.value, s.requirements.value))))
  }

  /** No requirements, no stories. */
  lemma NoRequirementsNoStories(llm: Llm, s: SDLCState)
    requires s.projectName.Some? && s.requirements == Some([])
    ensures AutoGenerateUserStories(llm, s) == Ok(NoFields.(userStories := Some([])))
  {
  }

  /** Each task completes once, in some order: `order` lists the positions
      0 .. n-1 in completion order. */
  predicate IsCompletionOrder(order: seq<nat>, n: nat) {
    && |order| == n
    && (forall k :: k in order ==> k < n)
    && (forall i :: 0 <= i < n ==> i in order)
  }

  /** The join: as each task completes, its result is stored in the slot of
      its position. */
  function FillSlots<T>(slots: map<nat, T>, results: seq<T>, order: seq<nat>): (r: map<nat, T>)
    requires forall k :: k in order ==> k < |results|
    ensures forall k :: k in r <==> k in slots || k in order
    ensures forall k :: k in order ==> r[k] == results[k]
    ensures forall k :: k in slots && k !in order ==> r[k] == slots[k]
    decreases |order|
  {
    if |order| == 0 then slots
    else
      assert order[0] in order;
      assert forall k :: k in order[1..] ==> k in order;
      FillSlots(slots[order[0] := results[order[0]]], results, order[1..])
  }

  /** The gather result: slot by slot, whatever order the tasks completed in,
      it is the list of results in task order. */
  function JoinByIndex<T>(results: seq<T>, order: seq<nat>): (r: seq<T>)
    requires IsCompletionOrder(order, |results|)
    ensures r == results
  {
    var slots := FillSlots(map[], results, order);
    seq(|results|, i requires 0 <= i < |results| => slots[i])
  }

  /** Whatever order the generation tasks complete in, the stories the node
      returns are the join of the tasks' results. */
  lemma StoriesAreJoined(llm: Llm, s: SDLCState, order: seq<nat>)
    requires s.projectName.Some? && s.requirements.Some?
    requires IsCompletionOrder(order, |s.requirements.value|)
    ensures AutoGenerateUserStories(llm, s).value.userStories ==
            Some(JoinByIndex(Gather(llm, s.projectName.value, s.requirements.value), order))
  {
  }
}
