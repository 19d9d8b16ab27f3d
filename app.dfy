/** The request handlers: each drives the graph over a checkpoint store keyed by task id. */
module App {
  import opened Wrappers
  import opened SdlcState
  import opened Generation
  import SdlcNode
  import GraphBuilder

  const TaskPrefix: string := "sdlc-task-"

  predicate IsLowerHex(c: char) {
    ('0' <= c <= '9') || ('a' <= c <= 'f')
  }

  /** The first 8 characters of a random UUID's hex form. */
  predicate IsHexSuffix(h: string) {
    |h| == 8 && forall i :: 0 <= i < |h| ==> IsLowerHex(h[i])
  }

  predicate IsTaskId(id: string) {
    |id| == 18 && id[..10] == TaskPrefix && IsHexSuffix(id[10..])
  }

  /** A new task id: the fixed prefix followed by the hex suffix. */
  function TaskId(suffix: string): (id: string)
    requires IsHexSuffix(suffix)
    ensures IsTaskId(id)
    ensures id[10..] == suffix
  {
    TaskPrefix + suffix
  }

  /** Every well-formed id is the id of exactly one suffix. */
  lemma TaskIdBijective(id: string, h1: string, h2: string)
    ensures IsTaskId(id) ==> TaskId(id[10..]) == id
    ensures IsHexSuffix(h1) && IsHexSuffix(h2) && TaskId(h1) == TaskId(h2) ==> h1 == h2
  {
    if IsTaskId(id) {
      assert id == id[..10] + id[10..];
    }
  }

  /** The response of the start handler. */
  datatype StartResponse = StartResponse(
    taskId: string, status: string, nextRequiredInput: string, progress: int, currentNode: string)

  /** `{"task_id": ..., "data": state}`, or `{"task_id": ...}` alone when `data` is `None`. */
  datatype Reply = Reply(taskId: string, data: Option<SDLCState>)

  /** Python truthiness of a loaded dictionary. */
  predicate Truthy(saved: SDLCState) {
    saved != NoFields
  }

  /** The requirements handler's patch: `saved_state['requirements'] =
      requirements` on a non-empty loaded state, with `[]` when the body has no
      `requirements`; nothing else changes. */
  function WithRequirements(saved: SDLCState, requirements: Option<seq<string>>): (r: SDLCState)
    ensures Truthy(saved) ==> r.requirements == Some(requirements.GetOr([]))
    ensures !Truthy(saved) ==> r == saved
    ensures r.(requirements := saved.requirements) == saved
    ensures Covers(r, saved)
  {
    if Truthy(saved) then saved.(requirements := Some(requirements.GetOr([]))) else saved
  }

  /** The review handler's patch: `product_decision` and `feedback_reason`
      set from the body, each `""` when absent; nothing else changes. */
  function WithDecision(saved: SDLCState, decision: Option<string>, reason: Option<string>): (r: SDLCState)
    ensures r.productDecision == Some(decision.GetOr(""))
    ensures r.feedbackReason == Some(reason.GetOr(""))
    ensures r.(productDecision := saved.productDecision, feedbackReason := saved.feedbackReason) == saved
    ensures Covers(r, saved)
  {
    saved.(productDecision := Some(decision.GetOr("")), feedbackReason := Some(reason.GetOr("")))
  }

  /** The service: the compiled graph's generator and the checkpoint store. */
  class Service {
    var store: map<string, SDLCState>
    const llm: Llm

    constructor (llm: Llm)
      ensures store == map[] && this.llm == llm
    {
      store := map[];
      this.llm := llm;
    }

    /** Clears the checkpoints of every task. */
    method FlushAll()
      modifies this`store
      ensures store == map[]
    {
      store := map[];
    }

    /** Stores `s` as the checkpoint of `taskId`, replacing any earlier one. */
    method Save(taskId: string, s: SDLCState)
      modifies this`store
      ensures store == old(store)[taskId := s]
    {
      store := store[taskId := s];
    }

    method Load(taskId: string) returns (r: Option<SDLCState>)
      ensures r == if taskId in store then Some(store[taskId]) else None
    {
      r := if taskId in store then Some(store[taskId]) else None;
    }

    /** `start_workflow`: flush every checkpoint, make a task id, run to the
        first interrupt, save the state, and answer with four of its keys. */
    method StartWorkflow(projectName: string, hex: string) returns (response: StartResponse)
      requires IsHexSuffix(hex)
      modifies this`store
      ensures store.Keys == {TaskId(hex)}
      ensures store[TaskId(hex)] == GraphBuilder.StartRun(llm, Input(projectName)).state
      ensures store[TaskId(hex)] == SdlcNode.Initialized(Input(projectName))
      ensures response.taskId == TaskId(hex)
      ensures Some(response.status) == store[TaskId(hex)].status
      ensures Some(response.nextRequiredInput) == store[TaskId(hex)].nextRequiredInput
      ensures Some(response.progress) == store[TaskId(hex)].progress
      ensures Some(response.currentNode) == store[TaskId(hex)].currentNode
    {
      FlushAll();
      var taskId := TaskId(hex);
      var o := GraphBuilder.Invoke(llm, Input(projectName));
      GraphBuilder.FreshRunSuspendsAtRequirements(llm, Input(projectName));
      Save(taskId, o.state);
      var state := o.state;
      response := StartResponse(taskId, state.status.value, state.nextRequiredInput.value,
                                state.progress.value, state.currentNode.value);
    }

    /** `get_project_requirements`: patch the loaded state's requirements,
        apply it as `get_requirements`, resume, and save what the run reached
        under the same id. A failing run saves nothing. */
    method SubmitRequirements(taskId: string, requirements: Option<seq<string>>) returns (r: Result<Reply, Error>)
      requires taskId in store
      modifies this`store
      ensures var saved := old(store[taskId]);
              var o := GraphBuilder.ResumeRun(llm, saved, GraphBuilder.GetRequirements,
                                              WithRequirements(saved, requirements));
              && (o.Failed? ==> r == Err(o.error) && store == old(store))
              && (!o.Failed? ==> r == Ok(Reply(taskId, Some(o.state))) && store == old(store)[taskId := o.state])
      ensures r.Ok? ==> GraphBuilder.ResumeRun(llm, old(store[taskId]), GraphBuilder.GetRequirements,
                                               WithRequirements(old(store[taskId]), requirements))
                        .Suspended?
    {
      var loaded := Load(taskId);
      var saved := loaded.value;
      var update := WithRequirements(saved, requirements);
      var o := GraphBuilder.ResumeAs(llm, saved, GraphBuilder.GetRequirements, update);
      GraphBuilder.ResumeAfterRequirements(llm, saved, update);
      if o.Failed? {
        return Err(o.error);
      }
      Save(taskId, o.state);
      r := Ok(Reply(taskId, Some(o.state)));
    }

    /** `product_owner_review`: with a stored state, set the decision and the
        reason, apply them as `product_owner_review_decision`, resume and save;
        with none, answer with the task id only and touch nothing. */
    method ProductOwnerReview(taskId: string, decision: Option<string>, reason: Option<string>)
      returns (r: Result<Reply, Error>)
      modifies this`store
      ensures !(taskId in old(store) && Truthy(old(store[taskId]))) ==>
                r == Ok(Reply(taskId, None)) && store == old(store)
      ensures taskId in old(store) && Truthy(old(store[taskId])) ==>
              var saved := old(store[taskId]);
              var o := GraphBuilder.ResumeRun(llm, saved, GraphBuilder.ProductOwnerReviewDecision,
                                              WithDecision(saved, decision, reason));
              && (o.Failed? ==> r == Err(o.error) && store == old(store))
              && (!o.Failed? ==> r == Ok(Reply(taskId, Some(o.state))) && store == old(store)[taskId := o.state])
    {
      var loaded := Load(taskId);
      if loaded.None? || !Truthy(loaded.value) {
        return Ok(Reply(taskId, None));
      }
      var saved := loaded.value;
      var update := WithDecision(saved, decision, reason);
      var o := GraphBuilder.ResumeAs(llm, saved, GraphBuilder.ProductOwnerReviewDecision, update);
      if o.Failed? {
        return Err(o.error);
      }
      Save(taskId, o.state);
      r := Ok(Reply(taskId, Some(o.state)));
    }
  }

  /** Starting a second task wipes the first task's checkpoint: a later review
      of the first task finds nothing and answers with its id only. */
  method StartingAnotherTaskForgetsTheFirst(llm: Llm, first: string, second: string)
    returns (review: Result<Reply, Error>)
    requires IsHexSuffix(first) && IsHexSuffix(second) && first != second
    ensures review == Ok(Reply(TaskId(first), None))
  {
    var service := new Service(llm);
    var started := service.StartWorkflow("first", first);
    started := service.StartWorkflow("second", second);
    TaskIdBijective(TaskId(first), first, second);
    review := service.ProductOwnerReview(TaskId(first), Some("approved"), None);
  }

  /** The whole approval path: start, submit requirements, approve. The task
      ends with a design document and the stored state is the final one. */
  method ApprovedWalkthrough(llm: Llm, hex: string, projectName: string, requirements: seq<string>)
    returns (outcome: Result<Reply, Error>)
    requires IsHexSuffix(hex)
    ensures outcome.Ok? && outcome.value.data.Some?
    ensures outcome.value.data.value.designDocuments.Some?
    ensures outcome.value.data.value.requirements == Some(requirements)
    ensures outcome.value.data.value.productDecision == Some("approved")
    ensures outcome.value.data.value.userStories.Some?
    ensures |outcome.value.data.value.userStories.value| == |requirements|
  {
    var service := new Service(llm);
    var started := service.StartWorkflow(projectName, hex);
    var id := TaskId(hex);
    var submitted := service.SubmitRequirements(id, Some(requirements));
    var s0 := SdlcNode.Initialized(Input(projectName));
    var s1 := WithRequirements(s0, Some(requirements));
    MergeCovering(s0, s1);
    assert submitted.Ok?;
    var s2 := service.store[id];
    assert s2 == Merge(s1, SdlcNode.AutoGenerateUserStories(llm, s1).value);
    var s3 := WithDecision(s2, Some("approved"), None);
    MergeCovering(s2, s3);
    GraphBuilder.ApprovedCompletes(llm, s2, s3);
    outcome := service.ProductOwnerReview(id, Some("approved"), None);
  }
}
