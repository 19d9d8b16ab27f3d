/** The workflow state record and the user-story record. */
module SdlcState {
  import opened Wrappers

  /** A generated user story: four required fields, no defaults. */
  datatype UserStory = UserStory(id: int, title: string, description: string, status: string)

  /** The design document attached by the design step; only `functional` is written. */
  datatype DesignDocument = DesignDocument(functional: string)

  /** The workflow state dictionary. Each field is a key that may be absent
      (`None`); the first three are the declared keys, the others are keys that
      the nodes and the request handlers write. The same record, read as the
      set of keys it sets, is a node's partial update. */
  datatype SDLCState = SDLCState(
    projectName: Option<string>,
    requirements: Option<seq<string>>,
    userStories: Option<seq<UserStory>>,
    progress: Option<int>,
    status: Option<string>,
    nextRequiredInput: Option<string>,
    currentNode: Option<string>,
    productDecision: Option<string>,
    feedbackReason: Option<string>,
    designDocuments: Option<DesignDocument>)

  /** The empty dictionary: no key set (also the update of a node that returns nothing). */
  const NoFields: SDLCState :=
    SDLCState(None, None, None, None, None, None, None, None, None, None)

  /** The initial input of a run: `{'project_name': name}`. */
  function Input(projectName: string): (s: SDLCState)
    ensures s.projectName == Some(projectName)
    ensures s.(projectName := None) == NoFields
  {
    NoFields.(projectName := Some(projectName))
  }

  /** The errors a run can raise: a missing dictionary key, or a router
      label outside the routing table. */
  datatype Error = MissingKey(key: string) | UnknownLabel(returned: string)

  function Override<T>(current: Option<T>, written: Option<T>): Option<T> {
    if written.Some? then written else current
  }

  /** Applying a node's partial update: every key the update sets replaces the
      stored value, every other key keeps it (the state declares no reducers). */
  function Merge(s: SDLCState, u: SDLCState): (r: SDLCState)
    ensures Agrees(r, u)
    ensures KeepsUnset(r, s, u)
    ensures Covers(r, s) && Covers(r, u)
  {
    SDLCState(
      Override(s.projectName, u.projectName),
      Override(s.requirements, u.requirements),
      Override(s.userStories, u.userStories),
      Override(s.progress, u.progress),
      Override(s.status, u.status),
      Override(s.nextRequiredInput, u.nextRequiredInput),
      Override(s.currentNode, u.currentNode),
      Override(s.productDecision, u.productDecision),
      Override(s.feedbackReason, u.feedbackReason),
      Override(s.designDocuments, u.designDocuments))
  }

  /** `u` sets every key that `s` has, as a node does that returns the whole
      (possibly modified) state. */
  predicate Covers(u: SDLCState, s: SDLCState) {
    && (s.projectName.Some? ==> u.projectName.Some?)
    && (s.requirements.Some? ==> u.requirements.Some?)
    && (s.userStories.Some? ==> u.userStories.Some?)
    && (s.progress.Some? ==> u.progress.Some?)
    && (s.status.Some? ==> u.status.Some?)
    && (s.nextRequiredInput.Some? ==> u.nextRequiredInput.Some?)
    && (s.currentNode.Some? ==> u.currentNode.Some?)
    && (s.productDecision.Some? ==> u.productDecision.Some?)
    && (s.feedbackReason.Some? ==> u.feedbackReason.Some?)
    && (s.designDocuments.Some? ==> u.designDocuments.Some?)
  }

  /** Every key that `u` sets has `u`'s value in `r`. */
  predicate Agrees(r: SDLCState, u: SDLCState) {
    && (u.projectName.Some? ==> r.projectName == u.projectName)
    && (u.requirements.Some? ==> r.requirements == u.requirements)
    && (u.userStories.Some? ==> r.userStories == u.userStories)
    && (u.progress.Some? ==> r.progress == u.progress)
    && (u.status.Some? ==> r.status == u.status)
    && (u.nextRequiredInput.Some? ==> r.nextRequiredInput == u.nextRequiredInput)
    && (u.currentNode.Some? ==> r.currentNode == u.currentNode)
    && (u.productDecision.Some? ==> r.productDecision == u.productDecision)
    && (u.feedbackReason.Some? ==> r.feedbackReason == u.feedbackReason)
    && (u.designDocuments.Some? ==> r.designDocuments == u.designDocuments)
  }

  /** Every key that `u` leaves unset has in `r` the value it has in `s`. */
  predicate KeepsUnset(r: SDLCState, s: SDLCState, u: SDLCState) {
    && (u.projectName.None? ==> r.projectName == s.projectName)
    && (u.requirements.None? ==> r.requirements == s.requirements)
    && (u.userStories.None? ==> r.userStories == s.userStories)
    && (u.progress.None? ==> r.progress == s.progress)
    && (u.status.None? ==> r.status == s.status)
    && (u.nextRequiredInput.None? ==> r.nextRequiredInput == s.nextRequiredInput)
    && (u.currentNode.None? ==> r.currentNode == s.currentNode)
    && (u.productDecision.None? ==> r.productDecision == s.productDecision)
    && (u.feedbackReason.None? ==> r.feedbackReason == s.feedbackReason)
    && (u.designDocuments.None? ==> r.designDocuments == s.designDocuments)
  }

  /** Two updates applied one after the other are one update in which the
      later one's keys win. */
  lemma MergeAssociative(s: SDLCState, u: SDLCState, v: SDLCState)
    ensures Merge(Merge(s, u), v) == Merge(s, Merge(u, v))
  {
  }

  /** Merging an update that sets every stored key yields the update itself;
      merging nothing keeps the state. */
  lemma MergeCovering(s: SDLCState, u: SDLCState)
    ensures Covers(u, s) ==> Merge(s, u) == u
    ensures Merge(s, NoFields) == s
  {
  }
}
