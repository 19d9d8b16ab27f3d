/** The text-generation service, as two uninterpreted functions. */
module Generation {
  import opened SdlcState

  /** `userStory(projectName, requirement, index)` is the structured story the
      service returns for one requirement; `functionalDesign(projectName,
      formattedRequirements, formattedStories)` is the functional design text
      returned for the prompt built from those three strings. */
  datatype Llm = Llm(
    userStory: (string, string, int) -> UserStory,
    functionalDesign: (string, string, string) -> string)
}
