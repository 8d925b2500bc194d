/** The plain records the core passes around. */
module Records {
  import opened Base

  /**
   * A skill as the loader builds it from the frontmatter of its SKILL.md:
   * name, description, the short names of the tools it may use, and the
   * location of the file (its body, the system prompt, is loaded on demand).
   */
  datatype SkillDefinition = SkillDefinition(
    name: string,
    description: string,
    allowedTools: seq<string>,
    location: string)

  /** One (skill, sub-task) unit of work found in a user message. */
  datatype SkillIntent = SkillIntent(skillName: string, subTask: string)

  /** A live tool callback, as far as the core looks at its definition. */
  datatype Tool = Tool(name: string, description: string, inputSchema: Option<string>)

  /** An executed plan step and the text it produced. */
  datatype StepResult = StepResult(step: string, result: string)

  /** The non-streaming answer of a skill run: who answered, and what. */
  datatype SkillResponse = SkillResponse(skillName: string, content: string)
}
