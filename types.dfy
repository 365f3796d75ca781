/** The records shared by the agents, the campaign page and the settings page (types.ts). */
module Types {
  import opened Wrappers
  import opened Js

  /** The lifecycle label of a campaign; its progress order is fixed by the stepper. */
  datatype CampaignStatus = Draft | Observe | Execute | Verify | Validate | Published | Completed

  datatype Priority = Low | Medium | High

  /** A unit of work handed to an agent: `type` is `taskType`, `context` a free-form record. */
  datatype AgentTask = AgentTask(taskType: string, context: map<string, Value>, priority: Option<Priority>)

  /** A keyword candidate as the keyword-research workflow returns it. */
  datatype Keyword = Keyword(term: string, difficulty: int, searchVolume: int)

  /** A keyword candidate with the SEO agent's computed `opportunityScore` added to it. */
  datatype ScoredKeyword = ScoredKeyword(term: string, difficulty: int, searchVolume: int, opportunityScore: real)

  /** The `data` an agent returns; its shape depends on the agent. */
  datatype AgentData =
    | Findings(competitors: seq<string>, trends: seq<string>, leadsFound: int, sources: seq<string>)
    | Copy(text: string)
    | RankedKeywords(keywords: seq<ScoredKeyword>)
    | Posts(posts: map<string, Option<string>>)

  datatype Metadata = Metadata(
    agent: string,
    executionTime: int,
    modelUsed: Option<string>,
    cost: Option<real>,
    toolsUsed: Option<seq<string>>)

  datatype AgentResult = AgentResult(success: bool, data: Option<AgentData>, error: Option<string>, metadata: Metadata)

  datatype Category = Intelligence | Seo | Social | Analytics | Design | Email

  datatype IntegrationStatus = Connected | Disconnected | Error

  datatype Integration = Integration(
    id: string,
    name: string,
    category: Category,
    description: string,
    pricing: string,
    status: IntegrationStatus,
    icon: string)
}
