/**
 * The agent marketplace: the agent catalogue, its category and search
 * filter, the install button and the benefits preview.
 */
module Marketplace {
  import opened Text
  import opened Listing

  /** One agent; the rating is kept in tenths of a star. */
  datatype Agent = Agent(
    id: string,
    name: string,
    description: string,
    category: string,
    ratingTenths: nat,
    installs: nat,
    inputs: seq<string>,
    outputs: seq<string>,
    risks: seq<string>,
    benefits: seq<string>,
    cost: string,
    permissions: seq<string>,
    installed: bool)

  /** The catalogue the marketplace shows. */
  const Agents: seq<Agent> := [
    Agent("1", "Schema Mapper",
          "Automatically maps fields between different data sources using AI-powered pattern recognition",
          "integration", 48, 1247,
          ["Source schemas", "Sample data"], ["Field mappings", "Confidence scores"],
          ["May miss complex relationships", "Requires manual validation"],
          ["Reduces mapping time by 80%", "Identifies hidden relationships"],
          "Low", ["Read schema metadata", "Sample data access"], true),
    Agent("2", "Key Reconciler",
          "Identifies and reconciles primary and foreign keys across systems",
          "data-quality", 46, 892,
          ["Table schemas", "Data samples"], ["Key mappings", "Relationship graph"],
          ["May create false positives", "Performance impact on large datasets"],
          ["Improves data integrity", "Automates key discovery"],
          "Medium", ["Read table data", "Analyze relationships"], false),
    Agent("3", "Redundancy Checker",
          "Detects duplicate records and redundant data across sources",
          "data-quality", 49, 1504,
          ["Source tables", "Matching rules"], ["Duplicate reports", "Merge recommendations"],
          ["May flag legitimate variations", "Resource intensive"],
          ["Reduces storage costs", "Improves data quality"],
          "Medium", ["Full table access", "Create temporary tables"], false)
  ]

  // ---------------------------------------------------------------------------
  // The filter

  /** The predicate of `filteredAgents`: category, then name or description search. */
  predicate AgentMatches(agent: Agent, selectedCategory: string, searchTerm: string) {
    MatchesCategory(selectedCategory, agent.category)
    && MatchesSearch(agent.name, agent.description, searchTerm)
  }

  function KeepAgent(selectedCategory: string, searchTerm: string): Agent -> bool {
    agent => AgentMatches(agent, selectedCategory, searchTerm)
  }

  /** `filteredAgents`. */
  function FilteredAgents(agents: seq<Agent>, selectedCategory: string, searchTerm: string): seq<Agent> {
    Filter(agents, KeepAgent(selectedCategory, searchTerm))
  }

  /**
   * The filtered list keeps the catalogue's order, an agent is in it exactly
   * when it matches, and a matching agent appears as often as in the catalogue.
   */
  lemma FilteredAgentsSpec(agents: seq<Agent>, selectedCategory: string, searchTerm: string, agent: Agent)
    ensures SubsequenceOf(FilteredAgents(agents, selectedCategory, searchTerm), agents)
    ensures agent in FilteredAgents(agents, selectedCategory, searchTerm) <==>
              agent in agents && AgentMatches(agent, selectedCategory, searchTerm)
    ensures multiset(FilteredAgents(agents, selectedCategory, searchTerm))[agent] ==
              if AgentMatches(agent, selectedCategory, searchTerm) then multiset(agents)[agent] else 0
  {
    FilterMember(agents, KeepAgent(selectedCategory, searchTerm), agent);
  }

  /** Outside 'all', only agents of exactly the selected category can show. */
  lemma OtherCategoriesHidden(agents: seq<Agent>, selectedCategory: string, searchTerm: string, agent: Agent)
    requires selectedCategory != "all"
    requires agent in FilteredAgents(agents, selectedCategory, searchTerm)
    ensures agent.category == selectedCategory
  {
    FilterMember(agents, KeepAgent(selectedCategory, searchTerm), agent);
    CategoryExact(selectedCategory, agent.category);
  }

  /** With category 'all' and an empty search every agent shows. */
  lemma AllAndEmptySearchShowEverything(agents: seq<Agent>)
    ensures FilteredAgents(agents, "all", "") == agents
  {
    forall i | 0 <= i < |agents| ensures AgentMatches(agents[i], "all", "") {
      EmptySearchMatches(agents[i].name, agents[i].description);
    }
    FilterKeepsAll(agents, KeepAgent("all", ""));
  }

  /** The search term's letter case does not matter. */
  lemma SearchIgnoresCase(agents: seq<Agent>, selectedCategory: string, searchTerm: string)
    ensures FilteredAgents(agents, selectedCategory, Lower(searchTerm)) ==
            FilteredAgents(agents, selectedCategory, searchTerm)
  {
    forall i | 0 <= i < |agents|
      ensures KeepAgent(selectedCategory, Lower(searchTerm))(agents[i]) == KeepAgent(selectedCategory, searchTerm)(agents[i])
    {
      SearchIgnoresTermCase(agents[i].name, agents[i].description, searchTerm);
    }
    FilterAgree(agents, KeepAgent(selectedCategory, Lower(searchTerm)), KeepAgent(selectedCategory, searchTerm));
  }

  /** Filtering the filtered list again changes nothing. */
  lemma FilteredAgentsIdempotent(agents: seq<Agent>, selectedCategory: string, searchTerm: string)
    ensures var once := FilteredAgents(agents, selectedCategory, searchTerm);
      FilteredAgents(once, selectedCategory, searchTerm) == once
  {
    FilterIdempotent(agents, KeepAgent(selectedCategory, searchTerm));
  }

  // ---------------------------------------------------------------------------
  // Per-agent display

  /** The main button: 'Install' for an agent not yet installed, 'Configure' otherwise. */
  function InstallLabel(agent: Agent): (r: string)
    ensures r == "Install" <==> !agent.installed
    ensures r == "Configure" <==> agent.installed
  {
    if !agent.installed then "Install" else "Configure"
  }

  /** `benefits.slice(0, 2)`: the first two benefits, or all of them when there are fewer. */
  function ShownBenefits(agent: Agent): (r: seq<string>)
    ensures r <= agent.benefits
    ensures |r| == if |agent.benefits| < 2 then |agent.benefits| else 2
  {
    if |agent.benefits| < 2 then agent.benefits else agent.benefits[..2]
  }
}
