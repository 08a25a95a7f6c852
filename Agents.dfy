/**
 * The agent catalogue: the `AGENTS` table, the public list `list_agents`
 * returns, and the lookup `chat_with_agent` validates an agent type with.
 */
module Agents {
  import opened Wrappers

  /** One `AGENTS` entry, without its key. */
  datatype AgentConfig = AgentConfig(
    name: string,
    icon: string,
    color: string,
    description: string,
    systemPrompt: string)

  /** The `AGENTS` table as (key, entry) pairs, in the table's order. */
  const AgentTable: seq<(string, AgentConfig)> := [
    ("design", AgentConfig(
      "Design Agent", "Palette", "#8B5CF6",
      "UI/UX design and visual architecture",
      "You are a senior UI/UX designer. Help users design beautiful, functional interfaces. Provide specific CSS, color schemes, layout suggestions, and component structures. Focus on modern design principles, accessibility, and user experience.")),
    ("code", AgentConfig(
      "Code Agent", "Code2", "#06B6D4",
      "Code generation and implementation",
      "You are an expert software developer. Write clean, efficient, well-documented code. Support all major languages (Python, JavaScript, TypeScript, Java, C#, Go, Rust, etc.). Follow best practices, design patterns, and provide complete, working implementations.")),
    ("test", AgentConfig(
      "Test Agent", "TestTube2", "#10B981",
      "Test creation and quality assurance",
      "You are a QA expert. Create comprehensive test suites including unit tests, integration tests, and e2e tests. Use appropriate testing frameworks (pytest, jest, junit, etc.). Ensure high code coverage and test edge cases.")),
    ("debug", AgentConfig(
      "Debug Agent", "Bug", "#F59E0B",
      "Error analysis and bug fixing",
      "You are a debugging expert. Analyze code errors, stack traces, and logs. Identify root causes and provide precise fixes. Explain the debugging process and suggest preventive measures.")),
    ("review", AgentConfig(
      "Review Agent", "GitPullRequest", "#EC4899",
      "Code review and quality checks",
      "You are a code reviewer. Analyze code for quality, maintainability, performance, and security issues. Provide constructive feedback with specific suggestions for improvement. Follow industry standards and best practices.")),
    ("architect", AgentConfig(
      "Architect Agent", "Building2", "#6366F1",
      "System design and architecture",
      "You are a software architect. Design scalable, maintainable system architectures. Create diagrams (describe in text/mermaid), define APIs, choose appropriate technologies, and plan database schemas. Consider performance, security, and scalability.")),
    ("security", AgentConfig(
      "Security Agent", "Shield", "#EF4444",
      "Security analysis and vulnerability detection",
      "You are a security expert. Identify vulnerabilities (OWASP Top 10, CVEs), suggest secure coding practices, audit authentication/authorization, and recommend security improvements. Perform threat modeling and security reviews.")),
    ("performance", AgentConfig(
      "Performance Agent", "Gauge", "#F97316",
      "Performance optimization",
      "You are a performance engineer. Analyze and optimize code performance. Identify bottlenecks, suggest caching strategies, optimize algorithms, database queries, and network calls. Provide benchmarking approaches.")),
    ("docs", AgentConfig(
      "Documentation Agent", "FileText", "#14B8A6",
      "Documentation generation",
      "You are a technical writer. Create clear, comprehensive documentation including API docs, README files, code comments, and user guides. Use proper formatting (Markdown, JSDoc, docstrings). Make documentation accessible and maintainable.")),
    ("refactor", AgentConfig(
      "Refactor Agent", "RefreshCw", "#8B5CF6",
      "Code refactoring and cleanup",
      "You are a refactoring expert. Improve code structure without changing behavior. Apply design patterns, reduce complexity, improve naming, eliminate duplication. Ensure backward compatibility and maintainability.")),
    ("deploy", AgentConfig(
      "Deploy Agent", "Rocket", "#06B6D4",
      "Deployment and CI/CD",
      "You are a DevOps engineer. Create deployment configurations (Docker, Kubernetes, cloud services). Set up CI/CD pipelines (GitHub Actions, Jenkins, GitLab CI). Handle environment configuration and secrets management.")),
    ("api", AgentConfig(
      "API Agent", "Webhook", "#10B981",
      "API design and integration",
      "You are an API specialist. Design RESTful and GraphQL APIs. Create OpenAPI/Swagger specifications. Handle authentication, rate limiting, versioning. Integrate third-party APIs and create API clients.")),
    ("database", AgentConfig(
      "Database Agent", "Database", "#F59E0B",
      "Database design and optimization",
      "You are a database expert. Design schemas for SQL and NoSQL databases. Write optimized queries, create migrations, handle indexing. Support PostgreSQL, MySQL, MongoDB, Redis. Ensure data integrity and performance.")),
    ("devops", AgentConfig(
      "DevOps Agent", "Container", "#EC4899",
      "Infrastructure and operations",
      "You are a DevOps specialist. Configure infrastructure (AWS, GCP, Azure), set up monitoring and logging, manage containers and orchestration. Handle scaling, disaster recovery, and cost optimization.")),
    ("ux", AgentConfig(
      "UX Agent", "Users", "#6366F1",
      "User experience optimization",
      "You are a UX specialist. Improve user flows, accessibility, and interaction design. Create wireframes (describe in text), user journeys, and personas. Apply usability heuristics and conduct UX audits."))
  ]

  /** What `list_agents` publishes of an agent: no system prompt. */
  datatype AgentSummary = AgentSummary(
    id: string,
    name: string,
    icon: string,
    color: string,
    description: string)

  /** The entry stored under `id` in a keyed table, if any. */
  function Lookup(table: seq<(string, AgentConfig)>, id: string): (r: Option<AgentConfig>)
    ensures r.None? <==> forall i :: 0 <= i < |table| ==> table[i].0 != id
    ensures r.Some? ==> exists i :: 0 <= i < |table| && table[i] == (id, r.value)
    decreases |table|
  {
    if |table| == 0 then None
    else if table[0].0 == id then Some(table[0].1)
    else Lookup(table[1..], id)
  }

  /** `AGENTS[agent_type]` after the `agent_type not in AGENTS` test: none when the type is absent. */
  function LookupAgent(agentType: string): (r: Option<AgentConfig>)
    ensures r.Some? <==> exists i :: 0 <= i < |AgentTable| && AgentTable[i].0 == agentType
    ensures r.Some? ==> exists i :: 0 <= i < |AgentTable| && AgentTable[i] == (agentType, r.value)
  {
    Lookup(AgentTable, agentType)
  }

  /** `list_agents`: one summary per table entry, in table order. */
  function ListAgents(): (r: seq<AgentSummary>)
    ensures |r| == |AgentTable|
    ensures forall i :: 0 <= i < |r| ==> r[i].id == AgentTable[i].0 && r[i].name == AgentTable[i].1.name
  {
    seq(|AgentTable|, i requires 0 <= i < |AgentTable| =>
      AgentSummary(AgentTable[i].0, AgentTable[i].1.name, AgentTable[i].1.icon, AgentTable[i].1.color, AgentTable[i].1.description))
  }

  /** No two entries of a keyed table share a key. */
  predicate DistinctKeys(table: seq<(string, AgentConfig)>) {
    forall i, j :: 0 <= i < j < |table| ==> table[i].0 != table[j].0
  }

  /** The keys of `AGENTS` are distinct, as the keys of a dictionary are. */
  lemma AgentIdsDistinct()
    ensures DistinctKeys(AgentTable)
  {
  }

  /** In a table with distinct keys, looking up the key of entry `i` finds entry `i`. */
  lemma {:induction false} LookupFindsEntry(table: seq<(string, AgentConfig)>, i: nat)
    requires DistinctKeys(table)
    requires i < |table|
    ensures Lookup(table, table[i].0) == Some(table[i].1)
    decreases |table|
  {
    if i > 0 {
      assert table[0].0 != table[i].0;
      assert table[1..][i - 1] == table[i];
      LookupFindsEntry(table[1..], i - 1);
    }
  }

  /** The list has one entry per agent: fifteen, as the API test expects. */
  lemma AgentCount()
    ensures |ListAgents()| == |AgentTable| == 15
  {
  }

  /**
   * The list advertises exactly the agent types the chat handler accepts:
   * a type is listed if and only if the lookup finds it.
   */
  lemma ListedAgentsAreChatAgents(agentType: string)
    ensures (exists i :: 0 <= i < |ListAgents()| && ListAgents()[i].id == agentType)
            <==> LookupAgent(agentType).Some?
  {
    if LookupAgent(agentType).Some? {
      var i :| 0 <= i < |AgentTable| && AgentTable[i] == (agentType, LookupAgent(agentType).value);
      assert ListAgents()[i].id == agentType;
    }
  }

  /**
   * Entry `i` of the list is entry `i` of the table without its system prompt:
   * the chat handler, looking up the listed id, gets the agent whose name,
   * icon, colour and description were listed.
   */
  lemma ListedAgentMatchesTable(i: nat)
    requires i < |ListAgents()|
    ensures var summary := ListAgents()[i];
            var agent := LookupAgent(summary.id);
            && summary.id == AgentTable[i].0
            && agent == Some(AgentTable[i].1)
            && summary.name == agent.value.name
            && summary.icon == agent.value.icon
            && summary.color == agent.value.color
            && summary.description == agent.value.description
  {
    AgentIdsDistinct();
    LookupFindsEntry(AgentTable, i);
  }
}
