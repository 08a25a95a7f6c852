/**
 * `chat_with_agent` up to the model call: the agent-type check and the
 * message assembled from the caller, the project and its current file.
 */
module Chat {
  import opened Wrappers
  import opened Http
  import opened Text
  import opened Projects
  import opened Agents

  /** The body of a chat request; `context` holds only its string-valued entries. */
  datatype ChatRequest = ChatRequest(
    agentType: string,
    message: string,
    projectId: Option<string>,
    context: Option<map<string, string>>)

  /** What is sent to the model: the agent's system prompt and the user message. */
  datatype ChatPrompt = ChatPrompt(systemMessage: string, text: string)

  const InvalidAgentType: HttpError := HttpError(400, "Invalid agent type")

  /** The line naming the project and its language. */
  function ProjectLine(p: Project): string {
    "Project: " + p.name + " (" + p.language + ")"
  }

  /** The block quoting the current file in a fenced code block. */
  function CurrentFileBlock(fileName: string, content: string): string {
    "Current file (" + fileName + "):\n```\n" + content + "\n```"
  }

  /** The project is consulted only for a non-empty `project_id`, and only when the lookup found it. */
  predicate ProjectShown(req: ChatRequest, found: Option<Project>) {
    req.projectId.Some? && req.projectId.value != "" && found.Some?
  }

  /** The current file is quoted only when the context names one and the project has it. */
  predicate FileShown(req: ChatRequest, p: Project) {
    && req.context.Some?
    && "current_file" in req.context.value
    && req.context.value["current_file"] != ""
    && req.context.value["current_file"] in p.files
  }

  /**
   * The context message written out in one piece: the user line, then the
   * project line when the project is shown, then the current-file block when
   * the file is shown, each on a line of its own.
   */
  function ContextMessage(userName: string, req: ChatRequest, found: Option<Project>): (s: string)
    ensures ("User: " + userName) <= s
    ensures !ProjectShown(req, found) ==> s == "User: " + userName
    ensures ProjectShown(req, found) && !FileShown(req, found.value) ==>
              s == "User: " + userName + "\n" + ProjectLine(found.value)
    ensures ProjectShown(req, found) && FileShown(req, found.value) ==>
              var fileName := req.context.value["current_file"];
              s == "User: " + userName + "\n" + ProjectLine(found.value) + "\n"
                   + CurrentFileBlock(fileName, found.value.files[fileName])
  {
    var userLine := "User: " + userName;
    if !ProjectShown(req, found) then userLine
    else
      var p := found.value;
      if !FileShown(req, p) then userLine + "\n" + ProjectLine(p)
      else
        var fileName := req.context.value["current_file"];
        userLine + "\n" + ProjectLine(p) + "\n" + CurrentFileBlock(fileName, p.files[fileName])
  }

  /**
   * `chat_with_agent` once the caller is known, up to the model call. `found`
   * is what the lookup by `project_id` returned. An unknown agent type is
   * refused with 400; otherwise the prompt carries that agent's system prompt
   * and the context message followed by the request.
   */
  method BuildChatPrompt(userName: string, req: ChatRequest, found: Option<Project>)
    returns (r: Result<ChatPrompt, HttpError>)
    ensures r.Err? <==> LookupAgent(req.agentType).None?
    ensures r.Err? ==> r.error == InvalidAgentType
    ensures r.Ok? ==>
              && r.value.systemMessage == LookupAgent(req.agentType).value.systemPrompt
              && r.value.text == ContextMessage(userName, req, found) + "\n\nRequest: " + req.message
  {
    var agent := LookupAgent(req.agentType);
    if agent.None? {
      return Err(InvalidAgentType);
    }
    var contextParts := ["User: " + userName];
    if req.projectId.Some? && req.projectId.value != "" {
      if found.Some? {
        var project := found.value;
        JoinAppend("\n", contextParts, ProjectLine(project));
        contextParts := contextParts + [ProjectLine(project)];
        if req.context.Some? && "current_file" in req.context.value && req.context.value["current_file"] != "" {
          var fileName := req.context.value["current_file"];
          if fileName in project.files {
            var block := CurrentFileBlock(fileName, project.files[fileName]);
            JoinAppend("\n", contextParts, block);
            contextParts := contextParts + [block];
          }
        }
      }
    }
    var contextMessage := Join("\n", contextParts);
    r := Ok(ChatPrompt(agent.value.systemPrompt, contextMessage + "\n\nRequest: " + req.message));
  }
}
