# Neural Bridge backend: the decision rules of `server.py`

Neural Bridge is an AI-assisted coding workspace. Its backend (`backend/server.py`) is a FastAPI
service over MongoDB, JWT, bcrypt, a language-model client and a subprocess sandbox. Almost all of
it is I/O glue, but a few deterministic rules sit inside the handlers. This project models those
rules in Dafny and proves what they promise. Whatever a handler gets from the outside is a plain
input here: the stored project (`Option<Project>`), the result of the chat handler's project
lookup, and the way the code run ended (`RunOutcome`).

Modules, one per concern of the source:

- `Wrappers`, `Http`: `Option`, `Result` and the `HTTPException` status/detail pair.
- `Text`: Python's `sep.join(parts)` and `s.split(c)` with an explicit separator. The split keeps
  empty fields, and proofs show it loses nothing.
- `Auth`: the `authorization` test of `get_current_user` and how the bearer token is pulled out.
- `Languages`: the starter-file table of `create_project`, `get_file_extension`, and the list of
  languages `execute_code` runs.
- `Projects`: the document `create_project` inserts, and the partial-update merge of
  `update_project`. The merge is a method that fills the `$set` document by conditional
  assignments, as the handler does. It is proved equal to a field-by-field reference (`Merged`).
  Lemmas show that no series of updates empties the files, clears the name, or changes id, owner,
  language, framework or creation time.
- `Agents`: the `AGENTS` table in its order, the `list_agents` projection, and the lookup the chat
  handler uses.
- `Chat`: the agent-type check and the context message of `chat_with_agent`. The method appends
  to `context_parts` and joins them with `"\n"`. It is proved equal to the message written out in
  one piece (`ContextMessage`).
- `Execution`: the language gate, the runner choice and the `{output, error}` composition of
  `execute_code`.

Notes on the code as written (observations about the surrounding handlers, outside the proofs):

- The handlers declare `authorization: str = None`. FastAPI reads a parameter declared this way as a query
  parameter, not as the `Authorization` header. `Auth.BearerToken` takes the value whatever its
  origin.
- `chat_with_agent` looks the project up by `project_id` alone. It does not check the owner, so
  the context can quote another user's project. `Chat.BuildChatPrompt` takes that lookup's result
  as given.
- TypeScript is handed to `node` unchanged (`Execution.RunnerFor`).

## Model

| member | source | states |
|---|---|---|
| `Auth.BearerToken` | backend/server.py:232-235 | A missing value, or one not starting with `"Bearer "`, is refused with 401 "Not authenticated", and only those are refused. An accepted value's token is the longest space-free text after `"Bearer "`: it ends at the next space or at the end. |
| `Auth.BearerTokenRoundTrip` | backend/server.py:233-235 | A space-free token after `"Bearer "` is read back exactly, whether the value ends there or continues after a space (`"Bearer abc def"` gives `"abc"`). |
| `Text.Split` | backend/server.py:235 | `split(" ")` yields at least one field. No field contains the separator. The first field is the prefix before the first separator. |
| `Text.JoinSplit` | backend/server.py:235 | Joining the split fields with the separator gives back the original string, so the split drops nothing. |
| `Text.Join` | backend/server.py:432 | Python's `sep.join(parts)`: the empty list joins to `""`, one part to itself, and a longer list starts with its first part followed by `sep` (used for `"\n".join` at line 432 and `", ".join` at line 487). |
| `Text.JoinAppend` | backend/server.py:422-432 | Appending a part to a non-empty list and joining adds the separator and that part to the end of the joined string. |
| `Languages.DefaultFiles` | backend/server.py:310-326 | A new project gets exactly one file, and its name carries the extension `get_file_extension` gives the language. An unknown language gets exactly `{"main.txt": "# Neural Bridge Project\n"}`. |
| `Languages.StarterFilesCarryExtension` | backend/server.py:311-317 | Each entry of the starter table is one file named with its language's own extension. |
| `Languages.StarterFileNames` | backend/server.py:311-317 | python, javascript, typescript, java, csharp and go start with main.py, index.js, index.ts, Main.java, Program.cs and main.go, each with its hello-world text. |
| `Languages.FileExtension` | backend/server.py:524-533 | The extension is a dot and at least one character. It is `".txt"` exactly for the languages the table does not know. |
| `Languages.KnownExtensions` | backend/server.py:524-533 | python, javascript, typescript, java, csharp and go get `.py`, `.js`, `.ts`, `.java`, `.cs` and `.go`. |
| `Languages.LanguageTablesAgree` | backend/server.py:311-533 | The extension table and the starter-file table know the same six languages. |
| `Languages.SupportedLanguagesAreKnown` | backend/server.py:485-490 | Every language the execution handler runs has a starter file and an extension of its own, so the temporary file never gets `".txt"`. |
| `Projects.CreateProject` | backend/server.py:320-330 | The inserted document has the caller as owner, the same instant as creation and update time, the request's fields, and exactly one starter file (never an empty file map). |
| `Projects.ApplySet` | backend/server.py:380 | The store's `$set`: each field the update document carries (always the update time; name, description and files when present) is overwritten with its value, and the others are kept. |
| `Projects.Merged` | backend/server.py:372-378 | The reference merge, field by field: update time `now`; name only if supplied and non-empty; description whenever supplied; files only if supplied and non-empty; every other field kept. So it never empties non-empty files or clears a non-empty name, and id, owner, language, framework and creation time stay. |
| `Projects.UpdateProject` | backend/server.py:363-383 | No stored project: 404 "Project not found" and nothing is written. Otherwise the `$set` document always carries `updated_at`. It carries the name only if it is supplied and non-empty, the description whenever it is supplied, and the files only if they are supplied and non-empty, each with the request's own value. The result is the stored project with that document applied, which equals the reference merge `Merged`. |
| `Projects.UpdatesPreserveProject` | backend/server.py:372-380 | After any series of updates, non-empty files stay non-empty and a non-empty name stays non-empty. Id, owner, language, framework and creation time never change. |
| `Projects.CreatedProjectsKeepFiles` | backend/server.py:326-380 | A project that was created and then only updated always has at least one file. |
| `Projects.DescriptionCanBeCleared` | backend/server.py:373-378 | `""` is applied as a description, but `""` as a name and `{}` as files leave the old values. |
| `Projects.MergeIdempotent` | backend/server.py:372-380 | Handling the same update twice at the same instant gives the same project as handling it once. |
| `Agents.Lookup` | backend/server.py:416-419 | The lookup fails exactly when no table entry has the key. When it succeeds, it returns an entry stored under that key. |
| `Agents.LookupAgent` | backend/server.py:416-419 | `AGENTS[agent_type]` after the membership test: the `AGENTS` entry stored under the type, or none. |
| `Agents.ListAgents` | backend/server.py:398-409 | The `list_agents` comprehension: one summary (id, name, icon, colour, description) per `AGENTS` entry, in table order. |
| `Agents.AgentIdsDistinct` | backend/server.py:109-215 | The fifteen `AGENTS` keys are pairwise distinct, as dictionary keys are. |
| `Agents.LookupFindsEntry` | backend/server.py:416-419 | With distinct keys, looking up the key of entry `i` returns entry `i`. |
| `Agents.AgentCount` | backend_test.py:70 | `list_agents` returns one entry per agent, fifteen in all. |
| `Agents.ListedAgentsAreChatAgents` | backend/server.py:398-417 | An agent type appears in the public list if and only if the chat handler accepts it. |
| `Agents.ListedAgentMatchesTable` | backend/server.py:398-409 | Entry `i` of the list is table entry `i` in table order: same id, name, icon, colour and description. The summary type has no system-prompt field. |
| `Chat.ContextMessage` | backend/server.py:421-432 | The context always starts with `"User: <name>"`. It is only that line when no project is shown (empty `project_id`, or project not found). When the project is shown, the project line follows on a new line. The current-file block follows on a further line exactly when the context names a non-empty file that is a key of the project's files. |
| `Chat.BuildChatPrompt` | backend/server.py:411-433 | An agent type not in `AGENTS` (and only such a type) is refused with 400 "Invalid agent type". Otherwise the system message is that agent's prompt. The text is the context message plus `"\n\nRequest: "` plus the request's message. The project line appears only when the project is found for a non-empty `project_id`. The current-file block appears only when the context names a file the project has. |
| `Execution.UnsupportedMessage` | backend/server.py:485-487 | The refusal names the language and lists `python, javascript, typescript`. |
| `Execution.RunnerFor` | backend/server.py:494-509 | Something runs exactly for the supported languages. The Python interpreter runs exactly for `"python"`; JavaScript and TypeScript run under node. |
| `Execution.Shown` | backend/server.py:513-517 | The output is never empty. It starts with the standard output, is exactly the standard output, a newline and the standard error when there is any error text (prefix, suffix and length all fixed), and is the no-output message exactly when both streams are empty (or the program printed that message itself). `error` holds exactly when the return code is not 0. |
| `Execution.ExecuteCode` | backend/server.py:480-522 | An unsupported language gets the refusal with `error = true` and nothing is started. Otherwise the runner is chosen (the Python interpreter for python, node for javascript and typescript). A timeout reports the 10-second message; any other failure, including one while writing the temporary file before the runner starts, reports its own message, both with `error = true`. A process that finished and whose temporary file was removed is reported as `Shown` composes it; a failure of that removal is a raised error like the others. |

## Left out

- Token decoding, the user lookup, and the "Token expired", "Invalid token" and "User not found" errors of `get_current_user`: JWT decoding and the database are foreign calls. Only the header test is modelled.
- `register`, `login`, `get_me`: bcrypt hashing, JWT signing, floating-point expiry time and database access. Their only rules are refusals based on those calls' results: 400 "Email already registered" when the e-mail is found (backend/server.py:252-253), and 401 "Invalid credentials" for a missing user or a wrong password (276-277).
- `list_projects`, `get_project`, `delete_project`, `get_chat_history`: database queries (filter, sort, limit). Their only rules are the 404 "Project not found" when `get_project` finds nothing or `delete_project` deletes nothing (358-359, 391-392), and the history query's `project_id` and `agent_type` filters, added only when those values are truthy (469-472).
- The model call in `chat_with_agent`, the chat-history insert, the `{response, agent}` reply and the 500 raised when either fails: a foreign network call whose result is passed through.
- The subprocess itself, the temporary file, its removal and the 10-second limit: process I/O. They enter only as the `RunOutcome` input.
- Generated ids (`uuid4`) and ISO timestamps: nondeterministic, so they are parameters (`projectId`, `now`).
- Request validation and defaults: `ProjectCreate` stands for the body after pydantic has applied `description = ""`, `language = "python"` and `framework = ""`. The `language` of `Execution.ExecuteCode` is likewise the value after `CodeExecuteRequest`'s default `"python"` (line 106).
- Chat context values that are not strings: `context` is `Dict[str, Any]` in the source, but only string values are modelled. A non-string `current_file` is not covered.
- The store between the `$set` and the re-read in `update_project`: the re-read is taken to return the document just written, so concurrent writers are not modelled.
- FastAPI wiring, CORS middleware, the shutdown hook, the health routes and async/await: framework plumbing.
- The front-end workspace (file tree, editor buffer): this model covers `backend/server.py` only.
