/**
 * Project documents: what `create_project` stores for a new project, and how
 * `update_project` merges a partial update into the stored one.
 */
module Projects {
  import opened Wrappers
  import opened Http
  import opened Languages

  /** A stored project document (the store's own `_id` is not modelled). */
  datatype Project = Project(
    id: string,
    name: string,
    description: string,
    language: string,
    framework: string,
    files: map<string, string>,
    userId: string,
    createdAt: string,
    updatedAt: string)

  /** The body of a create request, with the request model's defaults already applied. */
  datatype ProjectCreate = ProjectCreate(name: string, description: string, language: string, framework: string)

  /** The body of an update request: every field may be left out. */
  datatype ProjectUpdate = ProjectUpdate(
    name: Option<string>,
    description: Option<string>,
    files: Option<map<string, string>>)

  /**
   * The `update_data` document the handler sends to the store's `$set`:
   * `updated_at` always, the other three only when the handler put them in.
   */
  datatype UpdateSet = UpdateSet(
    updatedAt: string,
    name: Option<string>,
    description: Option<string>,
    files: Option<map<string, string>>)

  const ProjectNotFound: HttpError := HttpError(404, "Project not found")

  /**
   * The document `create_project` inserts: the request's fields, the caller as
   * owner, the same instant as creation and update time, and the starter files
   * of its language, so a new project never has an empty file map.
   */
  function CreateProject(data: ProjectCreate, userId: string, projectId: string, now: string): (p: Project)
    ensures p.files == DefaultFiles(data.language) && |p.files| == 1
    ensures p.id == projectId && p.userId == userId
    ensures p.createdAt == now && p.updatedAt == now
    ensures p.name == data.name && p.description == data.description
    ensures p.language == data.language && p.framework == data.framework
  {
    Project(projectId, data.name, data.description, data.language, data.framework,
            DefaultFiles(data.language), userId, now, now)
  }

  /** The store's `$set`: every field the update document carries overwrites the stored one. */
  function ApplySet(p: Project, u: UpdateSet): (q: Project)
    ensures q.updatedAt == u.updatedAt
    ensures u.name.Some? ==> q.name == u.name.value
    ensures u.description.Some? ==> q.description == u.description.value
    ensures u.files.Some? ==> q.files == u.files.value
    ensures u.name.None? ==> q.name == p.name
    ensures u.description.None? ==> q.description == p.description
    ensures u.files.None? ==> q.files == p.files
    ensures q.id == p.id && q.userId == p.userId && q.createdAt == p.createdAt
    ensures q.language == p.language && q.framework == p.framework
  {
    p.(updatedAt := u.updatedAt,
       name := if u.name.Some? then u.name.value else p.name,
       description := if u.description.Some? then u.description.value else p.description,
       files := if u.files.Some? then u.files.value else p.files)
  }

  /** Python truthiness of an optional string: present and not empty. */
  predicate SuppliedText(s: Option<string>) {
    s.Some? && s.value != ""
  }

  /** Python truthiness of an optional file map: present and not empty. */
  predicate SuppliedFiles(m: Option<map<string, string>>) {
    m.Some? && m.value != map[]
  }

  /**
   * The project a successful update leaves behind, field by field: the update
   * time is `now`; the name changes only to a non-empty one; the description
   * changes whenever one is given, even `""`; the files are replaced whole, and
   * only by a non-empty map; identity, language, framework, owner and creation
   * time stay as they were.
   */
  function Merged(p: Project, data: ProjectUpdate, now: string): (q: Project)
    ensures q.updatedAt == now
    ensures p.files != map[] ==> q.files != map[]
    ensures p.name != "" ==> q.name != ""
    ensures q.id == p.id && q.userId == p.userId && q.createdAt == p.createdAt
    ensures q.language == p.language && q.framework == p.framework
  {
    Project(
      p.id,
      if SuppliedText(data.name) then data.name.value else p.name,
      if data.description.Some? then data.description.value else p.description,
      p.language,
      p.framework,
      if SuppliedFiles(data.files) then data.files.value else p.files,
      p.userId,
      p.createdAt,
      now)
  }

  /**
   * `update_project` once the caller is known. `stored` is what the lookup by
   * project id and owner returned; `written` is the `$set` document sent to the
   * store, `None` when nothing is written.
   */
  method UpdateProject(stored: Option<Project>, data: ProjectUpdate, now: string)
    returns (r: Result<Project, HttpError>, written: Option<UpdateSet>)
    ensures stored.None? ==> r == Err(ProjectNotFound) && written.None?
    ensures stored.Some? ==> written.Some? && r == Ok(ApplySet(stored.value, written.value))
    ensures written.Some? ==>
              && written.value.updatedAt == now
              && (written.value.name.Some? <==> SuppliedText(data.name))
              && (written.value.description.Some? <==> data.description.Some?)
              && (written.value.files.Some? <==> SuppliedFiles(data.files))
              && (written.value.name.Some? ==> written.value.name == data.name)
              && (written.value.description.Some? ==> written.value.description == data.description)
              && (written.value.files.Some? ==> written.value.files == data.files)
    ensures stored.Some? ==> r == Ok(Merged(stored.value, data, now))
  {
    if stored.None? {
      return Err(ProjectNotFound), None;
    }
    var updateData := UpdateSet(now, None, None, None);
    if SuppliedText(data.name) {
      updateData := updateData.(name := data.name);
    }
    if data.description.Some? {
      updateData := updateData.(description := data.description);
    }
    if SuppliedFiles(data.files) {
      updateData := updateData.(files := data.files);
    }
    r, written := Ok(ApplySet(stored.value, updateData)), Some(updateData);
  }

  /** An update stamped with the time it was handled. */
  datatype TimedUpdate = TimedUpdate(data: ProjectUpdate, now: string)

  /** The project after a series of successful updates, in order. */
  function ApplyUpdates(p: Project, updates: seq<TimedUpdate>): Project
    decreases |updates|
  {
    if |updates| == 0 then p
    else ApplyUpdates(Merged(p, updates[0].data, updates[0].now), updates[1..])
  }

  /**
   * No series of updates empties a project's files or clears its name, and
   * none changes its id, owner, language, framework or creation time.
   */
  lemma {:induction false} UpdatesPreserveProject(p: Project, updates: seq<TimedUpdate>)
    ensures var q := ApplyUpdates(p, updates);
            && (p.files != map[] ==> q.files != map[])
            && (p.name != "" ==> q.name != "")
            && q.id == p.id && q.userId == p.userId && q.createdAt == p.createdAt
            && q.language == p.language && q.framework == p.framework
    decreases |updates|
  {
    if |updates| > 0 {
      UpdatesPreserveProject(Merged(p, updates[0].data, updates[0].now), updates[1..]);
    }
  }

  /** Every project that was created and then only updated has at least one file. */
  lemma CreatedProjectsKeepFiles(data: ProjectCreate, userId: string, projectId: string, now: string,
                                 updates: seq<TimedUpdate>)
    ensures ApplyUpdates(CreateProject(data, userId, projectId, now), updates).files != map[]
  {
    UpdatesPreserveProject(CreateProject(data, userId, projectId, now), updates);
  }

  /** The description, unlike the name and the files, can be cleared: `""` is applied. */
  lemma DescriptionCanBeCleared(p: Project, now: string)
    ensures Merged(p, ProjectUpdate(None, Some(""), None), now).description == ""
    ensures Merged(p, ProjectUpdate(Some(""), None, None), now).name == p.name
    ensures Merged(p, ProjectUpdate(None, None, Some(map[])), now).files == p.files
  {
  }

  /** Handling the same update twice at the same instant changes nothing the first did not. */
  lemma MergeIdempotent(p: Project, data: ProjectUpdate, now: string)
    ensures Merged(Merged(p, data, now), data, now) == Merged(p, data, now)
  {
  }
}
