/** The project service (internal/domain/project.go) over an in-memory
    project repository keyed by project ID. Fresh IDs and tokens are inputs
    not yet in use; each repository call receives a flag saying whether the
    database fails. Names and tokens are unique columns, so a row that
    would repeat one is refused. An update addressed to an ID that is not
    stored changes no row and reports no error, as an SQL
    `UPDATE … WHERE id = ?` does; one that changes a row also stamps its
    `UpdatedAt`, as gorm's `Update` does. */
module Projects {
  import opened Base
  import opened TelegramUserIds

  /** `domain.Project`. */
  datatype Project = Project(
    id: Uuid, name: string, token: string, publisherId: TelegramUserId,
    createdAt: Time, updatedAt: Time)

  /** The service's wrapped errors, one per failing step. */
  datatype ProjectError =
    | CreatingProject(cause: RepoError)
    | GettingProjectById(cause: RepoError)
    | GettingProjectByToken(cause: RepoError)
    | GettingProjectsByPublisher(cause: RepoError)
    | UpdatingProjectName(cause: RepoError)
    | RegeneratingProjectToken(cause: RepoError)

  /** Whether any stored project has this token. */
  predicate TokenInUse(projects: map<Uuid, Project>, token: string) {
    exists id | id in projects :: projects[id].token == token
  }

  /** Whether any stored project has this name. */
  predicate NameInUse(projects: map<Uuid, Project>, name: string) {
    exists id | id in projects :: projects[id].name == name
  }

  /** Whether a stored project other than `id` has this name. */
  predicate NameHeldByOther(projects: map<Uuid, Project>, id: Uuid, name: string) {
    exists other | other in projects && other != id :: projects[other].name == name
  }

  /** `ProjectService` with its repository's rows. */
  class ProjectService {
    var projects: map<Uuid, Project>

    /** Every row is stored under its own ID, and no two rows share a
        name or a token (both columns are unique). */
    ghost predicate Valid()
      reads this
    {
      && (forall id | id in projects :: projects[id].id == id)
      && (forall a, b | a in projects && b in projects && a != b :: projects[a].token != projects[b].token)
      && (forall a, b | a in projects && b in projects && a != b :: projects[a].name != projects[b].name)
    }

    /** `NewProjectService` over an empty repository. */
    constructor ()
      ensures Valid() && projects == map[]
    {
      projects := map[];
    }

    /** `Create`: a new project with the given publisher and name, a fresh
        ID and a fresh token, stored as returned; a name already taken is
        refused as a duplicate, and any repository error leaves no project
        and no row. */
    method Create(publisherId: TelegramUserId, name: string, freshId: Uuid, freshToken: string, now: Time, createFails: bool)
      returns (r: Result<Project, ProjectError>)
      requires Valid() && freshId !in projects && !TokenInUse(projects, freshToken)
      modifies this
      ensures Valid()
      ensures createFails ==> r == Err(CreatingProject(StoreFailure)) && projects == old(projects)
      ensures !createFails && NameInUse(old(projects), name) ==>
        r == Err(CreatingProject(DuplicateRecord)) && projects == old(projects)
      ensures !createFails && !NameInUse(old(projects), name) ==> r.Ok? && projects == old(projects)[freshId := r.value]
      ensures r.Ok? ==>
        && r.value.name == name && r.value.publisherId == publisherId
        && r.value.id == freshId && r.value.token == freshToken
        && r.value.createdAt == now && r.value.updatedAt == now
    {
      var project := Project(freshId, name, freshToken, publisherId, now, now);
      if createFails {
        return Err(CreatingProject(StoreFailure));
      }
      if NameInUse(projects, name) {
        return Err(CreatingProject(DuplicateRecord));
      }
      projects := projects[freshId := project];
      return Ok(project);
    }

    /** `GetByID`: the stored row, or a wrapped not-found or database error. */
    method GetByID(id: Uuid, fails: bool) returns (r: Result<Project, ProjectError>)
      requires Valid()
      ensures fails ==> r == Err(GettingProjectById(StoreFailure))
      ensures !fails && id !in projects ==> r == Err(GettingProjectById(RecordNotFound))
      ensures !fails && id in projects ==> r == Ok(projects[id]) && r.value.id == id
    {
      if fails {
        return Err(GettingProjectById(StoreFailure));
      }
      if id !in projects {
        return Err(GettingProjectById(RecordNotFound));
      }
      return Ok(projects[id]);
    }

    /** `GetByToken`: the one row with this token, or a wrapped not-found
        or database error. */
    method GetByToken(token: string, fails: bool) returns (r: Result<Project, ProjectError>)
      requires Valid()
      ensures fails ==> r == Err(GettingProjectByToken(StoreFailure))
      ensures !fails && !TokenInUse(projects, token) ==> r == Err(GettingProjectByToken(RecordNotFound))
      ensures !fails && TokenInUse(projects, token) ==> r.Ok?
      ensures r.Ok? ==> r.value.id in projects && projects[r.value.id] == r.value && r.value.token == token
      ensures r.Ok? ==> forall id | id in projects && projects[id].token == token :: id == r.value.id
    {
      if fails {
        return Err(GettingProjectByToken(StoreFailure));
      }
      if !TokenInUse(projects, token) {
        return Err(GettingProjectByToken(RecordNotFound));
      }
      var id :| id in projects && projects[id].token == token;
      return Ok(projects[id]);
    }

    /** `GetByPublisher`: exactly the publisher's projects, or the
        repository's error. */
    method GetByPublisher(publisherId: TelegramUserId, fails: bool)
      returns (r: Result<set<Project>, ProjectError>)
      requires Valid()
      ensures fails <==> r.Err?
      ensures r.Err? ==> r.error == GettingProjectsByPublisher(StoreFailure)
      ensures r.Ok? ==> forall p :: p in r.value <==> p in projects.Values && p.publisherId == publisherId
    {
      if fails {
        return Err(GettingProjectsByPublisher(StoreFailure));
      }
      var found := set id | id in projects && projects[id].publisherId == publisherId :: projects[id];
      return Ok(found);
    }

    /** `UpdateName`: renames the given project and stamps it updated now,
        changing nothing else; a name another project holds is refused as a
        duplicate, and an ID that is not stored changes nothing. */
    method UpdateName(id: Uuid, name: string, now: Time, fails: bool) returns (err: Option<ProjectError>)
      requires Valid()
      modifies this
      ensures Valid()
      ensures err.Some? <==> fails || (id in old(projects) && NameHeldByOther(old(projects), id, name))
      ensures fails ==> err == Some(UpdatingProjectName(StoreFailure))
      ensures !fails && err.Some? ==> err == Some(UpdatingProjectName(DuplicateRecord))
      ensures err.Some? || id !in old(projects) ==> projects == old(projects)
      ensures err.None? && id in old(projects) ==>
        projects == old(projects)[id := old(projects)[id].(name := name, updatedAt := now)]
    {
      if fails {
        return Some(UpdatingProjectName(StoreFailure));
      }
      if id in projects {
        if NameHeldByOther(projects, id, name) {
          return Some(UpdatingProjectName(DuplicateRecord));
        }
        projects := projects[id := projects[id].(name := name, updatedAt := now)];
      }
      err := None;
    }

    /** `RegenerateToken`: writes a fresh token for the project, stamps it
        updated now, and returns the very token it wrote; on a repository error it returns "" and
        changes nothing. An ID that is not stored still gets a token back. */
    method RegenerateToken(id: Uuid, freshToken: string, now: Time, fails: bool) returns (r: Result<string, ProjectError>)
      requires Valid() && !TokenInUse(projects, freshToken) && freshToken != ""
      modifies this
      ensures Valid()
      ensures fails ==> r == Err(RegeneratingProjectToken(StoreFailure)) && projects == old(projects)
      ensures !fails ==> r == Ok(freshToken)
      ensures !fails && id !in old(projects) ==> projects == old(projects)
      ensures !fails && id in old(projects) ==>
        projects == old(projects)[id := old(projects)[id].(token := freshToken, updatedAt := now)]
      ensures !fails && id in old(projects) ==> old(projects)[id].token != freshToken
    {
      var token := freshToken;
      if fails {
        return Err(RegeneratingProjectToken(StoreFailure));
      }
      if id in projects {
        projects := projects[id := projects[id].(token := token, updatedAt := now)];
      }
      return Ok(token);
    }
  }

  /** Two projects named "alpha" and "beta": renaming the second to
      "alpha" is refused as a duplicate, renaming it to its own name is
      accepted, and a second "alpha" cannot be created. */
  method RenameClashScenario(publisherId: TelegramUserId, now: Time)
    returns (clash: Option<ProjectError>, same: Option<ProjectError>, again: Result<Project, ProjectError>)
    ensures clash == Some(UpdatingProjectName(DuplicateRecord))
    ensures same == None
    ensures again == Err(CreatingProject(DuplicateRecord))
  {
    var svc := new ProjectService();
    var a := svc.Create(publisherId, "alpha", 1, "t1", now, false);
    var b := svc.Create(publisherId, "beta", 2, "t2", now, false);
    assert svc.projects[1].name == "alpha";
    clash := svc.UpdateName(2, "alpha", now, false);
    same := svc.UpdateName(2, "beta", now, false);
    assert 1 in svc.projects && svc.projects[1].name == "alpha";
    again := svc.Create(publisherId, "alpha", 3, "t3", now, false);
  }
}
