/** The project list and creation endpoint of app/api/projects/route.ts: both verbs require
    the administrator token; the list applies an optional status filter and name search, and
    creation fills in defaults for the project row and its ordered sections. */
module ProjectsRoute {
  import opened Common
  import opened Json
  import opened Store
  import opened AdminAuth

  const FetchFailed := "Failed to fetch projects"
  const NameRequired := "Project name is required"
  const CreateFailed := "Failed to create project"
  const InternalError := "Internal server error"
  const AllStatuses := "all"
  const DefaultStatus := "draft"

  /** A restriction added to the projects query: `.eq('status', s)` or `.ilike('name', p)`. */
  datatype Filter = StatusEquals(status: string) | NameLike(pattern: string)

  datatype ListResponse = Projects(projects: seq<Project>) | ListFailure(status: int, error: string)

  /** A section of the creation body; absent fields are None, and `orderIndex` keeps the
      difference between a missing, a null and a given value that `??` looks at. */
  datatype SectionInput = SectionInput(
    title: Option<string>,
    goal: Option<string>,
    prompt: Option<string>,
    successMetrics: Option<Data>,
    orderIndex: Nullish<int>)

  /** The creation body. `status` distinguishes undefined (the destructuring default applies)
      from null; `config` is None when falsy; `sections` is None when it is not an array. */
  datatype ProjectBody = ProjectBody(
    name: Option<string>,
    description: Option<string>,
    status: Nullish<string>,
    prototypeUrl: Option<string>,
    introScript: Option<string>,
    walkthroughContext: Option<string>,
    config: Option<Data>,
    sections: Option<seq<SectionInput>>)

  /** The projects row inserted; a null status is sent as None. */
  datatype NewProject = NewProject(
    name: string,
    description: Option<string>,
    status: Option<string>,
    prototypeUrl: Option<string>,
    introScript: Option<string>,
    walkthroughContext: Option<string>,
    config: Data)

  /** A project_sections row, as sent and as read back. */
  datatype SectionRow = SectionRow(
    projectId: Option<string>,
    title: Option<string>,
    goal: Option<string>,
    prompt: Option<string>,
    successMetrics: Data,
    orderIndex: int)

  datatype CreateResponse = Created(project: Project, sections: seq<SectionRow>) | CreateFailure(status: int, error: string)

  /** The filters the list query receives, added one after the other as the route reassigns
      its query builder: a status other than "all", then a search that is not blank. */
  method BuildQuery(status: Option<string>, search: Option<string>) returns (filters: seq<Filter>)
    ensures |filters| <= 2
    ensures forall s :: StatusEquals(s) in filters <==> Truthy(status) && status.value != AllStatuses && s == status.value
    ensures forall p :: NameLike(p) in filters <==>
              search.Some? && !IsBlank(search.value) && p == "%" + Trim(search.value) + "%"
  {
    filters := [];
    if Truthy(status) && status.value != AllStatuses {
      filters := filters + [StatusEquals(status.value)];
    }
    if search.Some? && search.value != "" && |Trim(search.value)| > 0 {
      filters := filters + [NameLike("%" + Trim(search.value) + "%")];
    }
  }

  /** Serving a GET: `status` and `search` are the query string's `status` and `q`
      parameters, `fetched` the database reply; `query` is the filter list sent. */
  method Get(password: Option<string>, header: Option<string>, storeConfigured: bool,
             status: Option<string>, search: Option<string>, fetched: DbResult<seq<Project>>)
    returns (resp: ListResponse, query: Option<seq<Filter>>)
    ensures !CheckAdminAuth(password, header) ==> resp == ListFailure(401, Unauthorized)
    ensures CheckAdminAuth(password, header) && !storeConfigured ==> resp == ListFailure(500, StoreMissing)
    ensures query.Some? <==> CheckAdminAuth(password, header) && storeConfigured
    ensures query.Some? && fetched.DbError? ==> resp == ListFailure(500, FetchFailed)
    ensures query.Some? && fetched.DbData? ==>
              resp == Projects(if fetched.data.Some? then fetched.data.value else [])
  {
    query := None;
    if !CheckAdminAuth(password, header) {
      return ListFailure(401, Unauthorized), query;
    }
    if !storeConfigured {
      return ListFailure(500, StoreMissing), query;
    }
    var filters := BuildQuery(status, search);
    query := Some(filters);
    match fetched
    case DbError(_) =>
      resp := ListFailure(500, FetchFailed);
    case DbData(data) =>
      resp := Projects(if data.Some? then data.value else []);
  }

  /** The inserted project row: the status defaults to `draft` only when it was left out
      (an explicit null stays null), and the configuration defaults to `{}`. */
  function NewProjectRow(b: ProjectBody): (r: NewProject)
    requires Truthy(b.name)
    ensures r.name == b.name.value
    ensures b.status.Undefined? ==> r.status == Some(DefaultStatus)
    ensures b.status.Null? ==> r.status.None?
    ensures b.status.Present? ==> r.status == Some(b.status.value)
    ensures r.config == if b.config.Some? then b.config.value else EmptyObject
  {
    var status := match b.status
      case Undefined => Some(DefaultStatus)
      case Null => None
      case Present(s) => Some(s);
    NewProject(b.name.value, b.description, status, b.prototypeUrl, b.introScript, b.walkthroughContext,
               if b.config.Some? then b.config.value else EmptyObject)
  }

  /** `sections.map((section, index) => ...)`. */
  function SectionsPayload(sections: seq<SectionInput>, projectId: Option<string>): seq<SectionRow>
  {
    seq(|sections|, i requires 0 <= i < |sections| =>
      var s := sections[i];
      SectionRow(projectId, s.title, s.goal, s.prompt,
                 if s.successMetrics.Some? then s.successMetrics.value else EmptyObject,
                 if s.orderIndex.Present? then s.orderIndex.value else i))
  }

  /** One row per section, in order, each tied to the new project, with the supplied
      order index when there is one and the position otherwise. */
  lemma SectionsPayloadSpec(sections: seq<SectionInput>, projectId: Option<string>)
    ensures |SectionsPayload(sections, projectId)| == |sections|
    ensures forall i :: 0 <= i < |sections| ==>
              var r := SectionsPayload(sections, projectId)[i];
              && r.projectId == projectId
              && r.title == sections[i].title && r.goal == sections[i].goal && r.prompt == sections[i].prompt
              && (sections[i].successMetrics.None? ==> r.successMetrics == EmptyObject)
              && (sections[i].orderIndex.Present? ==> r.orderIndex == sections[i].orderIndex.value)
              && (!sections[i].orderIndex.Present? ==> r.orderIndex == i)
  {
  }

  /** When no section names its position, the rows are numbered 0, 1, 2, ... and so their
      order indexes are distinct and increasing. */
  lemma PositionsWhenUnordered(sections: seq<SectionInput>, projectId: Option<string>)
    requires forall i :: 0 <= i < |sections| ==> !sections[i].orderIndex.Present?
    ensures forall i, j :: 0 <= i < j < |sections| ==>
              SectionsPayload(sections, projectId)[i].orderIndex < SectionsPayload(sections, projectId)[j].orderIndex
  {
  }

  /** Serving a POST. `body` is the parsed body (None when it cannot be read), `inserted` the
      reply to the project insert and `sectionsInserted` the reply to the section insert.
      `projectInsert` and `sectionInsert` are the rows sent, when they are. */
  method Post(password: Option<string>, header: Option<string>, storeConfigured: bool,
              body: Option<ProjectBody>, inserted: DbResult<Project>, sectionsInserted: DbResult<seq<SectionRow>>)
    returns (resp: CreateResponse, projectInsert: Option<NewProject>, sectionInsert: Option<seq<SectionRow>>)
    ensures !CheckAdminAuth(password, header) ==> resp == CreateFailure(401, Unauthorized)
    ensures CheckAdminAuth(password, header) && !storeConfigured ==> resp == CreateFailure(500, StoreMissing)
    ensures CheckAdminAuth(password, header) && storeConfigured && body.None? ==> resp == CreateFailure(500, InternalError)
    ensures CheckAdminAuth(password, header) && storeConfigured && body.Some? && !Truthy(body.value.name) ==>
              resp == CreateFailure(400, NameRequired)
    ensures projectInsert.Some? <==>
              CheckAdminAuth(password, header) && storeConfigured && body.Some? && Truthy(body.value.name)
    ensures projectInsert.Some? ==> projectInsert.value == NewProjectRow(body.value)
    ensures projectInsert.Some? && !(inserted.DbData? && inserted.data.Some?) ==>
              resp == CreateFailure(500, CreateFailed) && sectionInsert.None?
    ensures sectionInsert.Some? <==>
              projectInsert.Some? && inserted.DbData? && inserted.data.Some?
              && body.value.sections.Some? && |body.value.sections.value| > 0
    ensures sectionInsert.Some? ==>
              sectionInsert.value == SectionsPayload(body.value.sections.value, inserted.data.value.id)
    ensures resp.Created? <==> projectInsert.Some? && inserted.DbData? && inserted.data.Some?
    ensures resp.Created? ==>
              && resp.project == inserted.data.value
              && resp.sections == (if sectionInsert.Some? && sectionsInserted.DbData? && sectionsInserted.data.Some?
                                   then sectionsInserted.data.value else [])
  {
    projectInsert, sectionInsert := None, None;
    if !CheckAdminAuth(password, header) {
      return CreateFailure(401, Unauthorized), projectInsert, sectionInsert;
    }
    if !storeConfigured {
      return CreateFailure(500, StoreMissing), projectInsert, sectionInsert;
    }
    if body.None? {
      return CreateFailure(500, InternalError), projectInsert, sectionInsert;
    }
    var b := body.value;
    if !Truthy(b.name) {
      return CreateFailure(400, NameRequired), projectInsert, sectionInsert;
    }
    projectInsert := Some(NewProjectRow(b));
    if inserted.DbError? || inserted.data.None? {
      return CreateFailure(500, CreateFailed), projectInsert, sectionInsert;
    }
    var project := inserted.data.value;
    var insertedSections := [];
    if b.sections.Some? && |b.sections.value| > 0 {
      sectionInsert := Some(SectionsPayload(b.sections.value, project.id));
      match sectionsInserted
      case DbError(_) =>
      case DbData(data) =>
        insertedSections := if data.Some? then data.value else [];
    }
    resp := Created(project, insertedSections);
  }
}
