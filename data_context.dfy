/** The data context of src/context/SupabaseDataContext.tsx: a session cache
    of ten entity collections and a `loading` flag, reloaded from the remote
    store and written through command functions.

    The remote store is outside the model. What each `select` or write
    returned is a parameter of the operation that awaits it (`Fetch`,
    `WriteResult`, `CreateResult`); the requests the cache issues are recorded,
    in order, in the ghost log `Sent`, so that "the write comes first, then the
    reload, and nothing follows a failed write" can be stated. The signed-in
    user of the auth context is a parameter too: the cache only reads it. */
module DataContext {
  import opened Records
  import opened Sequences
  import opened ContextViews

  /** What a `select` returned: its rows (`null` when absent) or an error. */
  datatype Fetch<T> = Fetched(data: Option<seq<T>>) | FetchFailed(error: string)

  /** What an `insert`, `update`, `delete` or `upsert` returned. */
  datatype WriteResult = Written | WriteFailed(error: string)

  /** What `insert(...).select().single()` returned: the new row's id, or an error. */
  datatype CreateResult = Created(id: Id) | CreateFailed(error: string)

  /** How the promise of an operation settles. */
  datatype Outcome<T> = Resolved(value: T) | Thrown(error: string)

  /** The error a `user!` dereference raises when nobody is signed in. */
  const NullUserError: string := "TypeError: user is null"

  datatype Table =
    | ProjectsTable | StagesTable | CommentTasksTable | FilesTable | LeadsTable
    | UsersTable | BrochureProjectsTable | BrochurePagesTable | PageCommentsTable
    | DownloadHistoryTable

  /** One call on the remote store, with the exact payload the cache built. */
  datatype Request =
    | Select(table: Table)
    | InsertProject(project: ProjectInsert)
    | PatchProject(projectId: Id, projectPatch: ProjectPatch)
    | RemoveProject(projectId: Id)
    | InsertStages(stageRows: seq<StageInsert>)
    | PatchStage(stageId: Id, stagePatch: StagePatch)
    | InsertCommentTask(task: CommentTaskInsert)
    | PatchCommentTask(taskId: Id, taskStatus: TaskStatus)
    | InsertFile(file: FileInsert)
    /** `download_count + 1` evaluated by the store, with the download's time and user. */
    | CountDownload(fileId: Id, at: Time, downloader: Id)
    | PatchFile(fileId: Id, filePatch: FilePatch)
    | InsertDownload(entry: DownloadInsert)
    | InsertLead(lead: LeadInsert)
    | PatchLead(leadId: Id, leadPatch: LeadPatch)
    | RemoveLead(leadId: Id)
    | InsertBrochureProject(clientId: Id, clientName: string)
    | PatchBrochureProject(brochureId: Id, brochurePatch: BrochureProjectPatch)
    | UpsertBrochurePage(pageRow: BrochurePageInsert)
    | InsertPageComment(pageComment: PageCommentInsert)
    | PatchBrochurePage(pageId: Id, pagePatch: PagePatch)

  /** `data || []`. */
  function Rows<T>(f: Fetch<T>): seq<T>
    requires f.Fetched?
  {
    if f.data.Some? then f.data.value else []
  }

  /** A collection after a load step: replaced wholesale by what was fetched,
      or left as it was when the fetch failed (the step throws before its setter). */
  function Reloaded<T>(prior: seq<T>, f: Fetch<T>): seq<T> {
    if f.Fetched? then Rows(f) else prior
  }

  /** How a load step's promise settles. */
  function Settled<T>(f: Fetch<T>): Outcome<()> {
    if f.Fetched? then Resolved(()) else Thrown(f.error)
  }

  predicate IsManager(user: Option<User>) {
    user.Some? && user.value.role == Manager
  }

  /** One reply per fetch of `refreshData`. */
  datatype FetchBatch = FetchBatch(
    projects: Fetch<Project>, stages: Fetch<Stage>, commentTasks: Fetch<CommentTask>,
    files: Fetch<StoredFile>, leads: Fetch<Lead>, employees: Fetch<User>,
    brochureProjects: Fetch<BrochureProject>, brochurePages: Fetch<BrochurePage>,
    pageComments: Fetch<PageComment>, downloadHistory: Fetch<DownloadRecord>)

  /** Everything the context exposes to views, as one value. */
  datatype CacheState = CacheState(
    projects: seq<Project>, stages: seq<Stage>, commentTasks: seq<CommentTask>,
    files: seq<StoredFile>, leads: seq<Lead>, employees: seq<User>,
    brochureProjects: seq<BrochureProject>, brochurePages: seq<BrochurePage>,
    pageComments: seq<PageComment>, downloadHistory: seq<DownloadRecord>,
    loading: bool)

  /** The state after sign-out: every collection empty, not loading. */
  const Cleared: CacheState := CacheState([], [], [], [], [], [], [], [], [], [], false)

  /** The state once every fetch of a refresh has settled. Each collection
      whose fetch succeeded is replaced, each whose fetch failed keeps its
      value; `leads` and `employees` are fetched only for a manager. */
  function Refreshed(s: CacheState, b: FetchBatch, manager: bool): (r: CacheState)
    ensures !r.loading
    ensures b.projects.FetchFailed? ==> r.projects == s.projects
    ensures b.stages.FetchFailed? ==> r.stages == s.stages
    ensures b.commentTasks.FetchFailed? ==> r.commentTasks == s.commentTasks
    ensures b.files.FetchFailed? ==> r.files == s.files
    ensures !manager || b.leads.FetchFailed? ==> r.leads == s.leads
    ensures !manager || b.employees.FetchFailed? ==> r.employees == s.employees
    ensures b.brochureProjects.FetchFailed? ==> r.brochureProjects == s.brochureProjects
    ensures b.brochurePages.FetchFailed? ==> r.brochurePages == s.brochurePages
    ensures b.pageComments.FetchFailed? ==> r.pageComments == s.pageComments
    ensures b.downloadHistory.FetchFailed? ==> r.downloadHistory == s.downloadHistory
  {
    CacheState(
      Reloaded(s.projects, b.projects), Reloaded(s.stages, b.stages),
      Reloaded(s.commentTasks, b.commentTasks), Reloaded(s.files, b.files),
      if manager then Reloaded(s.leads, b.leads) else s.leads,
      if manager then Reloaded(s.employees, b.employees) else s.employees,
      Reloaded(s.brochureProjects, b.brochureProjects), Reloaded(s.brochurePages, b.brochurePages),
      Reloaded(s.pageComments, b.pageComments), Reloaded(s.downloadHistory, b.downloadHistory),
      false)
  }

  /** The selects of one refresh, in the order `refreshData` starts them. */
  function RefreshRequests(manager: bool): (r: seq<Request>)
    ensures |r| == if manager then 10 else 8
    ensures forall i :: 0 <= i < |r| ==> r[i].Select?
    ensures Select(LeadsTable) in r <==> manager
    ensures Select(UsersTable) in r <==> manager
  {
    var common := [Select(ProjectsTable)] + [Select(StagesTable)] + [Select(CommentTasksTable)] + [Select(FilesTable)];
    var gated := if manager then common + [Select(LeadsTable)] + [Select(UsersTable)] else common;
    gated + [Select(BrochureProjectsTable)] + [Select(BrochurePagesTable)] + [Select(PageCommentsTable)]
          + [Select(DownloadHistoryTable)]
  }

  /** The client-side gate: a session that is not a manager's holds no leads
      and no users. */
  predicate GateHolds(s: CacheState, user: Option<User>) {
    !IsManager(user) ==> s.leads == [] && s.employees == []
  }

  /** Sign-out establishes the gate for whoever signs in next, and a refresh
      for a non-manager keeps it, whatever the store returns. */
  lemma RefreshKeepsGate(s: CacheState, b: FetchBatch, user: Option<User>)
    ensures GateHolds(Cleared, user)
    ensures GateHolds(s, user) ==> GateHolds(Refreshed(s, b, IsManager(user)), user)
  {
  }

  /** A refresh for someone who is not a manager leaves `leads` and
      `employees` exactly as they were: they are empty only because sign-out
      emptied them, not because the refresh does. */
  lemma NonManagerRefreshKeepsPrior(s: CacheState, b: FetchBatch)
    ensures Refreshed(s, b, false).leads == s.leads
    ensures Refreshed(s, b, false).employees == s.employees
  {
  }

  /** Refreshing twice with the same replies gives the same state as once. */
  lemma RefreshIdempotent(s: CacheState, b: FetchBatch, manager: bool)
    ensures Refreshed(Refreshed(s, b, manager), b, manager) == Refreshed(s, b, manager)
  {
  }

  function PageNumber(pg: BrochurePage): int { pg.page_number }
  function CommentTime(c: PageComment): int { c.timestamp }

  function PagesOfProject(pages: seq<BrochurePage>, projectId: Id): seq<BrochurePage> {
    Filter(pages, (pg: BrochurePage) => pg.project_id == projectId)
  }

  function CommentsOfPage(comments: seq<PageComment>, pageId: Id): seq<PageComment> {
    Filter(comments, (c: PageComment) => c.page_id == pageId)
  }

  predicate UnderReview(bp: BrochureProject) {
    bp.status == ReadyForDesign || bp.status == InDesign
  }

  /** Appending to a log one request at a time. */
  lemma AppendAssoc<T>(a: seq<T>, b: seq<T>, c: seq<T>)
    ensures (a + b) + c == a + (b + c)
  {
  }

  class SessionCache {
    var projects: seq<Project>
    var stages: seq<Stage>
    var commentTasks: seq<CommentTask>
    var files: seq<StoredFile>
    var leads: seq<Lead>
    var employees: seq<User>
    var brochureProjects: seq<BrochureProject>
    var brochurePages: seq<BrochurePage>
    var pageComments: seq<PageComment>
    var downloadHistory: seq<DownloadRecord>
    var loading: bool
    /** The requests issued to the remote store so far, oldest first. */
    ghost var Sent: seq<Request>

    function State(): CacheState
      reads this
    {
      CacheState(projects, stages, commentTasks, files, leads, employees,
                 brochureProjects, brochurePages, pageComments, downloadHistory, loading)
    }

    /** Every collection starts empty and `loading` starts true. */
    constructor ()
      ensures State() == Cleared.(loading := true)
      ensures Sent == []
    {
      projects, stages, commentTasks, files, leads := [], [], [], [], [];
      employees, brochureProjects, brochurePages, pageComments, downloadHistory := [], [], [], [], [];
      loading := true;
      Sent := [];
    }

    // ------------------------------------------------------ read helpers

    /** `getBrochurePages`: exactly the cached pages of the project, each as
        often as it is cached, by ascending page number, pages with the same
        number in cache order. Reads only the cache. */
    function GetBrochurePages(projectId: Id): (r: seq<BrochurePage>)
      reads this
      ensures forall pg :: multiset(r)[pg] ==
                if pg.project_id == projectId then multiset(brochurePages)[pg] else 0
      ensures forall i, j :: 0 <= i < j < |r| ==> r[i].page_number <= r[j].page_number
      ensures forall k :: WithKey(r, PageNumber, k) ==
                          WithKey(PagesOfProject(brochurePages, projectId), PageNumber, k)
    {
      SortByKey(PagesOfProject(brochurePages, projectId), PageNumber)
    }

    /** `getPageComments`: exactly the cached comments on the page, oldest
        first, comments with the same time in cache order. Reads only the cache. */
    function GetPageComments(pageId: Id): (r: seq<PageComment>)
      reads this
      ensures forall c :: multiset(r)[c] ==
                if c.page_id == pageId then multiset(pageComments)[c] else 0
      ensures forall i, j :: 0 <= i < j < |r| ==> r[i].timestamp <= r[j].timestamp
      ensures forall k :: WithKey(r, CommentTime, k) ==
                          WithKey(CommentsOfPage(pageComments, pageId), CommentTime, k)
    {
      SortByKey(CommentsOfPage(pageComments, pageId), CommentTime)
    }

    /** `getBrochureProjectsForReview`: the cached brochure projects that are
        ready for design or in design, in cache order. */
    function GetBrochureProjectsForReview(): (r: seq<BrochureProject>)
      reads this
      ensures forall bp :: multiset(r)[bp] ==
                if bp.status in {ReadyForDesign, InDesign} then multiset(brochureProjects)[bp] else 0
      ensures forall i :: 0 <= i < |r| ==> r[i].status == ReadyForDesign || r[i].status == InDesign
    {
      Filter(brochureProjects, UnderReview)
    }

    // -------------------------------------------------------- load steps

    method LoadProjects(f: Fetch<Project>) returns (outcome: Outcome<()>)
      modifies this
      ensures State() == old(State()).(projects := Reloaded(old(projects), f))
      ensures Sent == old(Sent) + [Select(ProjectsTable)] && outcome == Settled(f)
    {
      Sent := Sent + [Select(ProjectsTable)];
      if f.FetchFailed? { return Thrown(f.error); }
      projects := Rows(f);
      return Resolved(());
    }

    method LoadStages(f: Fetch<Stage>) returns (outcome: Outcome<()>)
      modifies this
      ensures State() == old(State()).(stages := Reloaded(old(stages), f))
      ensures Sent == old(Sent) + [Select(StagesTable)] && outcome == Settled(f)
    {
      Sent := Sent + [Select(StagesTable)];
      if f.FetchFailed? { return Thrown(f.error); }
      stages := Rows(f);
      return Resolved(());
    }

    method LoadCommentTasks(f: Fetch<CommentTask>) returns (outcome: Outcome<()>)
      modifies this
      ensures State() == old(State()).(commentTasks := Reloaded(old(commentTasks), f))
      ensures Sent == old(Sent) + [Select(CommentTasksTable)] && outcome == Settled(f)
    {
      Sent := Sent + [Select(CommentTasksTable)];
      if f.FetchFailed? { return Thrown(f.error); }
      commentTasks := Rows(f);
      return Resolved(());
    }

    /** The store filters out archived files; that filter is its business. */
    method LoadFiles(f: Fetch<StoredFile>) returns (outcome: Outcome<()>)
      modifies this
      ensures State() == old(State()).(files := Reloaded(old(files), f))
      ensures Sent == old(Sent) + [Select(FilesTable)] && outcome == Settled(f)
    {
      Sent := Sent + [Select(FilesTable)];
      if f.FetchFailed? { return Thrown(f.error); }
      files := Rows(f);
      return Resolved(());
    }

    /** Only a manager fetches leads; anyone else returns at once, keeping
        `leads` as it was. */
    method LoadLeads(user: Option<User>, f: Fetch<Lead>) returns (outcome: Outcome<()>)
      modifies this
      ensures IsManager(user) ==>
                State() == old(State()).(leads := Reloaded(old(leads), f)) &&
                Sent == old(Sent) + [Select(LeadsTable)] && outcome == Settled(f)
      ensures !IsManager(user) ==> State() == old(State()) && Sent == old(Sent) && outcome == Resolved(())
    {
      if !IsManager(user) { return Resolved(()); }
      Sent := Sent + [Select(LeadsTable)];
      if f.FetchFailed? { return Thrown(f.error); }
      leads := Rows(f);
      return Resolved(());
    }

    /** Only a manager fetches the employee and client users; anyone else
        returns at once, keeping `employees` as it was. */
    method LoadEmployees(user: Option<User>, f: Fetch<User>) returns (outcome: Outcome<()>)
      modifies this
      ensures IsManager(user) ==>
                State() == old(State()).(employees := Reloaded(old(employees), f)) &&
                Sent == old(Sent) + [Select(UsersTable)] && outcome == Settled(f)
      ensures !IsManager(user) ==> State() == old(State()) && Sent == old(Sent) && outcome == Resolved(())
    {
      if !IsManager(user) { return Resolved(()); }
      Sent := Sent + [Select(UsersTable)];
      if f.FetchFailed? { return Thrown(f.error); }
      employees := Rows(f);
      return Resolved(());
    }

    method LoadBrochureProjects(f: Fetch<BrochureProject>) returns (outcome: Outcome<()>)
      modifies this
      ensures State() == old(State()).(brochureProjects := Reloaded(old(brochureProjects), f))
      ensures Sent == old(Sent) + [Select(BrochureProjectsTable)] && outcome == Settled(f)
    {
      Sent := Sent + [Select(BrochureProjectsTable)];
      if f.FetchFailed? { return Thrown(f.error); }
      brochureProjects := Rows(f);
      return Resolved(());
    }

    method LoadBrochurePages(f: Fetch<BrochurePage>) returns (outcome: Outcome<()>)
      modifies this
      ensures State() == old(State()).(brochurePages := Reloaded(old(brochurePages), f))
      ensures Sent == old(Sent) + [Select(BrochurePagesTable)] && outcome == Settled(f)
    {
      Sent := Sent + [Select(BrochurePagesTable)];
      if f.FetchFailed? { return Thrown(f.error); }
      brochurePages := Rows(f);
      return Resolved(());
    }

    method LoadPageComments(f: Fetch<PageComment>) returns (outcome: Outcome<()>)
      modifies this
      ensures State() == old(State()).(pageComments := Reloaded(old(pageComments), f))
      ensures Sent == old(Sent) + [Select(PageCommentsTable)] && outcome == Settled(f)
    {
      Sent := Sent + [Select(PageCommentsTable)];
      if f.FetchFailed? { return Thrown(f.error); }
      pageComments := Rows(f);
      return Resolved(());
    }

    method LoadDownloadHistory(f: Fetch<DownloadRecord>) returns (outcome: Outcome<()>)
      modifies this
      ensures State() == old(State()).(downloadHistory := Reloaded(old(downloadHistory), f))
      ensures Sent == old(Sent) + [Select(DownloadHistoryTable)] && outcome == Settled(f)
    {
      Sent := Sent + [Select(DownloadHistoryTable)];
      if f.FetchFailed? { return Thrown(f.error); }
      downloadHistory := Rows(f);
      return Resolved(());
    }

    // ----------------------------------------------- refresh and sign-out

    /** `refreshData`: nothing without a user; otherwise every fetch is
        started, each settles into its own collection, and errors are
        swallowed. */
    method RefreshData(user: Option<User>, b: FetchBatch)
      modifies this
      ensures user.None? ==> State() == old(State()) && Sent == old(Sent)
      ensures user.Some? ==> State() == Refreshed(old(State()), b, IsManager(user))
      ensures user.Some? ==> Sent == old(Sent) + RefreshRequests(IsManager(user))
    {
      if user.None? { return; }
      ghost var manager := IsManager(user);
      loading := true;
      var _ := LoadProjects(b.projects);
      ghost var steps := [Select(ProjectsTable)];
      var _ := LoadStages(b.stages);
      AppendAssoc(old(Sent), steps, [Select(StagesTable)]);
      steps := steps + [Select(StagesTable)];
      var _ := LoadCommentTasks(b.commentTasks);
      AppendAssoc(old(Sent), steps, [Select(CommentTasksTable)]);
      steps := steps + [Select(CommentTasksTable)];
      var _ := LoadFiles(b.files);
      AppendAssoc(old(Sent), steps, [Select(FilesTable)]);
      steps := steps + [Select(FilesTable)];
      var _ := LoadLeads(user, b.leads);
      if manager {
        AppendAssoc(old(Sent), steps, [Select(LeadsTable)]);
        steps := steps + [Select(LeadsTable)];
      }
      var _ := LoadEmployees(user, b.employees);
      if manager {
        AppendAssoc(old(Sent), steps, [Select(UsersTable)]);
        steps := steps + [Select(UsersTable)];
      }
      var _ := LoadBrochureProjects(b.brochureProjects);
      AppendAssoc(old(Sent), steps, [Select(BrochureProjectsTable)]);
      steps := steps + [Select(BrochureProjectsTable)];
      var _ := LoadBrochurePages(b.brochurePages);
      AppendAssoc(old(Sent), steps, [Select(BrochurePagesTable)]);
      steps := steps + [Select(BrochurePagesTable)];
      var _ := LoadPageComments(b.pageComments);
      AppendAssoc(old(Sent), steps, [Select(PageCommentsTable)]);
      steps := steps + [Select(PageCommentsTable)];
      var _ := LoadDownloadHistory(b.downloadHistory);
      AppendAssoc(old(Sent), steps, [Select(DownloadHistoryTable)]);
      steps := steps + [Select(DownloadHistoryTable)];
      loading := false;
      assert steps == RefreshRequests(manager);
    }

    /** Sign-out: every collection emptied, `loading` false. */
    method Clear()
      modifies this
      ensures State() == Cleared && Sent == old(Sent)
    {
      projects, stages, commentTasks, files, leads := [], [], [], [], [];
      employees, brochureProjects, brochurePages, pageComments, downloadHistory := [], [], [], [], [];
      loading := false;
    }

    /** The effect run whenever `isAuthenticated` or `user` changes: a
        refresh when both are set, otherwise sign-out clearing. */
    method OnAuthChange(isAuthenticated: bool, user: Option<User>, b: FetchBatch)
      modifies this
      ensures isAuthenticated && user.Some? ==>
                State() == Refreshed(old(State()), b, IsManager(user)) &&
                Sent == old(Sent) + RefreshRequests(IsManager(user))
      ensures !(isAuthenticated && user.Some?) ==> State() == Cleared && Sent == old(Sent)
      ensures GateHolds(old(State()), user) ==> GateHolds(State(), user)
    {
      if isAuthenticated && user.Some? {
        RefreshData(user, b);
      } else {
        Clear();
      }
    }

    // ------------------------------------------------------------ projects

    /** `createProject`: the insert, then the five default stages (whose
        result is not checked), then a full refresh. */
    method CreateProject(data: ProjectInsert, user: Option<User>, created: CreateResult, b: FetchBatch)
      returns (outcome: Outcome<()>)
      modifies this
      ensures created.CreateFailed? ==>
                outcome == Thrown(created.error) && State() == old(State()) &&
                Sent == old(Sent) + [InsertProject(data)]
      ensures created.Created? ==>
                outcome == Resolved(()) &&
                State() == (if user.Some? then Refreshed(old(State()), b, IsManager(user)) else old(State())) &&
                Sent == old(Sent) + [InsertProject(data), InsertStages(DefaultStages(created.id))] +
                        (if user.Some? then RefreshRequests(IsManager(user)) else [])
    {
      Sent := Sent + [InsertProject(data)];
      if created.CreateFailed? { return Thrown(created.error); }
      Sent := Sent + [InsertStages(DefaultStages(created.id))];
      RefreshData(user, b);
      return Resolved(());
    }

    method UpdateProject(id: Id, patch: ProjectPatch, write: WriteResult, f: Fetch<Project>)
      returns (outcome: Outcome<()>)
      modifies this
      ensures write.WriteFailed? ==>
                outcome == Thrown(write.error) && State() == old(State()) &&
                Sent == old(Sent) + [PatchProject(id, patch)]
      ensures write.Written? ==>
                outcome == Settled(f) && State() == old(State()).(projects := Reloaded(old(projects), f)) &&
                Sent == old(Sent) + [PatchProject(id, patch), Select(ProjectsTable)]
    {
      Sent := Sent + [PatchProject(id, patch)];
      if write.WriteFailed? { return Thrown(write.error); }
      outcome := LoadProjects(f);
    }

    /** `deleteProject`: the delete, then a full refresh. */
    method DeleteProject(id: Id, user: Option<User>, write: WriteResult, b: FetchBatch)
      returns (outcome: Outcome<()>)
      modifies this
      ensures write.WriteFailed? ==>
                outcome == Thrown(write.error) && State() == old(State()) &&
                Sent == old(Sent) + [RemoveProject(id)]
      ensures write.Written? ==>
                outcome == Resolved(()) &&
                State() == (if user.Some? then Refreshed(old(State()), b, IsManager(user)) else old(State())) &&
                Sent == old(Sent) + [RemoveProject(id)] +
                        (if user.Some? then RefreshRequests(IsManager(user)) else [])
    {
      Sent := Sent + [RemoveProject(id)];
      if write.WriteFailed? { return Thrown(write.error); }
      RefreshData(user, b);
      return Resolved(());
    }

    // -------------------------------------------------------------- stages

    method UpdateStageProgress(stageId: Id, progress: int, write: WriteResult, f: Fetch<Stage>)
      returns (outcome: Outcome<()>)
      modifies this
      ensures write.WriteFailed? ==>
                outcome == Thrown(write.error) && State() == old(State()) &&
                Sent == old(Sent) + [PatchStage(stageId, StagePatch(Some(progress), None))]
      ensures write.Written? ==>
                outcome == Settled(f) && State() == old(State()).(stages := Reloaded(old(stages), f)) &&
                Sent == old(Sent) + [PatchStage(stageId, StagePatch(Some(progress), None)), Select(StagesTable)]
    {
      Sent := Sent + [PatchStage(stageId, StagePatch(Some(progress), None))];
      if write.WriteFailed? { return Thrown(write.error); }
      outcome := LoadStages(f);
    }

    /** `updateStageApproval`: the status update; then, when a comment is
        given and the stage is cached, a comment task through
        `addCommentTask`; then the stages reload. Any failure rejects at once. */
    method UpdateStageApproval(stageId: Id, status: Approval, comment: Option<string>, user: Option<User>,
                               write: WriteResult, taskWrite: WriteResult, taskFetch: Fetch<CommentTask>,
                               stageFetch: Fetch<Stage>)
      returns (outcome: Outcome<()>)
      requires status != Pending
      modifies this
      ensures write.WriteFailed? ==>
                outcome == Thrown(write.error) && State() == old(State()) &&
                Sent == old(Sent) + [PatchStage(stageId, StagePatch(None, Some(status)))]
      ensures write.Written? && StageToComment(old(stages), stageId, comment).None? ==>
                outcome == Settled(stageFetch) &&
                State() == old(State()).(stages := Reloaded(old(stages), stageFetch)) &&
                Sent == old(Sent) + [PatchStage(stageId, StagePatch(None, Some(status))), Select(StagesTable)]
      ensures write.Written? && StageToComment(old(stages), stageId, comment).Some? && user.None? ==>
                outcome == Thrown(NullUserError) && State() == old(State()) &&
                Sent == old(Sent) + [PatchStage(stageId, StagePatch(None, Some(status)))]
      ensures write.Written? && StageToComment(old(stages), stageId, comment).Some? && user.Some? ==>
                var task := StageApprovalTask(StageToComment(old(stages), stageId, comment).value,
                                              stageId, comment.value, user.value);
                var head := old(Sent) + [PatchStage(stageId, StagePatch(None, Some(status))),
                                         InsertCommentTask(task)];
                && (taskWrite.WriteFailed? ==>
                      outcome == Thrown(taskWrite.error) && State() == old(State()) && Sent == head)
                && (taskWrite.Written? && taskFetch.FetchFailed? ==>
                      outcome == Thrown(taskFetch.error) && State() == old(State()) &&
                      Sent == head + [Select(CommentTasksTable)])
                && (taskWrite.Written? && taskFetch.Fetched? ==>
                      outcome == Settled(stageFetch) &&
                      State() == old(State()).(commentTasks := Rows(taskFetch),
                                               stages := Reloaded(old(stages), stageFetch)) &&
                      Sent == head + [Select(CommentTasksTable), Select(StagesTable)])
    {
      Sent := Sent + [PatchStage(stageId, StagePatch(None, Some(status)))];
      if write.WriteFailed? { return Thrown(write.error); }
      var stage := StageToComment(stages, stageId, comment);
      if stage.Some? {
        if user.None? { return Thrown(NullUserError); }
        var added := AddCommentTask(StageApprovalTask(stage.value, stageId, comment.value, user.value),
                                    taskWrite, taskFetch);
        if added.Thrown? { return added; }
      }
      outcome := LoadStages(stageFetch);
    }

    // ----------------------------------------------------- comment tasks

    method AddCommentTask(data: CommentTaskInsert, write: WriteResult, f: Fetch<CommentTask>)
      returns (outcome: Outcome<()>)
      modifies this
      ensures write.WriteFailed? ==>
                outcome == Thrown(write.error) && State() == old(State()) &&
                Sent == old(Sent) + [InsertCommentTask(data)]
      ensures write.Written? ==>
                outcome == Settled(f) &&
                State() == old(State()).(commentTasks := Reloaded(old(commentTasks), f)) &&
                Sent == old(Sent) + [InsertCommentTask(data), Select(CommentTasksTable)]
    {
      Sent := Sent + [InsertCommentTask(data)];
      if write.WriteFailed? { return Thrown(write.error); }
      outcome := LoadCommentTasks(f);
    }

    method UpdateCommentTaskStatus(taskId: Id, status: TaskStatus, write: WriteResult, f: Fetch<CommentTask>)
      returns (outcome: Outcome<()>)
      modifies this
      ensures write.WriteFailed? ==>
                outcome == Thrown(write.error) && State() == old(State()) &&
                Sent == old(Sent) + [PatchCommentTask(taskId, status)]
      ensures write.Written? ==>
                outcome == Settled(f) &&
                State() == old(State()).(commentTasks := Reloaded(old(commentTasks), f)) &&
                Sent == old(Sent) + [PatchCommentTask(taskId, status), Select(CommentTasksTable)]
    {
      Sent := Sent + [PatchCommentTask(taskId, status)];
      if write.WriteFailed? { return Thrown(write.error); }
      outcome := LoadCommentTasks(f);
    }

    // --------------------------------------------------------------- files

    method UploadFile(data: FileInsert, write: WriteResult, f: Fetch<StoredFile>)
      returns (outcome: Outcome<()>)
      modifies this
      ensures write.WriteFailed? ==>
                outcome == Thrown(write.error) && State() == old(State()) &&
                Sent == old(Sent) + [InsertFile(data)]
      ensures write.Written? ==>
                outcome == Settled(f) && State() == old(State()).(files := Reloaded(old(files), f)) &&
                Sent == old(Sent) + [InsertFile(data), Select(FilesTable)]
    {
      Sent := Sent + [InsertFile(data)];
      if write.WriteFailed? { return Thrown(write.error); }
      outcome := LoadFiles(f);
    }

    /** `downloadFile`: the counted update (which needs a user); a history
        record when the file is cached (its result is not checked); then both
        collections reload together, and the command rejects if either
        reload does. */
    method DownloadFile(fileId: Id, user: Option<User>, now: Time, write: WriteResult,
                        filesFetch: Fetch<StoredFile>, historyFetch: Fetch<DownloadRecord>)
      returns (outcome: Outcome<()>)
      modifies this
      ensures user.None? ==>
                outcome == Thrown(NullUserError) && State() == old(State()) && Sent == old(Sent)
      ensures user.Some? && write.WriteFailed? ==>
                outcome == Thrown(write.error) && State() == old(State()) &&
                Sent == old(Sent) + [CountDownload(fileId, now, user.value.id)]
      ensures user.Some? && write.Written? ==>
                var file := Find(old(files), (f: StoredFile) => f.id == fileId);
                && State() == old(State()).(files := Reloaded(old(files), filesFetch),
                                            downloadHistory := Reloaded(old(downloadHistory), historyFetch))
                && Sent == old(Sent) + [CountDownload(fileId, now, user.value.id)] +
                           (if file.Some? then [InsertDownload(DownloadEntry(fileId, user.value, file.value))]
                            else []) +
                           [Select(FilesTable), Select(DownloadHistoryTable)]
                && (outcome.Resolved? <==> filesFetch.Fetched? && historyFetch.Fetched?)
                && (outcome.Thrown? ==> outcome == Settled(filesFetch) || outcome == Settled(historyFetch))
    {
      if user.None? { return Thrown(NullUserError); }
      Sent := Sent + [CountDownload(fileId, now, user.value.id)];
      if write.WriteFailed? { return Thrown(write.error); }
      var file := Find(files, (f: StoredFile) => f.id == fileId);
      if file.Some? {
        Sent := Sent + [InsertDownload(DownloadEntry(fileId, user.value, file.value))];
      }
      var filesLoaded := LoadFiles(filesFetch);
      var historyLoaded := LoadDownloadHistory(historyFetch);
      outcome := if filesLoaded.Thrown? then filesLoaded else historyLoaded;
    }

    method UpdateFileMetadata(fileId: Id, patch: FilePatch, write: WriteResult, f: Fetch<StoredFile>)
      returns (outcome: Outcome<()>)
      modifies this
      ensures write.WriteFailed? ==>
                outcome == Thrown(write.error) && State() == old(State()) &&
                Sent == old(Sent) + [PatchFile(fileId, patch)]
      ensures write.Written? ==>
                outcome == Settled(f) && State() == old(State()).(files := Reloaded(old(files), f)) &&
                Sent == old(Sent) + [PatchFile(fileId, patch), Select(FilesTable)]
    {
      Sent := Sent + [PatchFile(fileId, patch)];
      if write.WriteFailed? { return Thrown(write.error); }
      outcome := LoadFiles(f);
    }

    // --------------------------------------------------------------- leads

    /** `createLead`: the lead is stamped with the signed-in user's id, which
        overrides any `created_by` the caller gave. */
    method CreateLead(data: LeadInsert, user: Option<User>, write: WriteResult, f: Fetch<Lead>)
      returns (outcome: Outcome<()>)
      modifies this
      ensures user.None? ==>
                outcome == Thrown(NullUserError) && State() == old(State()) && Sent == old(Sent)
      ensures user.Some? && write.WriteFailed? ==>
                outcome == Thrown(write.error) && State() == old(State()) &&
                Sent == old(Sent) + [InsertLead(data.(created_by := user.value.id))]
      ensures user.Some? && write.Written? && IsManager(user) ==>
                outcome == Settled(f) && State() == old(State()).(leads := Reloaded(old(leads), f)) &&
                Sent == old(Sent) + [InsertLead(data.(created_by := user.value.id)), Select(LeadsTable)]
      ensures user.Some? && write.Written? && !IsManager(user) ==>
                outcome == Resolved(()) && State() == old(State()) &&
                Sent == old(Sent) + [InsertLead(data.(created_by := user.value.id))]
    {
      if user.None? { return Thrown(NullUserError); }
      Sent := Sent + [InsertLead(data.(created_by := user.value.id))];
      if write.WriteFailed? { return Thrown(write.error); }
      outcome := LoadLeads(user, f);
    }

    method UpdateLead(id: Id, patch: LeadPatch, user: Option<User>, write: WriteResult, f: Fetch<Lead>)
      returns (outcome: Outcome<()>)
      modifies this
      ensures write.WriteFailed? ==>
                outcome == Thrown(write.error) && State() == old(State()) &&
                Sent == old(Sent) + [PatchLead(id, patch)]
      ensures write.Written? && IsManager(user) ==>
                outcome == Settled(f) && State() == old(State()).(leads := Reloaded(old(leads), f)) &&
                Sent == old(Sent) + [PatchLead(id, patch), Select(LeadsTable)]
      ensures write.Written? && !IsManager(user) ==>
                outcome == Resolved(()) && State() == old(State()) &&
                Sent == old(Sent) + [PatchLead(id, patch)]
    {
      Sent := Sent + [PatchLead(id, patch)];
      if write.WriteFailed? { return Thrown(write.error); }
      outcome := LoadLeads(user, f);
    }

    method DeleteLead(id: Id, user: Option<User>, write: WriteResult, f: Fetch<Lead>)
      returns (outcome: Outcome<()>)
      modifies this
      ensures write.WriteFailed? ==>
                outcome == Thrown(write.error) && State() == old(State()) &&
                Sent == old(Sent) + [RemoveLead(id)]
      ensures write.Written? && IsManager(user) ==>
                outcome == Settled(f) && State() == old(State()).(leads := Reloaded(old(leads), f)) &&
                Sent == old(Sent) + [RemoveLead(id), Select(LeadsTable)]
      ensures write.Written? && !IsManager(user) ==>
                outcome == Resolved(()) && State() == old(State()) &&
                Sent == old(Sent) + [RemoveLead(id)]
    {
      Sent := Sent + [RemoveLead(id)];
      if write.WriteFailed? { return Thrown(write.error); }
      outcome := LoadLeads(user, f);
    }

    // ----------------------------------------------------------- brochures

    /** `createBrochureProject`: resolves with the new project's id once the
        brochure projects have reloaded. */
    method CreateBrochureProject(clientId: Id, clientName: string, created: CreateResult,
                                 f: Fetch<BrochureProject>)
      returns (outcome: Outcome<Id>)
      modifies this
      ensures created.CreateFailed? ==>
                outcome == Thrown(created.error) && State() == old(State()) &&
                Sent == old(Sent) + [InsertBrochureProject(clientId, clientName)]
      ensures created.Created? ==>
                State() == old(State()).(brochureProjects := Reloaded(old(brochureProjects), f)) &&
                Sent == old(Sent) + [InsertBrochureProject(clientId, clientName), Select(BrochureProjectsTable)] &&
                outcome == (if f.Fetched? then Resolved(created.id) else Thrown(f.error))
    {
      Sent := Sent + [InsertBrochureProject(clientId, clientName)];
      if created.CreateFailed? { return Thrown(created.error); }
      var loaded := LoadBrochureProjects(f);
      if loaded.Thrown? { return Thrown(loaded.error); }
      return Resolved(created.id);
    }

    method UpdateBrochureProject(id: Id, patch: BrochureProjectPatch, write: WriteResult,
                                 f: Fetch<BrochureProject>)
      returns (outcome: Outcome<()>)
      modifies this
      ensures write.WriteFailed? ==>
                outcome == Thrown(write.error) && State() == old(State()) &&
                Sent == old(Sent) + [PatchBrochureProject(id, patch)]
      ensures write.Written? ==>
                outcome == Settled(f) &&
                State() == old(State()).(brochureProjects := Reloaded(old(brochureProjects), f)) &&
                Sent == old(Sent) + [PatchBrochureProject(id, patch), Select(BrochureProjectsTable)]
    {
      Sent := Sent + [PatchBrochureProject(id, patch)];
      if write.WriteFailed? { return Thrown(write.error); }
      outcome := LoadBrochureProjects(f);
    }

    method SaveBrochurePage(data: BrochurePageInsert, write: WriteResult, f: Fetch<BrochurePage>)
      returns (outcome: Outcome<()>)
      modifies this
      ensures write.WriteFailed? ==>
                outcome == Thrown(write.error) && State() == old(State()) &&
                Sent == old(Sent) + [UpsertBrochurePage(data)]
      ensures write.Written? ==>
                outcome == Settled(f) &&
                State() == old(State()).(brochurePages := Reloaded(old(brochurePages), f)) &&
                Sent == old(Sent) + [UpsertBrochurePage(data), Select(BrochurePagesTable)]
    {
      Sent := Sent + [UpsertBrochurePage(data)];
      if write.WriteFailed? { return Thrown(write.error); }
      outcome := LoadBrochurePages(f);
    }

    method AddPageComment(data: PageCommentInsert, write: WriteResult, f: Fetch<PageComment>)
      returns (outcome: Outcome<()>)
      modifies this
      ensures write.WriteFailed? ==>
                outcome == Thrown(write.error) && State() == old(State()) &&
                Sent == old(Sent) + [InsertPageComment(data)]
      ensures write.Written? ==>
                outcome == Settled(f) &&
                State() == old(State()).(pageComments := Reloaded(old(pageComments), f)) &&
                Sent == old(Sent) + [InsertPageComment(data), Select(PageCommentsTable)]
    {
      Sent := Sent + [InsertPageComment(data)];
      if write.WriteFailed? { return Thrown(write.error); }
      outcome := LoadPageComments(f);
    }

    /** `approveBrochurePage`: the status update; then, when a comment is
        given, an approval comment through `addPageComment`; then the pages
        reload. Any failure rejects at once. */
    method ApproveBrochurePage(pageId: Id, status: Approval, comment: Option<string>, user: Option<User>,
                               write: WriteResult, commentWrite: WriteResult,
                               commentFetch: Fetch<PageComment>, pageFetch: Fetch<BrochurePage>)
      returns (outcome: Outcome<()>)
      requires status != Pending
      modifies this
      ensures write.WriteFailed? ==>
                outcome == Thrown(write.error) && State() == old(State()) &&
                Sent == old(Sent) + [PatchBrochurePage(pageId, ApprovalPatch(status))]
      ensures write.Written? && !Truthy(comment) ==>
                outcome == Settled(pageFetch) &&
                State() == old(State()).(brochurePages := Reloaded(old(brochurePages), pageFetch)) &&
                Sent == old(Sent) + [PatchBrochurePage(pageId, ApprovalPatch(status)), Select(BrochurePagesTable)]
      ensures write.Written? && Truthy(comment) && user.None? ==>
                outcome == Thrown(NullUserError) && State() == old(State()) &&
                Sent == old(Sent) + [PatchBrochurePage(pageId, ApprovalPatch(status))]
      ensures write.Written? && Truthy(comment) && user.Some? ==>
                var record := PageApprovalComment(pageId, status, comment.value, user, user.value);
                var head := old(Sent) + [PatchBrochurePage(pageId, ApprovalPatch(status)),
                                         InsertPageComment(record)];
                && (commentWrite.WriteFailed? ==>
                      outcome == Thrown(commentWrite.error) && State() == old(State()) && Sent == head)
                && (commentWrite.Written? && commentFetch.FetchFailed? ==>
                      outcome == Thrown(commentFetch.error) && State() == old(State()) &&
                      Sent == head + [Select(PageCommentsTable)])
                && (commentWrite.Written? && commentFetch.Fetched? ==>
                      outcome == Settled(pageFetch) &&
                      State() == old(State()).(pageComments := Rows(commentFetch),
                                               brochurePages := Reloaded(old(brochurePages), pageFetch)) &&
                      Sent == head + [Select(PageCommentsTable), Select(BrochurePagesTable)])
    {
      Sent := Sent + [PatchBrochurePage(pageId, ApprovalPatch(status))];
      if write.WriteFailed? { return Thrown(write.error); }
      if Truthy(comment) {
        if user.None? { return Thrown(NullUserError); }
        var added := AddPageComment(PageApprovalComment(pageId, status, comment.value, user, user.value),
                                    commentWrite, commentFetch);
        if added.Thrown? { return added; }
      }
      outcome := LoadBrochurePages(pageFetch);
    }

    /** `lockBrochurePage`: an unconditional update naming the signed-in user
        as holder since `now`, then the pages reload. */
    method LockBrochurePage(pageId: Id, user: Option<User>, now: Time, write: WriteResult,
                            f: Fetch<BrochurePage>)
      returns (outcome: Outcome<()>)
      modifies this
      ensures user.None? ==>
                outcome == Thrown(NullUserError) && State() == old(State()) && Sent == old(Sent)
      ensures user.Some? && write.WriteFailed? ==>
                outcome == Thrown(write.error) && State() == old(State()) &&
                Sent == old(Sent) + [PatchBrochurePage(pageId, LockPatch(user.value, now))]
      ensures user.Some? && write.Written? ==>
                outcome == Settled(f) &&
                State() == old(State()).(brochurePages := Reloaded(old(brochurePages), f)) &&
                Sent == old(Sent) + [PatchBrochurePage(pageId, LockPatch(user.value, now)),
                                     Select(BrochurePagesTable)]
    {
      if user.None? { return Thrown(NullUserError); }
      Sent := Sent + [PatchBrochurePage(pageId, LockPatch(user.value, now))];
      if write.WriteFailed? { return Thrown(write.error); }
      outcome := LoadBrochurePages(f);
    }

    /** `unlockBrochurePage`: an unconditional update clearing the lock and
        its holder, then the pages reload. */
    method UnlockBrochurePage(pageId: Id, write: WriteResult, f: Fetch<BrochurePage>)
      returns (outcome: Outcome<()>)
      modifies this
      ensures write.WriteFailed? ==>
                outcome == Thrown(write.error) && State() == old(State()) &&
                Sent == old(Sent) + [PatchBrochurePage(pageId, UnlockPatch())]
      ensures write.Written? ==>
                outcome == Settled(f) &&
                State() == old(State()).(brochurePages := Reloaded(old(brochurePages), f)) &&
                Sent == old(Sent) + [PatchBrochurePage(pageId, UnlockPatch()), Select(BrochurePagesTable)]
    {
      Sent := Sent + [PatchBrochurePage(pageId, UnlockPatch())];
      if write.WriteFailed? { return Thrown(write.error); }
      outcome := LoadBrochurePages(f);
    }
  }
}
