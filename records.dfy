/** Row, insert and patch shapes of the ten tables the dashboard works with
    (src/lib/database.types.ts), plus the small Option wrapper they need.

    Conventions:
    - identifiers are opaque strings;
    - ISO-8601 timestamps are abstracted to integer instants (`Time`);
    - a nullable column is an `Option`, with `None` standing for SQL null;
    - in an insert, an optional column the caller may leave out is an `Option`
      too, `None` meaning "left to the server's default"; for a nullable
      optional column, whose default is null, `None` stands for both;
    - an insert lists every column its table's insert type declares except
      the generated `id` and the timestamps the server stamps. */
module Records {

  datatype Option<+T> = None | Some(value: T)

  type Id = string
  type Time = int
  /** A JSON document stored in a column; its structure plays no part here. */
  type Json = string

  datatype Role = Manager | Employee | Client
  datatype ProjectStatus = Active | Completed | OnHold
  datatype Priority = Low | Medium | High
  datatype Approval = Pending | Approved | Rejected
  datatype TaskStatus = Open | InProgress | Done
  datatype FileCategory = Reference | Content | Assets | Requirements | Other
  /** `Finished` is the brochure status stored as 'completed'. */
  datatype BrochureStatus = Draft | ReadyForDesign | InDesign | Finished
  datatype ActionType = CommentAction | LockAction | UnlockAction | ApprovalAction

  // ---------------------------------------------------------------- rows

  datatype User = User(
    id: Id, name: string, email: string, role: Role,
    created_at: Time, updated_at: Time)

  datatype Project = Project(
    id: Id, title: string, description: string,
    client_id: Id, client_name: string, deadline: string,
    progress_percentage: int, assigned_employees: seq<Id>,
    created_at: Time, updated_at: Time,
    status: ProjectStatus, priority: Priority)

  datatype Stage = Stage(
    id: Id, project_id: Id, name: string, notes: string,
    progress_percentage: int, approval_status: Approval, order: int,
    created_at: Time, updated_at: Time)

  datatype CommentTask = CommentTask(
    id: Id, stage_id: Option<Id>, project_id: Id, text: string,
    added_by: Id, author_name: string, author_role: Role,
    status: TaskStatus, assigned_to: Option<Id>, deadline: Option<string>,
    timestamp: Time, is_global: bool)

  datatype StoredFile = StoredFile(
    id: Id, stage_id: Option<Id>, project_id: Id,
    filename: string, file_url: string,
    uploaded_by: Id, uploader_name: string, timestamp: Time,
    size: int, file_type: string, category: FileCategory,
    description: Option<string>, download_count: int,
    last_downloaded: Option<Time>, last_downloaded_by: Option<Id>,
    is_archived: bool, tags: seq<string>)

  datatype Lead = Lead(
    id: Id, name: string, contact_info: string, estimated_amount: int,
    notes: string, created_at: Time, updated_at: Time, created_by: Id)

  datatype BrochureProject = BrochureProject(
    id: Id, client_id: Id, client_name: string, status: BrochureStatus,
    created_at: Time, updated_at: Time)

  datatype BrochurePage = BrochurePage(
    id: Id, project_id: Id, page_number: int, approval_status: Approval,
    is_locked: bool, locked_by: Option<Id>, locked_by_name: Option<string>,
    locked_at: Option<Time>, content: Json,
    created_at: Time, updated_at: Time)

  datatype PageComment = PageComment(
    id: Id, page_id: Id, text: string,
    added_by: Id, author_name: string, author_role: Role,
    timestamp: Time, marked_done: bool, action_type: Option<ActionType>)

  datatype DownloadRecord = DownloadRecord(
    id: Id, file_id: Id, downloaded_by: Id, downloader_name: string,
    download_date: Time, file_name: string, file_size: int)

  // ------------------------------------------------------------- inserts

  datatype ProjectInsert = ProjectInsert(
    title: string, description: string,
    client_id: Id, client_name: string, deadline: string,
    progress_percentage: Option<int>, assigned_employees: Option<seq<Id>>,
    status: Option<ProjectStatus>, priority: Option<Priority>)

  datatype StageInsert = StageInsert(
    project_id: Id, name: string, order: int,
    notes: Option<string>, progress_percentage: Option<int>,
    approval_status: Option<Approval>)

  datatype CommentTaskInsert = CommentTaskInsert(
    stage_id: Option<Id>, project_id: Id, text: string,
    added_by: Id, author_name: string, author_role: Role,
    status: Option<TaskStatus>, assigned_to: Option<Id>,
    deadline: Option<string>, is_global: Option<bool>)

  datatype FileInsert = FileInsert(
    stage_id: Option<Id>, project_id: Id,
    filename: string, file_url: string,
    uploaded_by: Id, uploader_name: string,
    size: int, file_type: string, category: Option<FileCategory>,
    description: Option<string>, download_count: Option<int>,
    last_downloaded: Option<Time>, last_downloaded_by: Option<Id>,
    is_archived: Option<bool>, tags: Option<seq<string>>)

  datatype LeadInsert = LeadInsert(
    name: string, contact_info: string, estimated_amount: int,
    notes: Option<string>, created_by: Id)

  datatype BrochurePageInsert = BrochurePageInsert(
    project_id: Id, page_number: int, approval_status: Option<Approval>,
    is_locked: Option<bool>, locked_by: Option<Id>, locked_by_name: Option<string>,
    locked_at: Option<Time>, content: Option<Json>)

  datatype PageCommentInsert = PageCommentInsert(
    page_id: Id, text: string,
    added_by: Id, author_name: string, author_role: Role,
    marked_done: Option<bool>, action_type: Option<ActionType>)

  datatype DownloadInsert = DownloadInsert(
    file_id: Id, downloaded_by: Id, downloader_name: string,
    file_name: string, file_size: int)

  // ------------------------------------------------------------- patches
  // A patch lists the columns an update overwrites: `Some` overwrites,
  // `None` leaves the column as it is. A nullable column is patched with an
  // `Option<Option<_>>`, so that "set to null" is `Some(None)`.

  datatype ProjectPatch = ProjectPatch(
    title: Option<string>, description: Option<string>,
    client_id: Option<Id>, client_name: Option<string>, deadline: Option<string>,
    progress_percentage: Option<int>, assigned_employees: Option<seq<Id>>,
    status: Option<ProjectStatus>, priority: Option<Priority>)

  datatype StagePatch = StagePatch(
    progress_percentage: Option<int>, approval_status: Option<Approval>)

  datatype FilePatch = FilePatch(
    filename: Option<string>, category: Option<FileCategory>,
    description: Option<Option<string>>, is_archived: Option<bool>,
    tags: Option<seq<string>>)

  datatype LeadPatch = LeadPatch(
    name: Option<string>, contact_info: Option<string>,
    estimated_amount: Option<int>, notes: Option<string>)

  datatype BrochureProjectPatch = BrochureProjectPatch(
    client_name: Option<string>, status: Option<BrochureStatus>)

  datatype PagePatch = PagePatch(
    approval_status: Option<Approval>,
    is_locked: Option<bool>,
    locked_by: Option<Option<Id>>,
    locked_by_name: Option<Option<string>>,
    locked_at: Option<Option<Time>>)
}
