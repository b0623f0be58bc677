/** The records and patches the data context's commands send to the remote
    store (src/context/SupabaseDataContext.tsx), built as plain values, and the
    rule by which a patch overwrites a row's columns. */
module ContextViews {
  import opened Records
  import opened Sequences

  // ------------------------------------------------------ createProject

  /** The names of the stages every new project starts with, in order. */
  const DefaultStageNames: seq<string> := ["Planning", "Design", "Development", "QC", "Launch"]

  /** The `defaultStages` list: each name paired with its position. */
  function DefaultStagePlan(): (plan: seq<(string, int)>)
    ensures |plan| == |DefaultStageNames|
    ensures forall i :: 0 <= i < |plan| ==> plan[i] == (DefaultStageNames[i], i)
  {
    [("Planning", 0), ("Design", 1), ("Development", 2), ("QC", 3), ("Launch", 4)]
  }

  /** `defaultStages.map(stage => ({ project_id, name, order, notes: '',
      progress_percentage: 0, approval_status: 'pending' }))`. */
  function StageInserts(projectId: Id, plan: seq<(string, int)>): (r: seq<StageInsert>)
    ensures |r| == |plan|
    ensures forall i :: 0 <= i < |plan| ==>
              r[i].project_id == projectId && r[i].name == plan[i].0 && r[i].order == plan[i].1 &&
              r[i].notes == Some("") && r[i].progress_percentage == Some(0) &&
              r[i].approval_status == Some(Pending)
  {
    if plan == [] then []
    else
      [StageInsert(projectId, plan[0].0, plan[0].1, Some(""), Some(0), Some(Pending))]
      + StageInserts(projectId, plan[1..])
  }

  /** The five stage records inserted for a freshly created project. */
  function DefaultStages(projectId: Id): (r: seq<StageInsert>)
    ensures |r| == 5
    ensures forall i :: 0 <= i < 5 ==>
              r[i] == StageInsert(projectId, DefaultStageNames[i], i, Some(""), Some(0), Some(Pending))
  {
    StageInserts(projectId, DefaultStagePlan())
  }

  // -------------------------------------------------------- approvals

  /** JavaScript truthiness of the optional `comment?: string` argument. */
  predicate Truthy(comment: Option<string>) {
    comment.Some? && comment.value != ""
  }

  /** The cached stage `updateStageApproval` attaches its comment to: the
      first stage with the given id, and only when a comment was given. */
  function StageToComment(stages: seq<Stage>, stageId: Id, comment: Option<string>): (r: Option<Stage>)
    ensures r.Some? <==> Truthy(comment) && exists i :: 0 <= i < |stages| && stages[i].id == stageId
    ensures r.Some? ==> exists i :: 0 <= i < |stages| && stages[i] == r.value && stages[i].id == stageId &&
                                    forall j :: 0 <= j < i ==> stages[j].id != stageId
  {
    if Truthy(comment) then Find(stages, (s: Stage) => s.id == stageId) else None
  }

  /** The comment task recording a stage decision: it belongs to the stage's
      project, carries the comment verbatim and is authored by `u`. */
  function StageApprovalTask(stage: Stage, stageId: Id, comment: string, u: User): (t: CommentTaskInsert)
    ensures t.stage_id == Some(stageId) && t.project_id == stage.project_id && t.text == comment
    ensures t.added_by == u.id && t.author_name == u.name && t.author_role == u.role
    ensures t.status == Some(Open)
    ensures t.assigned_to.None? && t.deadline.None? && t.is_global.None?
  {
    CommentTaskInsert(Some(stageId), stage.project_id, comment, u.id, u.name, u.role,
                      Some(Open), None, None, None)
  }

  /** `user?.name || 'Manager'`. */
  function DisplayName(user: Option<User>): (who: string)
    ensures who != ""
    ensures user.Some? && user.value.name != "" ==> who == user.value.name
    ensures !(user.Some? && user.value.name != "") ==> who == "Manager"
  {
    if user.Some? && user.value.name != "" then user.value.name else "Manager"
  }

  const ApprovedPrefix: string := "Page has been approved by "
  const ChangesPrefix: string := "Page requires changes - "

  /** The text of the comment `approveBrochurePage` records: the decision's
      prefix, then who decided, then `": "`, then the comment. */
  function ApprovalText(status: Approval, who: string, comment: string): (text: string)
    ensures var prefix := if status == Approved then ApprovedPrefix else ChangesPrefix;
            && |text| == |prefix| + |who| + 2 + |comment|
            && text[..|prefix|] == prefix
            && text[|prefix|..|prefix| + |who|] == who
            && text[|prefix| + |who|..|prefix| + |who| + 2] == ": "
            && text[|prefix| + |who| + 2..] == comment
  {
    var prefix := if status == Approved then ApprovedPrefix else ChangesPrefix;
    var text := prefix + who + ": " + comment;
    assert text == prefix + (who + (": " + comment));
    text
  }

  /** The page comment recording a page decision. */
  function PageApprovalComment(pageId: Id, status: Approval, comment: string, user: Option<User>, u: User)
    : (c: PageCommentInsert)
    ensures c.page_id == pageId && c.text == ApprovalText(status, DisplayName(user), comment)
    ensures c.added_by == u.id && c.author_name == u.name && c.author_role == u.role
    ensures c.marked_done == Some(false) && c.action_type == Some(ApprovalAction)
  {
    PageCommentInsert(pageId, ApprovalText(status, DisplayName(user), comment),
                      u.id, u.name, u.role, Some(false), Some(ApprovalAction))
  }

  /** A decision's text tells which decision was taken: an approval starts
      with the approval prefix and never with the other one, and conversely;
      both end with the comment itself. */
  lemma ApprovalTextShape(status: Approval, who: string, comment: string)
    ensures var text := ApprovalText(status, who, comment);
            var prefix := if status == Approved then ApprovedPrefix else ChangesPrefix;
            var other := if status == Approved then ChangesPrefix else ApprovedPrefix;
            && |prefix| <= |text| && text[..|prefix|] == prefix
            && !(|other| <= |text| && text[..|other|] == other)
            && |comment| <= |text| && text[|text| - |comment|..] == comment
  {
    var text := ApprovalText(status, who, comment);
    var prefix := if status == Approved then ApprovedPrefix else ChangesPrefix;
    var other := if status == Approved then ChangesPrefix else ApprovedPrefix;
    assert text == prefix + (who + ": " + comment);
    assert text[..|prefix|] == prefix;
    assert ApprovedPrefix[5] != ChangesPrefix[5];
    assert |other| <= |text| ==> text[..|other|][5] == prefix[5] != other[5];
    assert text == (prefix + who + ": ") + comment;
  }

  // ---------------------------------------------------------- locking

  /** `{ approval_status: status }`: sets the decision and nothing else. */
  function ApprovalPatch(status: Approval): (patch: PagePatch)
    ensures forall p :: ApplyPagePatch(p, patch) == p.(approval_status := status)
  {
    PagePatch(Some(status), None, None, None, None)
  }

  /** `{ is_locked: true, locked_by: user.id, locked_by_name: user.name, locked_at: now }`:
      marks the page as held by `u` since `now`, and changes nothing else. */
  function LockPatch(u: User, now: Time): (patch: PagePatch)
    ensures forall p :: ApplyPagePatch(p, patch) ==
              p.(is_locked := true, locked_by := Some(u.id), locked_by_name := Some(u.name),
                 locked_at := Some(now))
  {
    PagePatch(None, Some(true), Some(Some(u.id)), Some(Some(u.name)), Some(Some(now)))
  }

  /** `{ is_locked: false, locked_by: null, locked_by_name: null, locked_at: null }`:
      releases the page, leaving no holder, and changes nothing else. */
  function UnlockPatch(): (patch: PagePatch)
    ensures forall p :: ApplyPagePatch(p, patch) ==
              p.(is_locked := false, locked_by := None, locked_by_name := None, locked_at := None)
  {
    PagePatch(None, Some(false), Some(None), Some(None), Some(None))
  }

  function Patched<V>(current: V, update: Option<V>): V {
    if update.Some? then update.value else current
  }

  /** What an update with `patch` does to one page row: every column the patch
      names is overwritten, every other column is kept. */
  function ApplyPagePatch(p: BrochurePage, patch: PagePatch): (q: BrochurePage)
    ensures q.id == p.id && q.project_id == p.project_id && q.page_number == p.page_number
    ensures q.content == p.content
  {
    p.(approval_status := Patched(p.approval_status, patch.approval_status),
       is_locked := Patched(p.is_locked, patch.is_locked),
       locked_by := Patched(p.locked_by, patch.locked_by),
       locked_by_name := Patched(p.locked_by_name, patch.locked_by_name),
       locked_at := Patched(p.locked_at, patch.locked_at))
  }

  /** Unlocking a locked page leaves it unlocked with no holder, and otherwise
      as it was before the lock. */
  lemma LockThenUnlock(p: BrochurePage, u: User, now: Time)
    ensures ApplyPagePatch(ApplyPagePatch(p, LockPatch(u, now)), UnlockPatch()) ==
            p.(is_locked := false, locked_by := None, locked_by_name := None, locked_at := None)
  {
  }

  // -------------------------------------------------------- downloads

  /** The download-history record for one download of `f` by `u`. */
  function DownloadEntry(fileId: Id, u: User, f: StoredFile): (d: DownloadInsert)
    ensures d.file_id == fileId && d.downloaded_by == u.id && d.downloader_name == u.name
    ensures d.file_name == f.filename && d.file_size == f.size
  {
    DownloadInsert(fileId, u.id, u.name, f.filename, f.size)
  }
}
