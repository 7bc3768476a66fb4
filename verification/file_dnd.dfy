/**
 * The single-entry drag-and-drop hook of src/hooks/use-file-dnd.ts: a row drags
 * itself alone, accepts a drop when it is a folder other than the dragged entry,
 * stages the move and hands it to `onMove` on confirmation. Unlike the
 * multi-selection hook it does not look at the breadcrumb trail.
 */
module FileDnd {
  import opened Wrappers
  import opened Files

  /** The payload of a drag: `{id, type, name}`. */
  datatype DropItem = DropItem(kind: FileKind, id: FileId, name: string)

  datatype PendingMove = PendingMove(sourceId: FileId, sourceName: string, targetId: FileId)

  /** The arguments of one `onMove(sourceId, targetId)` call. */
  datatype MoveCall = MoveCall(sourceId: FileId, targetId: FileId)

  /** The payload a row drags: the row itself. */
  function DragPayload(file: FileInfo): (item: DropItem)
    ensures item.id == file.id && item.kind == file.kind && item.name == file.name
  {
    DropItem(file.kind, file.id, file.name)
  }

  /** A drop onto `target` is staged exactly when the target is a folder other than the dragged entry. */
  predicate AcceptsDrop(target: FileInfo, item: DropItem) {
    target.kind == Folder && item.id != target.id
  }

  /** `pendingMove` after a drop onto `target`. */
  function AfterDrop(pending: Option<PendingMove>, target: FileInfo, item: DropItem): (r: Option<PendingMove>)
    ensures r != pending ==> r == Some(PendingMove(item.id, item.name, target.id))
    ensures r != pending ==> target.kind == Folder && item.id != target.id
    ensures AcceptsDrop(target, item) ==> r == Some(PendingMove(item.id, item.name, target.id))
    ensures !AcceptsDrop(target, item) ==> r == pending
  {
    if AcceptsDrop(target, item) then Some(PendingMove(item.id, item.name, target.id)) else pending
  }

  /** A row's own payload dropped back on it never stages a move, folder or not. */
  lemma OwnPayloadRejected(pending: Option<PendingMove>, file: FileInfo)
    ensures AfterDrop(pending, file, DragPayload(file)) == pending
  {
  }

  /** Any staged move has a folder target different from its source. */
  lemma StagedMoveIsNotSelfMove(pending: Option<PendingMove>, target: FileInfo, item: DropItem)
    requires pending.None? || pending.value.sourceId != pending.value.targetId
    ensures var r := AfterDrop(pending, target, item); r.None? || r.value.sourceId != r.value.targetId
  {
  }

  /** The state of one row that uses the hook. */
  class FileDndRow {
    const file: FileInfo
    var pendingMove: Option<PendingMove>

    constructor (file: FileInfo)
      ensures this.file == file && pendingMove == None
    {
      this.file := file;
      pendingMove := None;
    }

    /** The `drop` callback of `useDrop` on this row. */
    method Drop(item: DropItem)
      modifies this`pendingMove
      ensures pendingMove == AfterDrop(old(pendingMove), file, item)
    {
      if file.kind == Folder && item.id != file.id {
        pendingMove := Some(PendingMove(item.id, item.name, file.id));
      }
    }

    /** `confirmMove`: call `onMove(sourceId, targetId)` once (returned as the call made) and clear the staged move. */
    method ConfirmMove() returns (call: Option<MoveCall>)
      modifies this`pendingMove
      ensures old(pendingMove).None? ==> call.None? && pendingMove.None?
      ensures old(pendingMove).Some? ==>
        call == Some(MoveCall(old(pendingMove).value.sourceId, old(pendingMove).value.targetId)) && pendingMove.None?
    {
      call := None;
      if pendingMove.Some? {
        call := Some(MoveCall(pendingMove.value.sourceId, pendingMove.value.targetId));
        pendingMove := None;
      }
    }
  }
}
