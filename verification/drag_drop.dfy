/** Entry shapes shared by the file-manager hooks (the `FileInfoVO` record of src/interface/files.ts). */
module Files {
  type FileId = string

  datatype FileKind = Folder | File

  /** The fields of a listing entry the drag-and-drop hooks read. */
  datatype FileInfo = FileInfo(id: FileId, kind: FileKind, name: string)

  /** One folder of the breadcrumb trail shown above the listing. */
  datatype Crumb = Crumb(id: FileId, name: string)
}

/**
 * The multi-selection drag-and-drop hook of src/hooks/use-drag-drop.ts: a row
 * builds a drag payload from the current selection, decides whether a drop onto
 * it is an acceptable move, stages that move, and hands it to `onMove` when the
 * user confirms.
 */
module DragDrop {
  import opened Wrappers
  import opened JsStrings
  import opened Files

  datatype DragType = Multi | Single(kind: FileKind)

  /**
   * What a drop handler receives. Rows of this hook drag `{ids, type, name}`;
   * an item without `ids` carries a single `id` instead.
   */
  datatype DropItem =
    | WithIds(ids: seq<FileId>, itemType: DragType, name: string)
    | WithId(id: FileId, itemType: DragType, name: string)

  /** A move staged for confirmation (the `MoveOperation` the confirm dialog shows). */
  datatype MoveOperation = MoveOperation(sourceIds: seq<FileId>, sourceName: string, targetId: FileId)

  /** The arguments of one `onMove` call. */
  datatype MoveCall = MoveCall(sourceIds: seq<FileId>, targetId: FileId)

  /** The label of a multi-file drag: the count followed by "个文件" ("files"). */
  function CountLabel(n: nat): string {
    Decimal(n) + "个文件"
  }

  /** The drag payload of row `file`: the whole selection when the row is part of a selection of several, otherwise the row alone. */
  function DragPayload(file: FileInfo, selectedIds: seq<FileId>): (item: DropItem)
    ensures item.WithIds?
    ensures item.itemType == Multi <==> file.id in selectedIds && |selectedIds| > 1
    ensures item.itemType == Multi ==> item.ids == selectedIds && item.name == CountLabel(|selectedIds|)
    ensures item.itemType != Multi ==> item == WithIds([file.id], Single(file.kind), file.name)
  {
    if file.id in selectedIds && |selectedIds| > 1 then
      WithIds(selectedIds, Multi, CountLabel(|selectedIds|))
    else
      WithIds([file.id], Single(file.kind), file.name)
  }

  /** `item.ids || [item.id]`; an empty `ids` array is truthy in JavaScript and is kept. */
  function DraggedIds(item: DropItem): (ids: seq<FileId>)
    ensures item.WithId? ==> ids == [item.id]
    ensures item.WithIds? ==> ids == item.ids
  {
    match item
    case WithIds(ids, _, _) => ids
    case WithId(id, _, _) => [id]
  }

  /** Some folder of the breadcrumb trail is being dragged. */
  predicate MovesAncestor(path: seq<Crumb>, dragged: seq<FileId>) {
    exists k :: 0 <= k < |path| && path[k].id in dragged
  }

  /** A drop onto `target` is staged: the target is a folder, is not dragged itself, and no breadcrumb folder is dragged. */
  predicate AcceptsDrop(target: FileInfo, item: DropItem, path: seq<Crumb>) {
    var dragged := DraggedIds(item);
    target.kind == Folder && target.id !in dragged && !MovesAncestor(path, dragged)
  }

  /** The move a drop onto `target` stages when accepted. */
  function StagedMove(target: FileInfo, item: DropItem): (m: MoveOperation)
    ensures m.sourceIds == DraggedIds(item) && m.targetId == target.id
    ensures |m.sourceIds| > 1 ==> m.sourceName == CountLabel(|m.sourceIds|)
    ensures |m.sourceIds| <= 1 ==> m.sourceName == item.name
  {
    var dragged := DraggedIds(item);
    MoveOperation(dragged, if |dragged| > 1 then CountLabel(|dragged|) else item.name, target.id)
  }

  /** `pendingMove` after a drop: the staged move when accepted, otherwise whatever was pending. */
  function AfterDrop(pending: Option<MoveOperation>, target: FileInfo, item: DropItem, path: seq<Crumb>): (r: Option<MoveOperation>)
    ensures r.Some? && r != pending ==> target.kind == Folder
    ensures !AcceptsDrop(target, item, path) ==> r == pending
    ensures AcceptsDrop(target, item, path) ==> r == Some(StagedMove(target, item))
  {
    if AcceptsDrop(target, item, path) then Some(StagedMove(target, item)) else pending
  }

  /** A staged move never targets one of its own sources nor takes a folder of the breadcrumb trail along. */
  lemma StagedMoveIsAcyclic(pending: Option<MoveOperation>, target: FileInfo, item: DropItem, path: seq<Crumb>)
    requires AcceptsDrop(target, item, path)
    ensures AfterDrop(pending, target, item, path).Some?
    ensures AfterDrop(pending, target, item, path).value.targetId !in AfterDrop(pending, target, item, path).value.sourceIds
    ensures forall k :: 0 <= k < |path| ==> path[k].id !in AfterDrop(pending, target, item, path).value.sourceIds
  {
  }

  /** Dropping a selection onto a row that is itself dragged (self-move) never stages anything. */
  lemma SelfDropRejected(pending: Option<MoveOperation>, target: FileInfo, item: DropItem, path: seq<Crumb>)
    requires target.id in DraggedIds(item)
    ensures AfterDrop(pending, target, item, path) == pending
  {
  }

  /** Dragging a folder into one of its descendants (shown by that folder on the breadcrumb trail) never stages anything. */
  lemma DescendantDropRejected(pending: Option<MoveOperation>, target: FileInfo, item: DropItem, path: seq<Crumb>, k: nat)
    requires k < |path| && path[k].id in DraggedIds(item)
    ensures AfterDrop(pending, target, item, path) == pending
  {
  }

  /** The payload a row builds always contains that row, so dropping it back onto the row it came from is rejected. */
  lemma {:induction false} OwnPayloadRejected(pending: Option<MoveOperation>, file: FileInfo, selectedIds: seq<FileId>, path: seq<Crumb>)
    ensures file.id in DraggedIds(DragPayload(file, selectedIds))
    ensures AfterDrop(pending, file, DragPayload(file, selectedIds), path) == pending
  {
    var item := DragPayload(file, selectedIds);
    assert file.id in DraggedIds(item);
    SelfDropRejected(pending, file, item, path);
  }

  /** A multi-selection dropped onto a selected row is rejected; dropped onto an unselected folder outside the breadcrumb sources it is staged with all selected ids. */
  lemma MultiPayloadDrop(pending: Option<MoveOperation>, file: FileInfo, selectedIds: seq<FileId>, target: FileInfo, path: seq<Crumb>)
    requires file.id in selectedIds && |selectedIds| > 1
    ensures target.id in selectedIds ==> AfterDrop(pending, target, DragPayload(file, selectedIds), path) == pending
    ensures target.kind == Folder && target.id !in selectedIds && !MovesAncestor(path, selectedIds) ==>
      AfterDrop(pending, target, DragPayload(file, selectedIds), path)
        == Some(MoveOperation(selectedIds, CountLabel(|selectedIds|), target.id))
  {
  }

  /** The state of one row that uses the hook. */
  class DragDropRow {
    /** The row's own entry. */
    const file: FileInfo
    /** `selectedIdsRef.current`, refreshed on every render. */
    var selectedIds: seq<FileId>
    /** The breadcrumb trail the row was rendered with. */
    var pathHierarchy: seq<Crumb>
    var pendingMove: Option<MoveOperation>

    constructor (file: FileInfo, selectedIds: seq<FileId>, pathHierarchy: seq<Crumb>)
      ensures this.file == file && this.selectedIds == selectedIds && this.pathHierarchy == pathHierarchy
      ensures pendingMove == None
    {
      this.file := file;
      this.selectedIds := selectedIds;
      this.pathHierarchy := pathHierarchy;
      pendingMove := None;
    }

    /** A re-render with new props: the ref follows the selection, the pending move survives. */
    method Render(selectedIds: seq<FileId>, pathHierarchy: seq<Crumb>)
      modifies this
      ensures this.selectedIds == selectedIds && this.pathHierarchy == pathHierarchy
      ensures pendingMove == old(pendingMove)
    {
      this.selectedIds := selectedIds;
      this.pathHierarchy := pathHierarchy;
    }

    /** The `item` callback of `useDrag`: the payload built from the latest selection. */
    method BeginDrag() returns (item: DropItem)
      ensures item == DragPayload(file, selectedIds)
      ensures file.id in DraggedIds(item)
    {
      item := DragPayload(file, selectedIds);
    }

    /** The `drop` callback of `useDrop` on this row. */
    method Drop(item: DropItem)
      modifies this`pendingMove
      ensures pendingMove == AfterDrop(old(pendingMove), file, item, pathHierarchy)
    {
      var draggedIds := DraggedIds(item);
      var isMovingToSelf := file.id in draggedIds;
      var isMovingToParent := exists k :: 0 <= k < |pathHierarchy| && pathHierarchy[k].id in draggedIds;
      if file.kind == Folder && !isMovingToSelf && !isMovingToParent {
        pendingMove := Some(MoveOperation(
          draggedIds,
          if |draggedIds| > 1 then CountLabel(|draggedIds|) else item.name,
          file.id));
      }
    }

    /** `handleConfirmMove`: hand the staged move to `onMove` (returned as the call made) and clear it. */
    method HandleConfirmMove() returns (call: Option<MoveCall>)
      modifies this`pendingMove
      ensures old(pendingMove).None? ==> call.None? && pendingMove.None?
      ensures old(pendingMove).Some? ==>
        call == Some(MoveCall(old(pendingMove).value.sourceIds, old(pendingMove).value.targetId)) && pendingMove.None?
    {
      call := None;
      if pendingMove.Some? {
        call := Some(MoveCall(pendingMove.value.sourceIds, pendingMove.value.targetId));
        pendingMove := None;
      }
    }

    /** `setPendingMove(null)`, which the confirm dialog calls on cancel: clear without calling `onMove`. */
    method Cancel()
      modifies this`pendingMove
      ensures pendingMove.None?
    {
      pendingMove := None;
    }
  }
}
