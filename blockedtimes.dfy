/** The blocked-time editor (components/timetable/blocked-times.tsx): a list
    of blocked periods, and a form that creates a new block or edits an
    existing one. Times are picked from `Clock.TimeOptions` and shown with
    `Clock.TableFormatTime`. Dates are epoch milliseconds; "now" and the
    fresh id `Date.now().toString()` come in as parameters. */
module BlockedTimes {
  import opened Wrappers
  import opened Text
  import opened Seqs

  datatype BlockType = Break | Personal | Maintenance | OtherType

  datatype RecurringPattern = Daily | Weekly | Monthly

  datatype BlockedTime = BlockedTime(id: string, title: string, description: Option<string>,
                                     date: int, startTime: string, endTime: string,
                                     blockType: BlockType, isRecurring: bool,
                                     recurringPattern: Option<RecurringPattern>)

  /** `Partial<BlockedTime>` as the form holds it. Its type is always set
      (the default is "break" and every setter writes one), so it is not
      optional here. */
  datatype Form = Form(id: Option<string>, title: Option<string>, description: Option<string>,
                       date: Option<int>, startTime: Option<string>, endTime: Option<string>,
                       blockType: BlockType, isRecurring: Option<bool>,
                       recurringPattern: Option<RecurringPattern>)

  /** The blank form: empty title and description, today, 09:00 to 10:00, a
      break, not recurring. */
  function DefaultForm(today: int): Form {
    Form(None, Some(""), Some(""), Some(today), Some("09:00"), Some("10:00"), Break, Some(false), None)
  }

  /** The guard of `handleSaveBlock`: title, date, start and end all present
      and non-empty. */
  predicate CanSave(f: Form) {
    && f.title.Some? && f.title.value != ""
    && f.date.Some?
    && f.startTime.Some? && f.startTime.value != ""
    && f.endTime.Some? && f.endTime.value != ""
  }

  /** `editingBlock?.id || Date.now().toString()`: the edited block's id unless
      it is empty. */
  function SaveId(editing: Option<BlockedTime>, now: nat): (id: string)
    ensures editing.Some? && editing.value.id != "" ==> id == editing.value.id
    ensures (editing.None? || editing.value.id == "") ==> id == NatToString(now)
  {
    if editing.Some? && editing.value.id != "" then editing.value.id else NatToString(now)
  }

  /** `blockData`: the form's fields under the given id, `isRecurring`
      defaulting to false. */
  function ToBlock(f: Form, id: string): BlockedTime
    requires CanSave(f)
  {
    BlockedTime(id, f.title.value, f.description, f.date.value, f.startTime.value,
                f.endTime.value, f.blockType, f.isRecurring.GetOr(false), f.recurringPattern)
  }

  /** `setFormData(block)`: the form holding every field of the block. */
  function FromBlock(b: BlockedTime): Form {
    Form(Some(b.id), Some(b.title), b.description, Some(b.date), Some(b.startTime),
         Some(b.endTime), b.blockType, Some(b.isRecurring), b.recurringPattern)
  }

  /** Loading a block into the form and building it back gives the block,
      provided it can be saved at all. */
  lemma FormRoundTrip(b: BlockedTime)
    requires b.title != "" && b.startTime != "" && b.endTime != ""
    ensures CanSave(FromBlock(b))
    ensures ToBlock(FromBlock(b), b.id) == b
  {
  }

  /** The save guard does not compare start and end: a block that ends
      before it starts is accepted. */
  lemma SaveDoesNotOrderTimes(today: int)
    ensures CanSave(DefaultForm(today).(title := Some("Late"), startTime := Some("17:00"), endTime := Some("09:00")))
  {
  }

  /** `prev.map(block => block.id === id ? replacement : block)`. */
  function ReplaceById(blocks: seq<BlockedTime>, id: string, replacement: BlockedTime): seq<BlockedTime> {
    MapWhere(blocks, (b: BlockedTime) => b.id == id, _ => replacement)
  }

  /** `prev.filter(block => block.id !== blockId)`. */
  function DeleteById(blocks: seq<BlockedTime>, id: string): seq<BlockedTime> {
    Filter(blocks, (b: BlockedTime) => b.id != id)
  }

  /** Delete removes every block with the id and keeps the others, in order. */
  lemma DeleteByIdMeaning(blocks: seq<BlockedTime>, id: string)
    ensures forall b :: b in DeleteById(blocks, id) <==> b in blocks && b.id != id
    ensures IsSubsequence(DeleteById(blocks, id), blocks)
  {
    FilterIsSubsequence(blocks, (b: BlockedTime) => b.id != id);
    FilterMembers(blocks, (b: BlockedTime) => b.id != id);
  }

  /** Editing a block and saving it unchanged leaves the list as it was,
      when no other block shares its id. */
  lemma EditThenSaveChangesNothing(blocks: seq<BlockedTime>, b: BlockedTime, now: nat)
    requires b.id != "" && b.title != "" && b.startTime != "" && b.endTime != ""
    requires forall i :: 0 <= i < |blocks| && blocks[i].id == b.id ==> blocks[i] == b
    ensures ReplaceById(blocks, b.id, ToBlock(FromBlock(b), SaveId(Some(b), now))) == blocks
  {
    FormRoundTrip(b);
  }

  class Editor {
    var blockedTimes: seq<BlockedTime>
    var showForm: bool
    var editingBlock: Option<BlockedTime>
    var formData: Form

    constructor (initial: seq<BlockedTime>, today: int)
      ensures blockedTimes == initial && !showForm && editingBlock.None?
      ensures formData == DefaultForm(today)
    {
      blockedTimes := initial;
      showForm := false;
      editingBlock := None;
      formData := DefaultForm(today);
    }

    /** The "Add Block" buttons. */
    method OpenForm()
      modifies this`showForm
      ensures showForm
    {
      showForm := true;
    }

    // The form's field setters, each `setFormData({...formData, field: value})`.

    method SetTitle(title: string)
      modifies this`formData
      ensures formData == old(formData).(title := Some(title))
    {
      formData := formData.(title := Some(title));
    }

    method SetType(t: BlockType)
      modifies this`formData
      ensures formData == old(formData).(blockType := t)
    {
      formData := formData.(blockType := t);
    }

    method SetDescription(description: string)
      modifies this`formData
      ensures formData == old(formData).(description := Some(description))
    {
      formData := formData.(description := Some(description));
    }

    /** The calendar's `onSelect`: a cleared selection falls back to now. */
    method SelectDate(date: Option<int>, now: int)
      modifies this`formData
      ensures formData == old(formData).(date := Some(date.GetOr(now)))
    {
      formData := formData.(date := Some(date.GetOr(now)));
    }

    method SetStartTime(time: string)
      modifies this`formData
      ensures formData == old(formData).(startTime := Some(time))
    {
      formData := formData.(startTime := Some(time));
    }

    method SetEndTime(time: string)
      modifies this`formData
      ensures formData == old(formData).(endTime := Some(time))
    {
      formData := formData.(endTime := Some(time));
    }

    /** `resetForm()`. */
    method ResetForm(now: int)
      modifies this`formData, this`editingBlock, this`showForm
      ensures formData == DefaultForm(now) && editingBlock.None? && !showForm
    {
      formData := DefaultForm(now);
      editingBlock := None;
      showForm := false;
    }

    /** `handleSaveBlock()` at time `now`: nothing unless the guard passes;
        otherwise replace the edited block (keeping its id) or append a new
        one, then reset the form. */
    method HandleSaveBlock(now: nat)
      modifies this
      ensures !CanSave(old(formData)) ==>
        blockedTimes == old(blockedTimes) && formData == old(formData)
        && editingBlock == old(editingBlock) && showForm == old(showForm)
      ensures CanSave(old(formData)) ==>
        && var saved := ToBlock(old(formData), SaveId(old(editingBlock), now));
        && (old(editingBlock).Some? ==>
              blockedTimes == ReplaceById(old(blockedTimes), old(editingBlock).value.id, saved))
        && (old(editingBlock).None? ==> blockedTimes == old(blockedTimes) + [saved])
        && formData == DefaultForm(now) && editingBlock.None? && !showForm
    {
      if !CanSave(formData) {
        return;
      }
      var saved := ToBlock(formData, SaveId(editingBlock, now));
      if editingBlock.Some? {
        blockedTimes := ReplaceById(blockedTimes, editingBlock.value.id, saved);
      } else {
        blockedTimes := blockedTimes + [saved];
      }
      ResetForm(now);
    }

    /** `handleEditBlock(block)`. */
    method HandleEditBlock(block: BlockedTime)
      modifies this`editingBlock, this`formData, this`showForm
      ensures editingBlock == Some(block) && formData == FromBlock(block) && showForm
    {
      editingBlock := Some(block);
      formData := FromBlock(block);
      showForm := true;
    }

    /** `handleDeleteBlock(blockId)`. */
    method HandleDeleteBlock(blockId: string)
      modifies this`blockedTimes
      ensures blockedTimes == DeleteById(old(blockedTimes), blockId)
    {
      blockedTimes := DeleteById(blockedTimes, blockId);
    }
  }

  /** Saving a new block grows the list by one, the block at the end under
      the fresh id; saving an edit keeps the length and puts the edited id on
      every replaced entry; a block is recurring only when the form says so. */
  lemma SaveShapes(blocks: seq<BlockedTime>, f: Form, edited: BlockedTime, now: nat)
    requires CanSave(f) && edited.id != ""
    ensures ToBlock(f, NatToString(now)).isRecurring <==> f.isRecurring == Some(true)
    ensures var added := blocks + [ToBlock(f, SaveId(None, now))];
      |added| == |blocks| + 1 && added[|blocks|].id == NatToString(now) && added[..|blocks|] == blocks
    ensures var replaced := ReplaceById(blocks, edited.id, ToBlock(f, SaveId(Some(edited), now)));
      |replaced| == |blocks|
      && forall i :: 0 <= i < |blocks| && blocks[i].id == edited.id ==> replaced[i].id == edited.id
  {
  }
}
