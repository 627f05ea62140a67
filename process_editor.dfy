/** The process-stage editor (src/components/ProcessEditor.tsx): an editing
    session over a working copy of the committed stage list. The list edits
    are pure functions; the session itself is a class whose fields are the
    component's state (`stages`, `editingStage`, `isAddingNew`, `formData`) and
    whose methods are its event handlers. */
module ProcessEditing {
  import opened Types
  import opened JsSemantics

  /** The draft that the add and edit forms write into (formData). */
  datatype StageForm = StageForm(name: string, leadTime: int, wip: int)

  const EmptyForm := StageForm("", 0, 0)

  /** The id a stage created at clock reading `now` (Date.now()) receives.
      Two stages created in the same millisecond receive the same id. */
  function NewStageId(now: nat): (id: string)
    ensures |id| > 6 && id[..6] == "stage-"
    ensures forall i :: 6 <= i < |id| ==> '0' <= id[i] <= '9'
  {
    "stage-" + DecimalString(now)
  }

  /** Ids differ whenever the clock readings differ: the digits after
      "stage-" spell out the reading. */
  lemma NewStageIdInjective(a: nat, b: nat)
    ensures NewStageId(a) == NewStageId(b) ==> a == b
  {
    if NewStageId(a) == NewStageId(b) {
      assert NaturalString(a) == NewStageId(a)[6..];
      assert NaturalString(b) == NewStageId(b)[6..];
      NaturalStringValue(a);
      NaturalStringValue(b);
    }
  }

  // ---------------------------------------------------------------------------
  // List edits
  // ---------------------------------------------------------------------------

  /** `[...stages, newStage]`: the new stage takes its fields from the form and
      the old length as its position; the stages before it are untouched. */
  function AppendStage(stages: seq<Stage>, id: string, form: StageForm): (r: seq<Stage>)
    ensures |r| == |stages| + 1 && r[..|stages|] == stages
    ensures r[|stages|].id == id && r[|stages|].position == |stages|
    ensures r[|stages|].name == form.name && r[|stages|].leadTime == form.leadTime
    ensures r[|stages|].wip == form.wip
  {
    stages + [Stage(id, form.name, form.leadTime, form.wip, |stages|)]
  }

  /** A stage after the edit form was saved over it: name, lead time and WIP
      from the form, id and position kept. */
  function Overwrite(s: Stage, form: StageForm): Stage
  {
    s.(name := form.name, leadTime := form.leadTime, wip := form.wip)
  }

  /** `stages.map(s => s.id === id ? {...s, ...form} : s)`. */
  function UpdateById(stages: seq<Stage>, id: string, form: StageForm): (r: seq<Stage>)
    ensures |r| == |stages|
    ensures forall i :: 0 <= i < |stages| ==>
      r[i] == if stages[i].id == id then Overwrite(stages[i], form) else stages[i]
    ensures forall i :: 0 <= i < |stages| ==>
      r[i].id == stages[i].id && r[i].position == stages[i].position
    ensures (forall i :: 0 <= i < |stages| ==> stages[i].id != id) ==> r == stages
  {
    if stages == [] then []
    else
      var head := if stages[0].id == id then Overwrite(stages[0], form) else stages[0];
      [head] + UpdateById(stages[1..], id, form)
  }

  /** `stages.filter(s => s.id !== id)`: every stage with that id goes, the
      others stay, positions are not renumbered. */
  function RemoveById(stages: seq<Stage>, id: string): (r: seq<Stage>)
    ensures |r| <= |stages|
    ensures forall s :: s in r <==> s in stages && s.id != id
    ensures (forall i :: 0 <= i < |stages| ==> stages[i].id != id) ==> r == stages
  {
    if stages == [] then []
    else if stages[0].id == id then RemoveById(stages[1..], id)
    else [stages[0]] + RemoveById(stages[1..], id)
  }

  /** Removal works piece by piece, so the stages that remain keep their
      relative order. */
  lemma {:induction false} RemoveByIdConcat(a: seq<Stage>, b: seq<Stage>, id: string)
    ensures RemoveById(a + b, id) == RemoveById(a, id) + RemoveById(b, id)
  {
    if a != [] {
      assert (a + b)[1..] == a[1..] + b;
      RemoveByIdConcat(a[1..], b, id);
    } else {
      assert a + b == b;
    }
  }

  // ---------------------------------------------------------------------------
  // Position bookkeeping
  // ---------------------------------------------------------------------------

  /** Every stage's position is its index: the order a fresh list of appends
      produces. */
  predicate Ranked(stages: seq<Stage>)
  {
    forall i :: 0 <= i < |stages| ==> stages[i].position == i
  }

  /** Sorting by position gives the list order, with no two positions equal. */
  predicate PositionsIncreasing(stages: seq<Stage>)
  {
    forall i, j :: 0 <= i < j < |stages| ==> stages[i].position < stages[j].position
  }

  /** Appending and editing keep positions equal to indices. */
  lemma AppendAndUpdateKeepRanked(stages: seq<Stage>, id: string, form: StageForm)
    requires Ranked(stages)
    ensures Ranked(AppendStage(stages, id, form))
    ensures Ranked(UpdateById(stages, id, form))
  {
    var r := AppendStage(stages, id, form);
    forall i | 0 <= i < |r| ensures r[i].position == i {
      if i < |stages| {
        assert r[i] == r[..|stages|][i];
      }
    }
  }

  /** Every stage's position lies above `p`. */
  predicate PositionsAbove(stages: seq<Stage>, p: int)
  {
    forall i :: 0 <= i < |stages| ==> stages[i].position > p
  }

  lemma {:induction false} RemoveKeepsAbove(stages: seq<Stage>, id: string, p: int)
    requires PositionsAbove(stages, p)
    ensures PositionsAbove(RemoveById(stages, id), p)
  {
    if stages != [] {
      RemoveKeepsAbove(stages[1..], id, p);
    }
  }

  /** Deletion keeps the list ordered by position, although it leaves gaps. */
  lemma {:induction false} RemoveKeepsIncreasing(stages: seq<Stage>, id: string)
    requires PositionsIncreasing(stages)
    ensures PositionsIncreasing(RemoveById(stages, id))
  {
    if stages != [] {
      var tail := stages[1..];
      RemoveKeepsIncreasing(tail, id);
      if stages[0].id != id {
        RemoveKeepsAbove(tail, id, stages[0].position);
        var rest := RemoveById(tail, id);
        var r := [stages[0]] + rest;
        forall i, j | 0 <= i < j < |r| ensures r[i].position < r[j].position {
          assert r[j] == rest[j - 1];
          if i > 0 {
            assert r[i] == rest[i - 1];
          }
        }
      }
    }
  }

  /** The gap left by deleting the middle of three stages: positions 0 and 2. */
  lemma RemoveMiddleLeavesGap(a: Stage, b: Stage, c: Stage)
    requires a.position == 0 && b.position == 1 && c.position == 2
    requires a.id != b.id && c.id != b.id
    ensures RemoveById([a, b, c], b.id) == [a, c]
    ensures !Ranked(RemoveById([a, b, c], b.id))
  {
    assert [a, b, c][1..] == [b, c];
    assert [b, c][1..] == [c];
    assert [c][1..] == [];
  }

  /** Because deletion does not renumber, appending after it can reuse a
      position: after deleting the middle of positions 0, 1, 2, the new stage
      also gets position 2. */
  lemma DeleteThenAppendRepeatsPosition(a: Stage, b: Stage, c: Stage, id: string, form: StageForm)
    requires a.position == 0 && b.position == 1 && c.position == 2
    requires a.id != b.id && c.id != b.id
    ensures var r := AppendStage(RemoveById([a, b, c], b.id), id, form);
      |r| == 3 && r[1].position == 2 && r[2].position == 2 && !PositionsIncreasing(r)
  {
    RemoveMiddleLeavesGap(a, b, c);
  }

  // ---------------------------------------------------------------------------
  // The editing session
  // ---------------------------------------------------------------------------

  class ProcessEditor {
    /** The committed list the dialog was opened with (the `stages` prop). */
    const initialStages: seq<Stage>
    /** The working copy. */
    var stages: seq<Stage>
    /** The stage whose row is being edited, if any. */
    var editingStage: Option<Stage>
    /** Whether the add-stage form is open. */
    var isAddingNew: bool
    var formData: StageForm

    /** The add form and the edit form are never open together. */
    predicate Valid()
      reads this
    {
      !(isAddingNew && editingStage.Some?)
    }

    /** Neither form is open and the draft is blank. */
    predicate Idle()
      reads this
    {
      !isAddingNew && editingStage == None && formData == EmptyForm
    }

    constructor (initial: seq<Stage>)
      ensures initialStages == initial && stages == initial
      ensures Idle() && Valid()
    {
      initialStages := initial;
      stages := initial;
      editingStage := None;
      isAddingNew := false;
      formData := EmptyForm;
    }

    /** handleAdd: open the add form with a blank draft, closing the edit form. */
    method HandleAdd()
      modifies this
      ensures isAddingNew && editingStage == None && formData == EmptyForm
      ensures stages == old(stages) && Valid()
    {
      isAddingNew := true;
      editingStage := None;
      formData := EmptyForm;
    }

    /** handleEdit: open the edit form on `stage`, loaded with its fields,
        closing the add form. */
    method HandleEdit(stage: Stage)
      modifies this
      ensures editingStage == Some(stage) && !isAddingNew
      ensures formData == StageForm(stage.name, stage.leadTime, stage.wip)
      ensures stages == old(stages) && Valid()
    {
      editingStage := Some(stage);
      isAddingNew := false;
      formData := StageForm(stage.name, stage.leadTime, stage.wip);
    }

    /** handleDelete: drop every stage with that id from the working copy. */
    method HandleDelete(stageId: string)
      modifies this`stages
      ensures stages == RemoveById(old(stages), stageId)
      ensures old(Valid()) ==> Valid()
    {
      stages := RemoveById(stages, stageId);
    }

    /** handleSaveStage: in add mode append a stage built from the draft, in
        edit mode overwrite the edited stage's fields, otherwise change no
        stage; then close both forms and blank the draft. */
    method HandleSaveStage(now: nat)
      modifies this
      ensures old(isAddingNew) ==> stages == AppendStage(old(stages), NewStageId(now), old(formData))
      ensures !old(isAddingNew) && old(editingStage).Some? ==>
        stages == UpdateById(old(stages), old(editingStage).value.id, old(formData))
      ensures !old(isAddingNew) && old(editingStage) == None ==> stages == old(stages)
      ensures Idle() && Valid()
    {
      if isAddingNew {
        stages := AppendStage(stages, NewStageId(now), formData);
      } else if editingStage.Some? {
        stages := UpdateById(stages, editingStage.value.id, formData);
      }
      HandleCancel();
    }

    /** handleCancel: close both forms and blank the draft. */
    method HandleCancel()
      modifies this
      ensures stages == old(stages)
      ensures Idle() && Valid()
    {
      isAddingNew := false;
      editingStage := None;
      formData := EmptyForm;
    }

    /** handleSaveAll: the working copy, exactly as it stands, is what `onSave`
        receives; the session's state is left as it is. */
    method HandleSaveAll() returns (saved: seq<Stage>)
      ensures saved == stages
    {
      saved := stages;
    }

    /** handleClose: discard the working copy, going back to the committed list
        whatever was added, edited or deleted, and close both forms. */
    method HandleClose()
      modifies this
      ensures stages == initialStages
      ensures Idle() && Valid()
    {
      stages := initialStages;
      HandleCancel();
    }

    /** The name field of either form. */
    method SetFormName(value: string)
      modifies this`formData
      ensures formData == old(formData).(name := value)
    {
      formData := formData.(name := value);
    }

    /** The lead-time field of either form: `parseInt(value) || 0`. */
    method SetFormLeadTime(value: string)
      modifies this`formData
      ensures formData == old(formData).(leadTime := CoerceNumeric(value))
    {
      formData := formData.(leadTime := CoerceNumeric(value));
    }

    /** The WIP field of either form: `parseInt(value) || 0`. */
    method SetFormWip(value: string)
      modifies this`formData
      ensures formData == old(formData).(wip := CoerceNumeric(value))
    {
      formData := formData.(wip := CoerceNumeric(value));
    }
  }

  /** A session seen from outside: adding a stage and saving hands over the
      old list plus the new stage at the end; closing instead discards it. */
  method EditingSession(committed: seq<Stage>, name: string, leadTime: int, now: nat)
    returns (saved: seq<Stage>, restored: seq<Stage>)
    ensures saved == committed + [Stage(NewStageId(now), name, leadTime, 0, |committed|)]
    ensures restored == committed
  {
    var editor := new ProcessEditor(committed);
    editor.HandleAdd();
    editor.SetFormName(name);
    editor.SetFormLeadTime(DecimalString(leadTime));
    assert editor.formData.leadTime == leadTime by { CoerceDecimal(leadTime, []); assert DecimalString(leadTime) + [] == DecimalString(leadTime); }
    editor.SetFormWip("");
    assert editor.formData.wip == 0 by { CoerceWithoutDigits(""); }
    editor.HandleSaveStage(now);
    saved := editor.HandleSaveAll();
    editor.HandleClose();
    restored := editor.stages;
  }

  /** Two stages added with the same clock reading get the same id: nothing
      in handleSaveStage keeps ids apart. */
  method SameMillisecondAdds(committed: seq<Stage>, now: nat) returns (saved: seq<Stage>)
    ensures |saved| == |committed| + 2
    ensures saved[|committed|].id == saved[|committed| + 1].id == NewStageId(now)
  {
    var editor := new ProcessEditor(committed);
    editor.HandleAdd();
    editor.HandleSaveStage(now);
    editor.HandleAdd();
    editor.HandleSaveStage(now);
    saved := editor.HandleSaveAll();
  }
}
