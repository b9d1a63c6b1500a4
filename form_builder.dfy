/** pages/form/composables/useFormBuilder.ts: the editing session of the form builder.
    The session holds the form being edited, the index of the active step and the id
    of the selected field, and edits them in place. */
module FormBuilder {
  import opened Common
  import opened Strings
  import opened OrderSort
  import opened FormModel
  import FormHelpers

  /** `step.fields.some(f => f.id === fieldId)`. */
  function HoldsField(id: string): Step -> bool {
    (s: Step) => Find(s.fields, FormHelpers.IdIs(id)).Some?
  }

  function StepIdIs(id: string): Step -> bool {
    (s: Step) => s.id == id
  }

  /** The first step whose id is `stepId` (`find(s => s.id === field.stepId)`): a
      field without a `stepId` matches no step. */
  function StepOfField(stepId: Option<string>): Step -> bool {
    (s: Step) => stepId == Some(s.id)
  }

  /** Steps none of which holds the id yield no field for it. */
  lemma NoneHeld(steps: seq<Step>, id: string)
    requires forall i :: 0 <= i < |steps| ==> !HoldsField(id)(steps[i])
    ensures FormHelpers.FieldInSteps(steps, id).None?
  {
    FormHelpers.FieldInStepsNone(steps, id);
    forall i, j | 0 <= i < |steps| && 0 <= j < |steps[i].fields| ensures steps[i].fields[j].id != id {
      assert !HoldsField(id)(steps[i]);
    }
  }

  lemma AllFieldsCons(s: Step, after: seq<Step>)
    ensures AllFields([s] + after) == s.fields + AllFields(after)
  {
    FormHelpers.AllFieldsConcat([s], after);
    AllFieldsAppend([], s);
    assert [] + [s] == [s];
  }

  /** When no step before `k` holds the id, the search across steps is the search in
      step `k` followed by the search in the later steps. */
  lemma FieldInStepsFrom(steps: seq<Step>, id: string, k: nat)
    requires k < |steps|
    requires forall i :: 0 <= i < k ==> !HoldsField(id)(steps[i])
    ensures FormHelpers.FieldInSteps(steps, id)
            == if HoldsField(id)(steps[k]) then Find(steps[k].fields, FormHelpers.IdIs(id))
               else FormHelpers.FieldInSteps(steps[k + 1..], id)
  {
    var before, after := steps[..k], steps[k + 1..];
    assert steps == before + ([steps[k]] + after);
    NoneHeld(before, id);
    FormHelpers.AllFieldsConcat(before, [steps[k]] + after);
    AllFieldsCons(steps[k], after);
    FindAppend(AllFields(before), steps[k].fields + AllFields(after), FormHelpers.IdIs(id));
    FindAppend(steps[k].fields, AllFields(after), FormHelpers.IdIs(id));
  }

  /** The field findFieldById finds is the first field with that id in the first step
      that holds one, which is where updateField and deleteField act. */
  lemma LocateAgreesWithFind(steps: seq<Step>, id: string)
    ensures var k := FirstIndex(steps, HoldsField(id));
            (k == -1 <==> FormHelpers.FieldInSteps(steps, id).None?)
            && (k >= 0 ==> var j := FirstIndex(steps[k].fields, FormHelpers.IdIs(id));
                  0 <= j && FormHelpers.FieldInSteps(steps, id) == Some(steps[k].fields[j]))
  {
    var k := FirstIndex(steps, HoldsField(id));
    FormHelpers.FieldInStepsNone(steps, id);
    if k == -1 {
      forall i, j | 0 <= i < |steps| && 0 <= j < |steps[i].fields| ensures steps[i].fields[j].id != id {
        assert !HoldsField(id)(steps[i]);
      }
    } else {
      FieldInStepsFrom(steps, id, k);
    }
  }

  // ---------------------------------------------------------------------------
  // The effect of each edit on the list of steps

  /** updateStepTitle. */
  function RetitleStep(steps: seq<Step>, id: string, title: string): (r: seq<Step>)
    ensures |r| == |steps|
  {
    var k := FirstIndex(steps, StepIdIs(id));
    if k == -1 then steps else steps[k := steps[k].(title := title)]
  }

  /** updateStepTitle retitles the first step with that id and nothing else; with no
      such step nothing changes. */
  lemma RetitleStepSpec(steps: seq<Step>, id: string, title: string)
    ensures (forall i :: 0 <= i < |steps| ==> steps[i].id != id) ==> RetitleStep(steps, id, title) == steps
    ensures forall k :: 0 <= k < |steps| && steps[k].id == id && (forall i :: 0 <= i < k ==> steps[i].id != id) ==>
              var r := RetitleStep(steps, id, title);
              r[k] == steps[k].(title := title)
              && forall i :: 0 <= i < |steps| && i != k ==> r[i] == steps[i]
  {
    var k := FirstIndex(steps, StepIdIs(id));
    forall j | 0 <= j < |steps| && steps[j].id == id && (forall i :: 0 <= i < j ==> steps[i].id != id)
      ensures j == k
    {
      assert StepIdIs(id)(steps[j]);
    }
  }

  /** updateField: `Object.assign` on the field findFieldById returns. */
  function UpdateFieldIn(steps: seq<Step>, id: string, patch: FieldPatch): (r: seq<Step>)
    ensures |r| == |steps|
  {
    var k := FirstIndex(steps, HoldsField(id));
    if k == -1 then steps
    else
      var fields := steps[k].fields;
      var j := FirstIndex(fields, FormHelpers.IdIs(id));
      if j == -1 then steps
      else steps[k := steps[k].(fields := fields[j := ApplyPatch(fields[j], patch)])]
  }

  /** deleteField: the first step holding the id loses the first such field, and its
      fields are renumbered. */
  function DeleteFieldIn(steps: seq<Step>, id: string): (r: seq<Step>)
    ensures |r| == |steps|
  {
    var k := FirstIndex(steps, HoldsField(id));
    if k == -1 then steps
    else
      var fields := steps[k].fields;
      var j := FirstIndex(fields, FormHelpers.IdIs(id));
      if j == -1 then steps
      else steps[k := steps[k].(fields := FormHelpers.RenumberFields(fields[..j] + fields[j + 1..]))]
  }

  /** `f.order += 1` for every field after `order`. */
  function ShiftAfter(fields: seq<Field>, order: int): (r: seq<Field>)
    ensures |r| == |fields|
  {
    seq(|fields|, i requires 0 <= i < |fields| =>
          if fields[i].order > order then fields[i].(order := fields[i].order + 1) else fields[i])
  }

  /** The new field list of duplicateField: shift, push the copy, sort, renumber. */
  function DuplicatedFields(fields: seq<Field>, field: Field, newId: string): seq<Field> {
    FormHelpers.RenumberFields(SortBy(ShiftAfter(fields, field.order) + [FormHelpers.CloneField(field, newId)], FieldKey))
  }

  /** duplicateField: the copy goes into the step named by the field's `stepId`. */
  function DuplicateFieldIn(steps: seq<Step>, id: string, newId: string): (r: seq<Step>)
    ensures |r| == |steps|
  {
    var found := FormHelpers.FieldInSteps(steps, id);
    if found.None? then steps
    else
      var k := FirstIndex(steps, StepOfField(found.value.stepId));
      if k == -1 then steps
      else steps[k := steps[k].(fields := DuplicatedFields(steps[k].fields, found.value, newId))]
  }

  // ---------------------------------------------------------------------------
  // Properties of the edits

  ghost predicate AllContiguous(steps: seq<Step>) {
    forall i :: 0 <= i < |steps| ==> OrdersContiguous(steps[i].fields)
  }

  /** deleteField removes exactly one field from one step, renumbers that step 0..n-1
      and leaves every other step as it was; an unknown id changes nothing. */
  lemma DeleteFieldInSpec(steps: seq<Step>, id: string)
    ensures var k := FirstIndex(steps, HoldsField(id));
            var r := DeleteFieldIn(steps, id);
            (k == -1 ==> r == steps)
            && (k >= 0 ==>
                  |r[k].fields| == |steps[k].fields| - 1 && OrdersContiguous(r[k].fields)
                  && r[k].(fields := steps[k].fields) == steps[k]
                  && forall i :: 0 <= i < |steps| && i != k ==> r[i] == steps[i])
    ensures AllContiguous(steps) ==> AllContiguous(DeleteFieldIn(steps, id))
  {
  }

  /** The remaining fields keep their relative order: removing index j and renumbering
      leaves every other field as it was, apart from its order. */
  lemma DeleteFieldKeepsOthers(steps: seq<Step>, id: string)
    requires FirstIndex(steps, HoldsField(id)) >= 0
    ensures var k := FirstIndex(steps, HoldsField(id));
            var j := FirstIndex(steps[k].fields, FormHelpers.IdIs(id));
            var before, after := steps[k].fields, DeleteFieldIn(steps, id)[k].fields;
            0 <= j
            && (forall i :: 0 <= i < j ==> after[i] == before[i].(order := i))
            && (forall i :: j <= i < |after| ==> after[i] == before[i + 1].(order := i))
  {
    var k := FirstIndex(steps, HoldsField(id));
    var before := steps[k].fields;
    assert Find(before, FormHelpers.IdIs(id)).Some?;
    var j := FirstIndex(before, FormHelpers.IdIs(id));
    assert j >= 0;
    assert DeleteFieldIn(steps, id)[k].fields == FormHelpers.RenumberFields(before[..j] + before[j + 1..]);
    RenumberWithout(before, j);
  }

  /** Renumbering a list with one element cut out. */
  lemma RenumberWithout(before: seq<Field>, j: nat)
    requires j < |before|
    ensures var after := FormHelpers.RenumberFields(before[..j] + before[j + 1..]);
            |after| == |before| - 1
            && (forall i :: 0 <= i < j ==> after[i] == before[i].(order := i))
            && (forall i :: j <= i < |after| ==> after[i] == before[i + 1].(order := i))
  {
    var rest := before[..j] + before[j + 1..];
    var after := FormHelpers.RenumberFields(rest);
    forall i | 0 <= i < |after| ensures after[i] == (if i < j then before[i] else before[i + 1]).(order := i) {
      assert after[i] == rest[i].(order := i);
    }
  }

  /** An unknown id, or a field whose `stepId` names no step, leaves the steps alone. */
  lemma DuplicateFieldNoOp(steps: seq<Step>, id: string, newId: string)
    requires FormHelpers.FieldInSteps(steps, id).None?
             || FirstIndex(steps, StepOfField(FormHelpers.FieldInSteps(steps, id).value.stepId)) == -1
    ensures DuplicateFieldIn(steps, id, newId) == steps
  {
  }

  /** Renumbering forgets the orders it overwrites. */
  lemma RenumberIgnoresOrder(s: seq<Field>, s': seq<Field>)
    requires |s| == |s'| && forall i :: 0 <= i < |s| ==> s[i].(order := 0) == s'[i].(order := 0)
    ensures FormHelpers.RenumberFields(s) == FormHelpers.RenumberFields(s')
  {
    forall i | 0 <= i < |s| ensures s[i].(order := i) == s'[i].(order := i) {
      assert s[i].(order := 0).(order := i) == s[i].(order := i);
      assert s'[i].(order := 0).(order := i) == s'[i].(order := i);
    }
  }

  lemma ShiftedIsSorted(fields: seq<Field>, p: nat)
    requires OrdersContiguous(fields) && p < |fields|
    ensures var t := ShiftAfter(fields, p);
            SortedBy(t, FieldKey)
            && (forall i :: 0 <= i <= p ==> FieldKey(t[i]) <= p + 1)
            && (forall i :: p + 1 <= i < |t| ==> FieldKey(t[i]) > p + 1)
  {
    var t := ShiftAfter(fields, p);
    forall i | 0 <= i < |t| ensures t[i].order == (if i <= p then i else i + 1) {
    }
  }

  /** On a contiguous step, the shifted list is ordered and the copy of the field at
      `p`, carrying order p+1, sorts to position p+1. */
  lemma SortShiftedWithCopy(fields: seq<Field>, p: nat, dup: Field)
    requires OrdersContiguous(fields) && p < |fields| && dup.order == p + 1
    ensures var t := ShiftAfter(fields, p);
            SortBy(t + [dup], FieldKey) == t[..p + 1] + [dup] + t[p + 1..]
  {
    var t := ShiftAfter(fields, p);
    ShiftedIsSorted(fields, p);
    SortBySortedIsIdentity(t, FieldKey);
    assert (t + [dup])[..|t|] == t;
    InsertLastAt(t, dup, FieldKey, p + 1);
  }

  /** On a step numbered 0..n-1, duplicating the field at position p inserts the copy
      right after it, and renumbers. */
  lemma DuplicateInContiguousStep(fields: seq<Field>, p: nat, newId: string)
    requires OrdersContiguous(fields) && p < |fields|
    ensures DuplicatedFields(fields, fields[p], newId)
            == FormHelpers.RenumberFields(fields[..p + 1] + [FormHelpers.CloneField(fields[p], newId)] + fields[p + 1..])
  {
    var dup := FormHelpers.CloneField(fields[p], newId);
    assert fields[p].order == p;
    var t := ShiftAfter(fields, p);
    SortShiftedWithCopy(fields, p, dup);
    ShiftAfterForgetsOrder(fields, p);
    InsertForgetsOrder(t, fields, dup, p + 1);
    RenumberIgnoresOrder(t[..p + 1] + [dup] + t[p + 1..], fields[..p + 1] + [dup] + fields[p + 1..]);
  }

  /** Shifting changes orders and nothing else. */
  lemma ShiftAfterForgetsOrder(fields: seq<Field>, order: int)
    ensures var t := ShiftAfter(fields, order);
            |t| == |fields| && forall i :: 0 <= i < |t| ==> t[i].(order := 0) == fields[i].(order := 0)
  {
  }

  /** Inserting the same element into two lists that differ only in orders. */
  lemma InsertForgetsOrder(a: seq<Field>, b: seq<Field>, x: Field, q: nat)
    requires |a| == |b| && q <= |a|
    requires forall i :: 0 <= i < |a| ==> a[i].(order := 0) == b[i].(order := 0)
    ensures var s, s' := a[..q] + [x] + a[q..], b[..q] + [x] + b[q..];
            |s| == |s'| && forall i :: 0 <= i < |s| ==> s[i].(order := 0) == s'[i].(order := 0)
  {
    var s, s' := a[..q] + [x] + a[q..], b[..q] + [x] + b[q..];
    forall i | 0 <= i < |s| ensures s[i].(order := 0) == s'[i].(order := 0) {
      if i < q {
        assert s[i] == a[i] && s'[i] == b[i];
      } else if i > q {
        assert s[i] == a[i - 1] && s'[i] == b[i - 1];
      }
    }
  }

  /** The duplicated step has n+1 fields numbered 0..n: the fields up to p unchanged,
      the copy at p+1, the later fields one place further on. */
  lemma DuplicateInContiguousStepShape(fields: seq<Field>, p: nat, newId: string)
    requires OrdersContiguous(fields) && p < |fields|
    ensures var r := DuplicatedFields(fields, fields[p], newId);
            |r| == |fields| + 1 && OrdersContiguous(r)
            && r[p + 1] == FormHelpers.CloneField(fields[p], newId).(order := p + 1)
            && (forall i :: 0 <= i <= p ==> r[i] == fields[i])
            && (forall i :: p + 1 < i < |r| ==> r[i] == fields[i - 1].(order := i))
  {
    DuplicateInContiguousStep(fields, p, newId);
    var dup := FormHelpers.CloneField(fields[p], newId);
    var s' := fields[..p + 1] + [dup] + fields[p + 1..];
    var r := FormHelpers.RenumberFields(s');
    assert fields[p].order == p;
    forall i | 0 <= i <= p ensures r[i] == fields[i] {
      assert r[i] == s'[i].(order := i) && s'[i] == fields[i];
    }
    assert r[p + 1] == s'[p + 1].(order := p + 1) && s'[p + 1] == dup;
    forall i | p + 1 < i < |r| ensures r[i] == fields[i - 1].(order := i) {
      assert r[i] == s'[i].(order := i) && s'[i] == fields[i - 1];
    }
  }

  /** Duplicating in a well-formed form (step ids unique, every field's `stepId` naming
      its own step, orders contiguous) inserts the copy right after its source in the
      source's step and changes no other step. */
  lemma DuplicateFieldInWellFormed(steps: seq<Step>, id: string, newId: string, k: nat, p: nat)
    requires k < |steps| && p < |steps[k].fields| && steps[k].fields[p].id == id
    requires FirstIndex(steps, HoldsField(id)) == k && FirstIndex(steps[k].fields, FormHelpers.IdIs(id)) == p
    requires steps[k].fields[p].stepId == Some(steps[k].id)
    requires forall i :: 0 <= i < k ==> steps[i].id != steps[k].id
    requires OrdersContiguous(steps[k].fields)
    ensures var r := DuplicateFieldIn(steps, id, newId);
            r[k].fields == DuplicatedFields(steps[k].fields, steps[k].fields[p], newId)
            && |r[k].fields| == |steps[k].fields| + 1 && OrdersContiguous(r[k].fields)
            && r[k].fields[p + 1].id == newId
            && r[k].fields[p + 1].name == steps[k].fields[p].name
            && r[k].fields[p + 1].labelText == steps[k].fields[p].labelText + " (copie)"
            && forall i :: 0 <= i < |steps| && i != k ==> r[i] == steps[i]
  {
    LocateAgreesWithFind(steps, id);
    assert StepOfField(steps[k].fields[p].stepId)(steps[k]);
    forall i | 0 <= i < k ensures !StepOfField(steps[k].fields[p].stepId)(steps[i]) {
    }
    DuplicateInContiguousStepShape(steps[k].fields, p, newId);
  }

  /** updateField changes only the first field with that id, by the patch; with no
      such field nothing changes; a patch without `order` keeps the numbering. */
  lemma UpdateFieldInSpec(steps: seq<Step>, id: string, patch: FieldPatch)
    ensures FormHelpers.FieldInSteps(steps, id).None? ==> UpdateFieldIn(steps, id, patch) == steps
    ensures var k := FirstIndex(steps, HoldsField(id));
            k >= 0 ==>
              var j := FirstIndex(steps[k].fields, FormHelpers.IdIs(id));
              var r := UpdateFieldIn(steps, id, patch);
              0 <= j && r[k].fields[j] == ApplyPatch(steps[k].fields[j], patch)
              && FormHelpers.FieldInSteps(steps, id) == Some(steps[k].fields[j])
              && |r[k].fields| == |steps[k].fields|
              && (forall i :: 0 <= i < |steps[k].fields| && i != j ==> r[k].fields[i] == steps[k].fields[i])
              && forall i :: 0 <= i < |steps| && i != k ==> r[i] == steps[i]
    ensures patch.order.None? && AllContiguous(steps) ==> AllContiguous(UpdateFieldIn(steps, id, patch))
  {
    LocateAgreesWithFind(steps, id);
  }

  // ---------------------------------------------------------------------------
  // The session

  /** The state of useFormBuilder. */
  class Builder {
    var config: FormConfig
    var activeStepIndex: int
    var selectedFieldId: Option<string>

    /** At least one step, and the active index points at one. */
    ghost predicate Valid()
      reads this
    {
      |config.steps| >= 1 && 0 <= activeStepIndex < |config.steps|
    }

    /** The initial state, with the generated id of the first step as a parameter. */
    constructor(firstStepId: string)
      ensures config == FormConfig("", "Nouveau formulaire", Some(""),
                                   [Step(firstStepId, "Étape 1", Some(""), 0, [], None)], Vertical, Normal)
      ensures activeStepIndex == 0 && selectedFieldId == None
      ensures Valid()
    {
      config := FormConfig("", "Nouveau formulaire", Some(""),
                           [Step(firstStepId, "Étape 1", Some(""), 0, [], None)], Vertical, Normal);
      activeStepIndex := 0;
      selectedFieldId := None;
    }

    /** `steps[activeStepIndex]`, undefined when the index is out of range. */
    function ActiveStep(): (r: Option<Step>)
      reads this
      ensures r.Some? <==> 0 <= activeStepIndex < |config.steps|
      ensures r.Some? ==> r.value == config.steps[activeStepIndex]
      ensures Valid() ==> r.Some?
    {
      if 0 <= activeStepIndex < |config.steps| then Some(config.steps[activeStepIndex]) else None
    }

    /** canAddStep: fewer than 10 steps (a flag only; addStep does not consult it). */
    predicate CanAddStep()
      reads this
    {
      |config.steps| < 10
    }

    /** canDeleteStep: more than one step. */
    predicate CanDeleteStep()
      reads this
    {
      |config.steps| > 1
    }

    /** addStep, with the generated id as a parameter. */
    method AddStep(newId: string)
      modifies this
      ensures config == old(config).(steps := old(config.steps) +
                [Step(newId, "Étape " + NatToString(|old(config.steps)| + 1), Some(""), |old(config.steps)|, [], None)])
      ensures activeStepIndex == |config.steps| - 1 && selectedFieldId == old(selectedFieldId)
      ensures Valid()
    {
      var n := |config.steps|;
      var step := Step(newId, "Étape " + NatToString(n + 1), Some(""), n, [], None);
      config := config.(steps := config.steps + [step]);
      activeStepIndex := |config.steps| - 1;
    }

    /** deleteStep: only an existing step, and only while more than one remains; the
        active index is pulled back when it falls off the end; the remaining steps keep
        their `order`. */
    method DeleteStep(id: string)
      modifies this
      ensures var k := FirstIndex(old(config.steps), StepIdIs(id));
              if k >= 0 && |old(config.steps)| > 1 then
                config == old(config).(steps := old(config.steps)[..k] + old(config.steps)[k + 1..])
                && activeStepIndex == (if old(activeStepIndex) >= |config.steps| then |config.steps| - 1
                                       else old(activeStepIndex))
              else
                config == old(config) && activeStepIndex == old(activeStepIndex)
      ensures selectedFieldId == old(selectedFieldId)
      ensures old(Valid()) ==> Valid()
    {
      var index := FirstIndex(config.steps, StepIdIs(id));
      if index > -1 && CanDeleteStep() {
        config := config.(steps := config.steps[..index] + config.steps[index + 1..]);
        if activeStepIndex >= |config.steps| {
          activeStepIndex := |config.steps| - 1;
        }
      }
    }

    /** updateStepTitle. */
    method UpdateStepTitle(id: string, title: string)
      modifies this
      ensures config == old(config).(steps := RetitleStep(old(config.steps), id, title))
      ensures activeStepIndex == old(activeStepIndex) && selectedFieldId == old(selectedFieldId)
      ensures old(Valid()) ==> Valid()
    {
      var k := FirstIndex(config.steps, StepIdIs(id));
      if k > -1 {
        var steps := config.steps;
        config := config.(steps := steps[k := steps[k].(title := title)]);
      }
    }

    /** addField: the given attributes with a new id, the active step's id and the next
        order, appended to the active step and selected; no-op without an active step.
        (`field` stands for the `Omit<FormField, 'id' | 'stepId' | 'order'>` argument:
        its own id, stepId and order are ignored.) */
    method AddField(field: Field, newId: string)
      modifies this
      ensures old(ActiveStep()).None? ==>
                config == old(config) && selectedFieldId == old(selectedFieldId)
      ensures old(ActiveStep()).Some? ==>
                var a := old(activeStepIndex);
                var st := old(config.steps)[a];
                config == old(config).(steps := old(config.steps)[a := st.(fields := st.fields +
                            [field.(id := newId, stepId := Some(st.id), order := |st.fields|)])])
                && selectedFieldId == Some(newId)
      ensures activeStepIndex == old(activeStepIndex)
      ensures old(Valid()) ==> Valid()
      ensures AllContiguous(old(config.steps)) ==> AllContiguous(config.steps)
    {
      var active := ActiveStep();
      if active.None? {
        return;
      }
      var st := active.value;
      var newField := field.(id := newId, stepId := Some(st.id), order := |st.fields|);
      config := config.(steps := config.steps[activeStepIndex := st.(fields := st.fields + [newField])]);
      selectedFieldId := Some(newId);
    }

    /** updateField. */
    method UpdateField(id: string, patch: FieldPatch)
      modifies this
      ensures config == old(config).(steps := UpdateFieldIn(old(config.steps), id, patch))
      ensures activeStepIndex == old(activeStepIndex) && selectedFieldId == old(selectedFieldId)
      ensures old(Valid()) ==> Valid()
    {
      var k := FirstIndex(config.steps, HoldsField(id));
      if k > -1 {
        var fields := config.steps[k].fields;
        var j := FirstIndex(fields, FormHelpers.IdIs(id));
        if j > -1 {
          fields := fields[j := ApplyPatch(fields[j], patch)];
          config := config.(steps := config.steps[k := config.steps[k].(fields := fields)]);
        }
      }
    }

    /** deleteField: splice, then `f.order = index` for each remaining field of that
        step. The selection is not cleared. */
    method DeleteField(id: string)
      modifies this
      ensures config == old(config).(steps := DeleteFieldIn(old(config.steps), id))
      ensures activeStepIndex == old(activeStepIndex) && selectedFieldId == old(selectedFieldId)
      ensures old(Valid()) ==> Valid()
    {
      var stepIndex := FirstIndex(config.steps, HoldsField(id));
      if stepIndex > -1 {
        var fields := config.steps[stepIndex].fields;
        var fieldIndex := FirstIndex(fields, FormHelpers.IdIs(id));
        if fieldIndex > -1 {
          var rest := fields[..fieldIndex] + fields[fieldIndex + 1..];
          var renumbered := Renumber(rest);
          config := config.(steps := config.steps[stepIndex := config.steps[stepIndex].(fields := renumbered)]);
        }
      }
    }

    /** duplicateField, with the generated id as a parameter. */
    method DuplicateField(id: string, newId: string)
      modifies this
      ensures config == old(config).(steps := DuplicateFieldIn(old(config.steps), id, newId))
      ensures activeStepIndex == old(activeStepIndex) && selectedFieldId == old(selectedFieldId)
      ensures old(Valid()) ==> Valid()
    {
      var found := FindFieldById(id);
      if found.None? {
        return;
      }
      var field := found.value;
      var duplicated := FormHelpers.CloneField(field, newId);
      var k := FirstIndex(config.steps, StepOfField(field.stepId));
      if k == -1 {
        return;
      }
      var fields := Shift(config.steps[k].fields, field.order);
      fields := fields + [duplicated];
      fields := SortBy(fields, FieldKey);
      fields := Renumber(fields);
      config := config.(steps := config.steps[k := config.steps[k].(fields := fields)]);
    }

    /** findFieldById of the builder: the same scan as the helper of the same name. */
    method FindFieldById(id: string) returns (r: Option<Field>)
      ensures r == FormHelpers.FieldInSteps(config.steps, id)
    {
      r := FormHelpers.FindFieldById(config.steps, id);
    }
  }

  /** `fields.forEach((f, index) => { f.order = index })`. */
  method Renumber(fields: seq<Field>) returns (r: seq<Field>)
    ensures r == FormHelpers.RenumberFields(fields)
  {
    r := fields;
    for i := 0 to |r|
      invariant |r| == |fields|
      invariant forall j :: 0 <= j < i ==> r[j] == fields[j].(order := j)
      invariant forall j :: i <= j < |r| ==> r[j] == fields[j]
    {
      r := r[i := r[i].(order := i)];
    }
  }

  /** `fields.forEach(f => { if (f.order > order) f.order += 1 })`. */
  method Shift(fields: seq<Field>, order: int) returns (r: seq<Field>)
    ensures r == ShiftAfter(fields, order)
  {
    r := fields;
    for i := 0 to |r|
      invariant |r| == |fields|
      invariant forall j :: 0 <= j < i ==> r[j] == ShiftAfter(fields, order)[j]
      invariant forall j :: i <= j < |r| ==> r[j] == fields[j]
    {
      if r[i].order > order {
        r := r[i := r[i].(order := r[i].order + 1)];
      }
    }
  }
}
