/**
 * `sar.widget.MainView`: the row of section titles, the seven step tiles, which tile is
 * active, which step the stack shows, and the `model` handed to the steps when the
 * Load Model step fires `modelSet`. What each step does with a new model is modelled with
 * that step.
 */
module MainView {
  import opened Wrappers
  import opened Widgets
  import opened StepUtils

  datatype Step =
    | TrainingSetGeneration | AnalysisCreation | LoadModel | TestSetGeneration
    | ConfirmModel | ExploreSpace | Verify

  /** The steps in the order they are created; step i's tile sits in column i. */
  const Steps: seq<Step> := [TrainingSetGeneration, AnalysisCreation, LoadModel, TestSetGeneration,
                             ConfirmModel, ExploreSpace, Verify]

  const StepCount := 7

  const StepTitles: seq<string> := ["Training Set Generation", "Analysis & Creation", "Load Model",
                                    "Test Set Generation", "Confirm Model", "Explore Space", "Verify"]

  const StepIcons: seq<string> := ["sar/icons/step0_icon.png", "sar/icons/step1_icon.png",
                                   "sar/icons/step_import_icon.svg", "sar/icons/step2_icon.png",
                                   "sar/icons/step3_icon.png", "sar/icons/step4_icon.png",
                                   "sar/icons/step5_icon.png"]

  /** The steps that receive the loaded model and are enabled only while there is one. */
  predicate Gated(s: Step)
  {
    s == TestSetGeneration || s == ConfirmModel || s == ExploreSpace || s == Verify
  }

  /** Exactly four of the seven steps are gated. */
  lemma FourGatedSteps()
    ensures |set i | 0 <= i < StepCount && Gated(Steps[i])| == 4
    ensures forall i :: 0 <= i < StepCount ==> (Gated(Steps[i]) <==> i in {3, 4, 5, 6})
  {
    assert (set i | 0 <= i < StepCount && Gated(Steps[i])) == {3, 4, 5, 6};
  }

  // ----- Section titles -----

  datatype Section = Section(caption: string, colSpan: nat)

  const Sections: seq<Section> := [Section("Model Creation", 2), Section("", 1),
                                   Section("Model Confirmation", 2), Section("Critical Data Space Search", 2)]

  function SpanSum(sections: seq<Section>): nat
  {
    if |sections| == 0 then 0 else SpanSum(sections[..|sections| - 1]) + sections[|sections| - 1].colSpan
  }

  /** The `forEach` that places each section title at the running column `col`. */
  method SectionColumns(sections: seq<Section>) returns (columns: seq<nat>)
    ensures |columns| == |sections|
    ensures forall i :: 0 <= i < |sections| ==> columns[i] == SpanSum(sections[..i])
  {
    columns := [];
    var col := 0;
    var i := 0;
    while i < |sections|
      invariant 0 <= i <= |sections|
      invariant |columns| == i && col == SpanSum(sections[..i])
      invariant forall k :: 0 <= k < i ==> columns[k] == SpanSum(sections[..k])
    {
      columns := columns + [col];
      assert sections[..i + 1][..i] == sections[..i];
      col := col + sections[i].colSpan;
      i := i + 1;
    }
  }

  /**
   * The titles start at columns 0, 2, 3 and 5, and together they span exactly the seven
   * tile columns.
   */
  lemma SectionLayout()
    ensures SpanSum(Sections[..0]) == 0 && SpanSum(Sections[..1]) == 2
    ensures SpanSum(Sections[..2]) == 3 && SpanSum(Sections[..3]) == 5
    ensures SpanSum(Sections) == StepCount
  {
    assert Sections[..1][..0] == Sections[..0];
    assert Sections[..2][..1] == Sections[..1];
    assert Sections[..3][..2] == Sections[..2];
    assert Sections[..4][..3] == Sections[..3];
    assert Sections[..4] == Sections;
  }

  // ----- The view -----

  /** `new sar.widget.StepButton(label, icon)` for step i: an inactive, enabled tile. */
  method NewTile(i: nat) returns (b: StepButton)
    requires i < StepCount
    ensures fresh(b) && b.Valid() && !b.isActive && b.enabled
  {
    b := new StepButton(StepTitles[i], StepIcons[i]);
  }

  class View {
    /** The tiles, in step order. */
    var buttons: seq<StepButton>
    /** The `model` property of each step. */
    var models: seq<Metadata>
    /** The index of the step the stack shows. */
    var shown: nat
    ghost var Repr: set<object>

    ghost predicate Valid()
      reads this, Repr
    {
      |buttons| == StepCount && |models| == StepCount && shown < StepCount
      && (forall i, j :: 0 <= i < j < StepCount ==> buttons[i] != buttons[j])
      && (forall i :: 0 <= i < StepCount ==> buttons[i] in Repr)
      && (forall i :: 0 <= i < StepCount ==> buttons[i].Valid())
    }

    /** Exactly the tile `idx` is active. */
    ghost predicate ActiveIs(idx: nat)
      requires Valid()
      reads this, Repr
    {
      forall i :: 0 <= i < StepCount ==> (buttons[i].isActive <==> i == idx)
    }

    /**
     * The constructor: seven enabled tiles, the first one active and shown, and no model
     * anywhere (`__initModel` sets the Load Model step's model to null, which it already is).
     */
    constructor()
      ensures Valid() && fresh(Repr)
      ensures ActiveIs(0) && shown == 0
      ensures forall i :: 0 <= i < StepCount ==> buttons[i].enabled && models[i] == None
    {
      var tiles: seq<StepButton> := [];
      var i := 0;
      while i < StepCount
        invariant 0 <= i <= StepCount && |tiles| == i
        invariant forall j, k :: 0 <= j < k < i ==> tiles[j] != tiles[k]
        invariant forall j :: 0 <= j < i ==> fresh(tiles[j])
        invariant forall j :: 0 <= j < i ==> tiles[j].Valid() && !tiles[j].isActive && tiles[j].enabled
      {
        var b := NewTile(i);
        tiles := tiles + [b];
        i := i + 1;
      }
      tiles[0].SetIsActive(true);
      buttons := tiles;
      models := seq(StepCount, _ => None);
      shown := 0;
      Repr := set j | 0 <= j < StepCount :: tiles[j];
    }

    /**
     * Tapping the tile `idx` (a disabled tile receives no tap): the stack shows that step
     * and the loop leaves exactly that tile active; nothing else changes.
     */
    method Tap(idx: nat)
      requires Valid() && idx < StepCount && buttons[idx].enabled
      modifies Repr, this
      ensures Valid() && Repr == old(Repr) && buttons == old(buttons) && models == old(models)
      ensures shown == idx && ActiveIs(idx)
      ensures forall i :: 0 <= i < StepCount ==> buttons[i].enabled == old(buttons[i].enabled)
    {
      shown := idx;
      var k := 0;
      while k < StepCount
        invariant 0 <= k <= StepCount
        invariant Valid() && Repr == old(Repr) && buttons == old(buttons) && models == old(models) && shown == idx
        invariant forall i :: 0 <= i < k ==> (buttons[i].isActive <==> i == idx)
        invariant forall i :: 0 <= i < StepCount ==> buttons[i].enabled == old(buttons[i].enabled)
      {
        Mark(k, k == idx);
        k := k + 1;
      }
    }

    /**
     * The `modelSet` handler: exactly the gated steps get the model, and their tiles are
     * enabled iff it is not null; the other steps, which tile is active and what is shown
     * stay as they were.
     */
    method OnModelSet(model: Metadata)
      requires Valid()
      modifies Repr, this
      ensures Valid() && Repr == old(Repr) && buttons == old(buttons) && shown == old(shown)
      ensures forall i :: 0 <= i < StepCount && Gated(Steps[i]) ==>
        models[i] == model && buttons[i].enabled == model.Some?
      ensures forall i :: 0 <= i < StepCount && !Gated(Steps[i]) ==>
        models[i] == old(models[i]) && buttons[i].enabled == old(buttons[i].enabled)
      ensures forall i :: 0 <= i < StepCount ==> buttons[i].isActive == old(buttons[i].isActive)
    {
      var k := 0;
      while k < StepCount
        invariant 0 <= k <= StepCount
        invariant Valid() && Repr == old(Repr) && buttons == old(buttons) && shown == old(shown)
        invariant |models| == StepCount
        invariant forall i :: 0 <= i < k && Gated(Steps[i]) ==> models[i] == model && buttons[i].enabled == model.Some?
        invariant forall i :: 0 <= i < StepCount && !(i < k && Gated(Steps[i])) ==>
          models[i] == old(models[i]) && buttons[i].enabled == old(buttons[i].enabled)
        invariant forall i :: 0 <= i < StepCount ==> buttons[i].isActive == old(buttons[i].isActive)
      {
        if Gated(Steps[k]) {
          Gate(k, model);
        }
        k := k + 1;
      }
    }

    /** One turn of the tap loop: tile `k` is marked active or not; no other tile changes. */
    method Mark(k: nat, active: bool)
      requires Valid() && k < StepCount
      modifies buttons[k]
      ensures Valid() && buttons[k].isActive == active
      ensures forall i :: 0 <= i < StepCount && i != k ==> buttons[i].isActive == old(buttons[i].isActive)
      ensures forall i :: 0 <= i < StepCount ==> buttons[i].enabled == old(buttons[i].enabled)
    {
      buttons[k].SetIsActive(active);
    }

    /** One turn of the `modelSet` loop on a gated step: its model is set and its tile follows. */
    method Gate(k: nat, model: Metadata)
      requires Valid() && k < StepCount
      modifies this, buttons[k]
      ensures Valid() && Repr == old(Repr) && buttons == old(buttons) && shown == old(shown)
      ensures models == old(models)[k := model] && buttons[k].enabled == model.Some?
      ensures forall i :: 0 <= i < StepCount && i != k ==> buttons[i].enabled == old(buttons[i].enabled)
      ensures forall i :: 0 <= i < StepCount ==> buttons[i].isActive == old(buttons[i].isActive)
    {
      models := models[k := model];
      buttons[k].SetEnabled(model.Some?);
    }

    /** `__initModel`: the Load Model step's model becomes null. */
    method InitModel()
      requires Valid()
      modifies this
      ensures Valid() && buttons == old(buttons) && shown == old(shown)
      ensures models == old(models)[2 := None]
    {
      models := models[2 := None];
    }
  }

  /**
   * Whatever happens, one tile stays active: a tap moves the mark and a `modelSet` leaves
   * it where it was, even on a tile it disables.
   */
  method ActiveAfterModelSet(v: View, idx: nat, model: Metadata)
    requires v.Valid() && idx < StepCount && v.ActiveIs(idx)
    modifies v.Repr, v
    ensures v.Valid() && v.ActiveIs(idx)
    ensures Gated(Steps[idx]) && model.None? ==> !v.buttons[idx].enabled
  {
    v.OnModelSet(model);
  }
}
