/**
 * `sar.steps.ConfirmModel`: the four decorated result labels filled from the "confirm"
 * reply, the QQ and deviations plots, the report button that a confirmation enables, and the
 * reaction to a new model. One request is one step: the transport's reply is an input.
 */
module ConfirmModel {
  import opened Wrappers
  import opened Widgets
  import opened StepUtils
  import opened Resources

  /** The keys of the confirmation reply, in the order of the value labels. */
  const ResultKeys: seq<string> := ["Acceptance criteria", "Normality", "QQ location", "QQ scale"]

  /** What each label shows after a reply: the value under its key, or null when the key is absent. */
  function ResultValues(data: map<string, string>, keys: seq<string>): (r: seq<Option<string>>)
    ensures |r| == |keys|
    ensures forall i :: 0 <= i < |keys| ==> (r[i].Some? <==> keys[i] in data)
    ensures forall i :: 0 <= i < |keys| && keys[i] in data ==> r[i] == Some(data[keys[i]])
  {
    seq(|keys|, i requires 0 <= i < |keys| => if keys[i] in data then Some(data[keys[i]]) else None)
  }

  /** `__resetValueLabels`: the `forEach` that resets every label. */
  method ResetLabels(labels: seq<Label>)
    requires forall i :: 0 <= i < |labels| ==> labels[i].Valid()
    modifies labels
    ensures forall i :: 0 <= i < |labels| ==> labels[i].Valid() && labels[i].value == None
    ensures forall i :: 0 <= i < |labels| && labels[i].decorated ==> labels[i].textColor == DefaultColour
  {
    var k := 0;
    while k < |labels|
      invariant 0 <= k <= |labels|
      invariant forall i :: 0 <= i < |labels| ==> labels[i].Valid()
      invariant forall i :: 0 <= i < k ==> labels[i].value == None
      invariant forall i :: 0 <= i < k && labels[i].decorated ==> labels[i].textColor == DefaultColour
    {
      labels[k].ResetValue();
      k := k + 1;
    }
  }

  /** `__resetImages`: the `forEach` that resets every image. */
  method ResetImages(images: seq<Image>)
    modifies images
    ensures forall i :: 0 <= i < |images| ==> images[i].source == None
  {
    var k := 0;
    while k < |images|
      invariant 0 <= k <= |images|
      invariant forall i :: 0 <= i < k ==> images[i].source == None
    {
      images[k].ResetSource();
      k := k + 1;
    }
  }

  /** Every label is empty. */
  ghost predicate Cleared(labels: seq<Label>)
    reads labels
  {
    forall i :: 0 <= i < |labels| ==> labels[i].value == None
  }

  /** The labels hold `values`, in order. */
  ghost predicate Shows(labels: seq<Label>, values: seq<Option<string>>)
    reads labels
  {
    |labels| == |values| && forall i :: 0 <= i < |labels| ==> labels[i].value == values[i]
  }

  /** The labels are distinct objects. */
  ghost predicate Distinct(labels: seq<Label>)
  {
    forall i, j :: 0 <= i < j < |labels| ==> labels[i] != labels[j]
  }

  /**
   * The `then` of the confirm handler: each label whose key the reply holds takes that
   * value; the others keep theirs.
   */
  method ShowResults(labels: seq<Label>, keys: seq<string>, data: map<string, string>)
    requires |labels| == |keys| && Distinct(labels)
    requires forall i :: 0 <= i < |labels| ==> labels[i].Valid()
    modifies labels
    ensures forall i :: 0 <= i < |labels| ==> labels[i].Valid()
    ensures forall i :: 0 <= i < |labels| ==>
      labels[i].value == (if keys[i] in data then Some(data[keys[i]]) else old(labels[i].value))
  {
    var k := 0;
    while k < |labels|
      invariant 0 <= k <= |labels|
      invariant forall i :: 0 <= i < |labels| ==> labels[i].Valid()
      invariant forall i :: 0 <= i < |labels| ==>
        labels[i].value == (if i < k && keys[i] in data then Some(data[keys[i]]) else old(labels[i].value))
    {
      if keys[k] in data {
        labels[k].SetValue(Some(data[keys[k]]));
      }
      k := k + 1;
    }
  }

  /** The four value labels, each passed to `decoratePassFailLabel` and pushed in turn. */
  method NewResultLabels() returns (labels: seq<Label>)
    ensures |labels| == 4 && Distinct(labels)
    ensures forall i :: 0 <= i < 4 ==>
      fresh(labels[i]) && labels[i].Valid() && labels[i].decorated && labels[i].value == None
  {
    labels := [];
    while |labels| < 4
      invariant |labels| <= 4 && Distinct(labels)
      invariant forall i :: 0 <= i < |labels| ==>
        fresh(labels[i]) && labels[i].Valid() && labels[i].decorated && labels[i].value == None
    {
      var created := new Label(true);
      labels := labels + [created];
    }
  }

  /** The report button of `createGenerateReportButton`: created disabled. */
  method NewReportButton() returns (b: FetchButton)
    ensures fresh(b) && b.Valid() && b.attached && !b.enabled && !b.fetching && b.icon == None
  {
    b := new FetchButton(None, true);
    b.SetEnabled(false);
  }

  class ConfirmStep {
    /** The value labels of acceptance, normality, QQ location and QQ scale. */
    const labels: seq<Label>
    /** The QQ plot and the deviations plot. */
    const images: seq<Image>
    const confirmButton: FetchButton
    const reportButton: FetchButton
    /** The `model` property. */
    var model: Metadata
    /** The options column: the model viewer, then the grid of buttons and results. */
    var options: seq<Panel>
    ghost var Repr: set<object>

    /** The widgets are distinct and all in `Repr`. */
    ghost predicate Parts()
      reads this
    {
      this !in Repr && |labels| == 4 && Distinct(labels) && |images| == 2 && images[0] != images[1]
      && (forall i :: 0 <= i < 4 ==> labels[i] in Repr && labels[i].decorated)
      && images[0] in Repr && images[1] in Repr
      && confirmButton in Repr && reportButton in Repr && confirmButton != reportButton
      && confirmButton.attached && reportButton.attached
    }

    ghost predicate Valid()
      reads this, Repr
    {
      Parts()
      && (forall i :: 0 <= i < 4 ==> labels[i].Valid())
      && confirmButton.Valid() && reportButton.Valid()
      && |options| == 2 && options[0].ViewerPanel? && options[0].shows == model && options[1] == ControlsPanel
    }

    /** Every result is empty, and the report button starts disabled. */
    constructor()
      ensures Valid() && fresh(Repr) && model == None && ShowsModel(options[0], None, true, false)
      ensures Cleared(labels)
      ensures images[0].source == None && images[1].source == None
      ensures !reportButton.enabled && !reportButton.fetching && confirmButton.enabled && !confirmButton.fetching
    {
      var viewer := NewViewer(None, true, false);
      var values := NewResultLabels();
      var qq := new Image();
      var deviations := new Image();
      var confirm := new FetchButton(None, true);
      var report := NewReportButton();
      labels := values;
      images := [qq, deviations];
      confirmButton := confirm;
      reportButton := report;
      model := None;
      options := [viewer, ControlsPanel];
      Repr := {values[0], values[1], values[2], values[3], qq, deviations, confirm, report};
      new;
      assert Parts();
    }

    /** `resetResults`: every label and image is reset and the report button disabled. */
    method ResetResults()
      requires Valid()
      modifies Repr
      ensures Valid()
      ensures Cleared(labels)
      ensures forall i :: 0 <= i < 4 ==> labels[i].textColor == DefaultColour
      ensures images[0].source == None && images[1].source == None
      ensures !reportButton.enabled && reportButton.fetching == old(reportButton.fetching)
      ensures confirmButton.fetching == old(confirmButton.fetching) && confirmButton.enabled == old(confirmButton.enabled)
    {
      ResetLabels(labels);
      ResetImages(images);
      reportButton.SetEnabled(false);
    }

    /**
     * `setModel(md)`, unless null is set over null: the viewer at index 0 is replaced by
     * one of `md`, and a null model also resets the results.
     */
    method SetModel(md: Metadata)
      requires Valid()
      modifies this, Repr
      ensures Valid() && model == md && Repr == old(Repr)
      ensures md.Some? || old(model).Some? ==> ShowsModel(options[0], md, true, false)
      ensures md.Some? || old(model).None? ==> unchanged(Repr)
      ensures md.None? && old(model).Some? ==>
        Cleared(labels) && images[0].source == None
        && images[1].source == None && !reportButton.enabled
    {
      if md.Some? || model.Some? {
        model := md;
        var viewer := NewViewer(md, true, false);
        options := [viewer] + options[1..];
        if md.None? {
          ResetResults();
        }
      }
    }

    /**
     * The confirm button: busy while the request runs; the labels are reset, then a reply
     * fills those whose key it holds, enables the report button and points the plots at
     * their registered URLs. A rejected request leaves the labels reset and the rest as it was.
     */
    method Confirm(reply: Reply<map<string, string>>) returns (outcome: Outcome<map<string, string>>)
      requires Valid() && !confirmButton.fetching
      modifies Repr
      ensures Valid() && outcome == Fetch("confirmModel", "confirm", reply)
      ensures !confirmButton.fetching && confirmButton.enabled && confirmButton.icon == old(confirmButton.icon)
      ensures outcome.Resolved? ==>
        Shows(labels, ResultValues(outcome.response, ResultKeys))
        && reportButton.enabled
        && images[0].source == Some("/confirm-model/qqplot")
        && images[1].source == Some("/confirm-model/deviations")
      ensures outcome.Rejected? ==>
        Cleared(labels)
        && reportButton.enabled == old(reportButton.enabled)
        && images[0].source == old(images[0].source) && images[1].source == old(images[1].source)
    {
      confirmButton.SetFetching(true);
      outcome := Request(reply);
      confirmButton.SetFetching(false);
    }

    /** What the confirm handler does while its button is busy. */
    method Request(reply: Reply<map<string, string>>) returns (outcome: Outcome<map<string, string>>)
      requires Valid()
      modifies Repr
      ensures Valid() && outcome == Fetch("confirmModel", "confirm", reply)
      ensures confirmButton.fetching == old(confirmButton.fetching) && confirmButton.icon == old(confirmButton.icon)
      ensures confirmButton.savedIcon == old(confirmButton.savedIcon) && confirmButton.rotating == old(confirmButton.rotating)
      ensures confirmButton.enabled == old(confirmButton.enabled)
      ensures outcome.Resolved? ==>
        Shows(labels, ResultValues(outcome.response, ResultKeys))
        && reportButton.enabled
        && images[0].source == Some("/confirm-model/qqplot")
        && images[1].source == Some("/confirm-model/deviations")
      ensures outcome.Rejected? ==>
        Cleared(labels)
        && reportButton.enabled == old(reportButton.enabled)
        && images[0].source == old(images[0].source) && images[1].source == old(images[1].source)
    {
      ResetLabels(labels);
      outcome := Fetch("confirmModel", "confirm", reply);
      if outcome.Resolved? {
        Respond(outcome.response);
      }
    }

    /** The `then` of the confirm handler, after the labels were reset. */
    method Respond(data: map<string, string>)
      requires Valid() && Cleared(labels)
      modifies Repr
      ensures Valid() && Shows(labels, ResultValues(data, ResultKeys)) && reportButton.enabled
      ensures images[0].source == Some("/confirm-model/qqplot")
      ensures images[1].source == Some("/confirm-model/deviations")
      ensures confirmButton.fetching == old(confirmButton.fetching) && confirmButton.icon == old(confirmButton.icon)
      ensures confirmButton.savedIcon == old(confirmButton.savedIcon) && confirmButton.rotating == old(confirmButton.rotating)
      ensures confirmButton.enabled == old(confirmButton.enabled)
    {
      ShowResults(labels, ResultKeys, data);
      ModelConfirmed();
    }

    /** `__modelConfirmed`: the report button is enabled and both plots are requested. */
    method ModelConfirmed()
      requires Valid()
      modifies Repr
      ensures Valid() && reportButton.enabled
      ensures images[0].source == Some("/confirm-model/qqplot")
      ensures images[1].source == Some("/confirm-model/deviations")
      ensures forall i :: 0 <= i < 4 ==> labels[i].value == old(labels[i].value)
      ensures confirmButton.fetching == old(confirmButton.fetching) && confirmButton.enabled == old(confirmButton.enabled)
      ensures confirmButton.icon == old(confirmButton.icon) && confirmButton.savedIcon == old(confirmButton.savedIcon)
      ensures confirmButton.rotating == old(confirmButton.rotating)
    {
      reportButton.SetEnabled(true);
      ConfirmPlotUrls();
      var qq := EndPointUrl("confirmModel", "getQQPlot");
      var deviations := EndPointUrl("confirmModel", "getDeviations");
      images[0].SetSource(qq.value);
      images[1].SetSource(deviations.value);
    }
  }
}
