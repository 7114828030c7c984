/** The StepProvider component: the measurement pass that fills the two
    state cells `coordinates` and `rootCoordinates`, and the connector query
    served from them. */
module Provider {
  import opened Wrappers
  import opened Types
  import opened Geometry
  import opened Query

  /** What a measurement pass throws. */
  datatype MeasureError =
    | MissingStepElement(id: string)  // no element for `[data-step-id=<id>]`
    | MissingRootElement              // no element for `[data-root-id=root]`

  /** The two state cells, as a value. */
  datatype Measurements = Measurements(coordinates: seq<Entry>, root: Option<Rect>)

  /** `workflows.map(...)` of the measurement pass: one entry per step, in
      step order, or the error for the first step without a rectangle. */
  function MeasureSteps(ws: seq<Workflow>, stepRects: string -> Option<Rect>): (r: Result<seq<Entry>, MeasureError>)
    ensures r.Ok? <==> forall i :: 0 <= i < |ws| ==> stepRects(ws[i].id).Some?
    ensures r.Ok? ==>
      && |r.value| == |ws|
      && forall i :: 0 <= i < |ws| ==>
           r.value[i].id == ws[i].id && stepRects(ws[i].id) == Some(r.value[i].coordinate)
    ensures r.Err? ==>
      exists i :: 0 <= i < |ws| && r.error == MissingStepElement(ws[i].id) &&
        stepRects(ws[i].id).None? && forall j :: 0 <= j < i ==> stepRects(ws[j].id).Some?
  {
    if ws == [] then Ok([])
    else match stepRects(ws[0].id)
      case None => Err(MissingStepElement(ws[0].id))
      case Some(rect) =>
        match MeasureSteps(ws[1..], stepRects)
        case Err(e) =>
          var i :| 0 <= i < |ws[1..]| && e == MissingStepElement(ws[1..][i].id) &&
            stepRects(ws[1..][i].id).None? && forall j :: 0 <= j < i ==> stepRects(ws[1..][j].id).Some?;
          assert forall j :: 0 <= j < i + 1 ==> stepRects(ws[j].id).Some? by {
            forall j | 0 <= j < i + 1 ensures stepRects(ws[j].id).Some? {
              if j > 0 { assert ws[j] == ws[1..][j - 1]; }
            }
          }
          Err(e)
        case Ok(rest) =>
          assert forall i :: 1 <= i < |ws| ==> ws[i] == ws[1..][i - 1];
          Ok([Entry(ws[0].id, rect)] + rest)
  }

  /** One whole measurement pass (the layout effect): the step list is
      measured and stored, then the root is measured and stored.  It returns
      what the pass throws, if anything, and the new state cells. */
  function MeasurementPass(ws: seq<Workflow>, m: Measurements,
                           stepRects: string -> Option<Rect>, rootRect: Option<Rect>)
    : (Outcome<MeasureError>, Measurements)
  {
    match MeasureSteps(ws, stepRects)
    case Err(e) => (Fail(e), m)
    case Ok(cs) =>
      if rootRect.None? then (Fail(MissingRootElement), Measurements(cs, m.root))
      else (Pass, Measurements(cs, rootRect))
  }

  /** A pass with every element present stores one entry per step, with the
      same ids in the same order, and the root rectangle. */
  lemma SuccessfulPassStoresEveryStep(ws: seq<Workflow>, m: Measurements,
                                      stepRects: string -> Option<Rect>, root: Rect)
    requires forall i :: 0 <= i < |ws| ==> stepRects(ws[i].id).Some?
    ensures var (outcome, m') := MeasurementPass(ws, m, stepRects, Some(root));
      && outcome == Pass
      && m'.root == Some(root)
      && |m'.coordinates| == |ws|
      && forall i :: 0 <= i < |ws| ==>
           m'.coordinates[i] == Entry(ws[i].id, stepRects(ws[i].id).value)
  {
  }

  /** A missing step element aborts the pass before anything is stored. */
  lemma MissingStepLeavesStateUnchanged(ws: seq<Workflow>, m: Measurements,
                                        stepRects: string -> Option<Rect>, rootRect: Option<Rect>, k: nat)
    requires k < |ws| && stepRects(ws[k].id).None?
    ensures var (outcome, m') := MeasurementPass(ws, m, stepRects, rootRect);
      && m' == m
      && outcome.Fail? && outcome.error.MissingStepElement?
      && exists i :: 0 <= i <= k && outcome.error.id == ws[i].id && stepRects(ws[i].id).None?
  {
  }

  /** A missing root element aborts the pass after the step list has been
      replaced: the old root rectangle stays beside the new step list. */
  lemma MissingRootReplacesOnlyStepList(ws: seq<Workflow>, m: Measurements,
                                        stepRects: string -> Option<Rect>)
    requires forall i :: 0 <= i < |ws| ==> stepRects(ws[i].id).Some?
    ensures var (outcome, m') := MeasurementPass(ws, m, stepRects, None);
      && outcome == Fail(MissingRootElement)
      && m'.root == m.root
      && |m'.coordinates| == |ws|
      && forall i :: 0 <= i < |ws| ==>
           m'.coordinates[i] == Entry(ws[i].id, stepRects(ws[i].id).value)
  {
  }

  /** After a successful pass the state no longer depends on what was stored
      before it. */
  lemma SuccessfulPassForgetsOldState(ws: seq<Workflow>, m1: Measurements, m2: Measurements,
                                      stepRects: string -> Option<Rect>, rootRect: Option<Rect>)
    requires MeasurementPass(ws, m1, stepRects, rootRect).0 == Pass
    ensures MeasurementPass(ws, m1, stepRects, rootRect) == MeasurementPass(ws, m2, stepRects, rootRect)
  {
  }

  /** Repeating a pass over unchanged measurements changes nothing further. */
  lemma PassIsIdempotent(ws: seq<Workflow>, m: Measurements,
                         stepRects: string -> Option<Rect>, rootRect: Option<Rect>)
    ensures var once := MeasurementPass(ws, m, stepRects, rootRect);
      MeasurementPass(ws, once.1, stepRects, rootRect) == once
  {
  }

  /** After a successful pass, the stored list holds, for each step's id,
      exactly the rectangle measured for that id. */
  lemma PassRecordsStep(ws: seq<Workflow>, m: Measurements,
                        stepRects: string -> Option<Rect>, rootRect: Option<Rect>, k: nat)
    requires MeasurementPass(ws, m, stepRects, rootRect).0 == Pass
    requires k < |ws|
    ensures stepRects(ws[k].id).Some?
    ensures MeasuredAs(MeasurementPass(ws, m, stepRects, rootRect).1.coordinates,
                       ws[k].id, stepRects(ws[k].id).value)
  {
  }

  /** After a successful pass, every step that links to a step of the chain
      has a connector, drawn between the rectangles measured for the two. */
  lemma MeasuredChainHasConnectors(ws: seq<Workflow>, m: Measurements,
                                   stepRects: string -> Option<Rect>, root: Rect,
                                   o: Orientation, id: string, n: string)
    requires MeasurementPass(ws, m, stepRects, Some(root)).0 == Pass
    requires Links(ws, id, n)
    requires exists k :: 0 <= k < |ws| && ws[k].id == n
    ensures var m' := MeasurementPass(ws, m, stepRects, Some(root)).1;
      && stepRects(id).Some? && stepRects(n).Some?
      && LineStyles(ws, m'.coordinates, m'.root, o, id)
         == Ok(Some(ConnectorBox(o, stepRects(id).value, stepRects(n).value, root)))
  {
    var i :| 0 <= i < |ws| && ws[i].id == id && ws[i].nextId == Some(n) &&
      forall j :: 0 <= j < i ==> ws[j].id != id;
    var k :| 0 <= k < |ws| && ws[k].id == n;
    PassRecordsStep(ws, m, stepRects, Some(root), i);
    PassRecordsStep(ws, m, stepRects, Some(root), k);
    var cs := MeasurementPass(ws, m, stepRects, Some(root)).1.coordinates;
    MeasuredLinkGivesBox(ws, cs, root, o, id, n, stepRects(id).value, stepRects(n).value);
  }

  /** A link to an id that names no step yields `undefined` even after a
      successful pass: the target was never measured. */
  lemma DanglingLinkHasNoConnector(ws: seq<Workflow>, m: Measurements,
                                   stepRects: string -> Option<Rect>, rootRect: Option<Rect>,
                                   o: Orientation, id: string, n: string)
    requires MeasurementPass(ws, m, stepRects, rootRect).0 == Pass
    requires Links(ws, id, n)
    requires forall k :: 0 <= k < |ws| ==> ws[k].id != n
    ensures var m' := MeasurementPass(ws, m, stepRects, rootRect).1;
      LineStyles(ws, m'.coordinates, m'.root, o, id) == Ok(None)
  {
  }

  /** The provider: the step list and orientation it was given, and the two
      state cells the measurement pass replaces. */
  class StepProvider {
    const workflows: seq<Workflow>
    var orientation: Orientation
    var coordinates: seq<Entry>
    var rootCoordinates: Option<Rect>

    /** A fresh provider has measured nothing. */
    constructor (workflows: seq<Workflow>, orientation: Orientation)
      ensures this.workflows == workflows && this.orientation == orientation
      ensures coordinates == [] && rootCoordinates == None
    {
      this.workflows := workflows;
      this.orientation := orientation;
      coordinates := [];
      rootCoordinates := None;
    }

    function State(): Measurements
      reads this
    {
      Measurements(coordinates, rootCoordinates)
    }

    /** The layout effect: measure every step, store the list, then measure
        and store the root.  `stepRects` reports the rectangle of the element
        carrying a step id, `rootRect` that of the container. */
    method Remeasure(stepRects: string -> Option<Rect>, rootRect: Option<Rect>)
      returns (outcome: Outcome<MeasureError>)
      modifies this
      ensures orientation == old(orientation)
      ensures (outcome, State()) == MeasurementPass(workflows, old(State()), stepRects, rootRect)
    {
      var mapped: seq<Entry> := [];
      var i := 0;
      while i < |workflows|
        invariant 0 <= i <= |workflows|
        invariant |mapped| == i
        invariant forall k :: 0 <= k < i ==>
          mapped[k].id == workflows[k].id && stepRects(workflows[k].id) == Some(mapped[k].coordinate)
      {
        var w := workflows[i];
        var elem := stepRects(w.id);
        if elem.None? {
          ghost var r := MeasureSteps(workflows, stepRects);
          ghost var j :| 0 <= j < |workflows| && r.error == MissingStepElement(workflows[j].id) &&
            stepRects(workflows[j].id).None? && forall k :: 0 <= k < j ==> stepRects(workflows[k].id).Some?;
          assert j == i;
          return Fail(MissingStepElement(w.id));
        }
        mapped := mapped + [Entry(w.id, elem.value)];
        i := i + 1;
      }
      assert MeasureSteps(workflows, stepRects).value == mapped;
      coordinates := mapped;
      if rootRect.None? {
        return Fail(MissingRootElement);
      }
      rootCoordinates := rootRect;
      outcome := Pass;
    }

    /** A new orientation re-runs the layout effect; the same orientation
        does not. */
    method SetOrientation(o: Orientation, stepRects: string -> Option<Rect>, rootRect: Option<Rect>)
      returns (outcome: Outcome<MeasureError>)
      modifies this
      ensures orientation == o
      ensures o == old(orientation) ==> outcome == Pass && State() == old(State())
      ensures o != old(orientation) ==>
        (outcome, State()) == MeasurementPass(workflows, old(State()), stepRects, rootRect)
    {
      outcome := Pass;
      if o != orientation {
        orientation := o;
        outcome := Remeasure(stepRects, rootRect);
      }
    }

    /** getLineStyles over the current state cells and orientation.  It
        throws exactly when no step links onward from `id`; before the root
        has been measured it never yields a style. */
    function GetLineStyles(id: string): (r: Result<Option<LineStyle>, QueryError>)
      reads this
      ensures r.Err? <==> forall n :: !Links(workflows, id, n)
      ensures rootCoordinates.None? ==> r.Err? || r == Ok(None)
    {
      ThrowsIffNoLink(workflows, coordinates, rootCoordinates, orientation, id);
      LineStyles(workflows, coordinates, rootCoordinates, orientation, id)
    }
  }
}
