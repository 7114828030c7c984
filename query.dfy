/** getLineStyles as a pure function of the step list, the measured
    coordinate list, the root rectangle and the orientation. */
module Query {
  import opened Wrappers
  import opened Types
  import opened Lookup
  import opened Geometry

  /** Thrown when the queried id names no step, or a step without `nextId`;
      the thrown message is fixed and does not name the id. */
  datatype QueryError = NoNextStep

  /** The link the query follows: the first step carrying `id` exists and its
      `nextId` is `n`. */
  ghost predicate Links(ws: seq<Workflow>, id: string, n: string)
  {
    exists i :: 0 <= i < |ws| && ws[i].id == id && ws[i].nextId == Some(n) &&
      forall j :: 0 <= j < i ==> ws[j].id != id
  }

  /** Every entry carrying `id` holds `rect`, and there is at least one. */
  ghost predicate MeasuredAs(cs: seq<Entry>, id: string, rect: Rect)
  {
    (exists i :: 0 <= i < |cs| && cs[i].id == id) &&
    forall i :: 0 <= i < |cs| && cs[i].id == id ==> cs[i].coordinate == rect
  }

  /** The connector style for the line leaving step `id`: an error when the
      step is unknown or terminal, `None` (`undefined`) when a rectangle it
      needs has not been measured, and otherwise the connector box. */
  function LineStyles(ws: seq<Workflow>, cs: seq<Entry>, root: Option<Rect>,
                      o: Orientation, id: string): Result<Option<LineStyle>, QueryError>
  {
    var fromCoordinates := FindCoordinate(cs, id);
    var toStep := FindWorkflow(ws, id);
    if toStep.None? || toStep.value.nextId.None? then Err(NoNextStep)
    else
      var toCoordinates := FindCoordinate(cs, toStep.value.nextId.value);
      if fromCoordinates.None? || toCoordinates.None? || root.None? then Ok(None)
      else Ok(Some(ConnectorBox(o, fromCoordinates.value, toCoordinates.value, root.value)))
  }

  /** The query throws exactly when no step links onward from `id`, whatever
      has been measured. */
  lemma ThrowsIffNoLink(ws: seq<Workflow>, cs: seq<Entry>, root: Option<Rect>,
                        o: Orientation, id: string)
    ensures LineStyles(ws, cs, root, o, id).Err? <==> forall n :: !Links(ws, id, n)
  {
    var toStep := FindWorkflow(ws, id);
    if toStep.Some? && toStep.value.nextId.Some? {
      assert Links(ws, id, toStep.value.nextId.value);
    } else {
      forall n ensures !Links(ws, id, n) {
        if Links(ws, id, n) {
          FollowsLink(ws, id, n);
        }
      }
    }
  }

  /** The first step carrying `id` is the one the query follows. */
  lemma FollowsLink(ws: seq<Workflow>, id: string, n: string)
    requires Links(ws, id, n)
    ensures FindWorkflow(ws, id).Some? && FindWorkflow(ws, id).value.nextId == Some(n)
  {
  }

  /** Which error is thrown does not depend on coordinates, root or orientation:
      the step check comes before any coordinate matters. */
  lemma ErrorPrecedesMeasurement(ws: seq<Workflow>, id: string,
                                 cs: seq<Entry>, root: Option<Rect>, o: Orientation,
                                 cs': seq<Entry>, root': Option<Rect>, o': Orientation)
    ensures LineStyles(ws, cs, root, o, id).Err? == LineStyles(ws, cs', root', o', id).Err?
    ensures LineStyles(ws, cs, root, o, id).Err? ==>
      LineStyles(ws, cs, root, o, id) == LineStyles(ws, cs', root', o', id)
  {
  }

  /** Before anything is measured, a linked step has no style yet. */
  lemma UnmeasuredHasNoStyle(ws: seq<Workflow>, o: Orientation, id: string, n: string)
    requires Links(ws, id, n)
    ensures LineStyles(ws, [], None, o, id) == Ok(None)
  {
  }

  /** A linked step gets `undefined`, not an error, when its own rectangle,
      its target's rectangle or the root rectangle is missing. */
  lemma MissingRectGivesNoStyle(ws: seq<Workflow>, cs: seq<Entry>, root: Option<Rect>,
                                o: Orientation, id: string, n: string)
    requires Links(ws, id, n)
    requires (forall i :: 0 <= i < |cs| ==> cs[i].id != id)
          || (forall i :: 0 <= i < |cs| ==> cs[i].id != n)
          || root.None?
    ensures LineStyles(ws, cs, root, o, id) == Ok(None)
  {
  }

  /** A linked step whose rectangle, target rectangle and root are measured
      gets the connector box between those rectangles. */
  lemma MeasuredLinkGivesBox(ws: seq<Workflow>, cs: seq<Entry>, root: Rect,
                             o: Orientation, id: string, n: string, from: Rect, to: Rect)
    requires Links(ws, id, n)
    requires MeasuredAs(cs, id, from) && MeasuredAs(cs, n, to)
    ensures LineStyles(ws, cs, Some(root), o, id) == Ok(Some(ConnectorBox(o, from, to, root)))
  {
  }
}
