/** First-match lookups by id, as `Array.prototype.find` performs them in
    StepProvider. */
module Lookup {
  import opened Wrappers
  import opened Types

  /** Position of the first element of `keys` equal to `id`, if any. */
  function FirstIndex(keys: seq<string>, id: string): (r: Option<nat>)
    ensures r.None? <==> id !in keys
    ensures r.Some? ==> r.value < |keys| && keys[r.value] == id && forall j :: 0 <= j < r.value ==> keys[j] != id
  {
    if keys == [] then None
    else if keys[0] == id then Some(0)
    else match FirstIndex(keys[1..], id)
      case None => None
      case Some(k) => Some(k + 1)
  }

  function EntryIds(cs: seq<Entry>): seq<string>
  {
    seq(|cs|, i requires 0 <= i < |cs| => cs[i].id)
  }

  function WorkflowIds(ws: seq<Workflow>): seq<string>
  {
    seq(|ws|, i requires 0 <= i < |ws| => ws[i].id)
  }

  /** `coordinates.find((c) => c.id === id)`: the rectangle of the first
      entry carrying `id`. */
  function FindCoordinate(cs: seq<Entry>, id: string): (r: Option<Rect>)
    ensures r.None? <==> forall i :: 0 <= i < |cs| ==> cs[i].id != id
    ensures r.Some? ==>
      exists i :: 0 <= i < |cs| && cs[i] == Entry(id, r.value) &&
        forall j :: 0 <= j < i ==> cs[j].id != id
  {
    var ids := EntryIds(cs);
    match FirstIndex(ids, id)
    case None =>
      assert forall i :: 0 <= i < |cs| ==> ids[i] == cs[i].id;
      None
    case Some(k) =>
      assert forall j :: 0 <= j < k ==> ids[j] == cs[j].id;
      Some(cs[k].coordinate)
  }

  /** `workflows.find((w) => w.id === id)`: the first step carrying `id`. */
  function FindWorkflow(ws: seq<Workflow>, id: string): (r: Option<Workflow>)
    ensures r.None? <==> forall i :: 0 <= i < |ws| ==> ws[i].id != id
    ensures r.Some? ==>
      exists i :: 0 <= i < |ws| && ws[i] == r.value && r.value.id == id &&
        forall j :: 0 <= j < i ==> ws[j].id != id
  {
    var ids := WorkflowIds(ws);
    match FirstIndex(ids, id)
    case None =>
      assert forall i :: 0 <= i < |ws| ==> ids[i] == ws[i].id;
      None
    case Some(k) =>
      assert forall j :: 0 <= j < k ==> ids[j] == ws[j].id;
      Some(ws[k])
  }
}
