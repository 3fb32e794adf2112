/**
 The master-list pages (items, customers, purchases, sales) share one
 reconciliation pattern: the table shows `data`, an edit dialog works on a
 copy `selectedRecord`, a confirmed delete filters the list by id and a
 confirmed save puts the copy in place of the record with its id. When the
 backend refuses or the request fails, the list is left as it was.
 */
module RecordList {
  import opened JsValues

  /** A record as the backend sends it: a JSON object of scalar fields. */
  type Record = map<string, JsValue>

  /** `record[key]`, `undefined` when absent. */
  function Get(r: Record, key: string): JsValue {
    if key in r then r[key] else Undefined
  }

  /** `record.id` */
  function Id(r: Record): JsValue {
    Get(r, "id")
  }

  /** What a page holds: the list, whether the dialog is open, and the copy
      the dialog edits (`null` before the first edit). */
  datatype ListView = ListView(data: seq<Record>, open: bool, selected: Option<Record>)

  /** What became of a delete request. */
  datatype DeleteOutcome =
    | Deleted               // the response was ok
    | Refused(error: JsValue) // not ok; `error` is the body's `error` field
    | Failed                // the request or reading its body threw

  // ---------------------------------------------------------------------------
  // The two list updates

  function KeepOthers(id: JsValue): Record -> bool {
    (r: Record) => !StrictEquals(Id(r), id)
  }

  /** `data.filter((item) => item.id !== id)` */
  function DeleteById(data: seq<Record>, id: JsValue): (r: seq<Record>)
    ensures |r| <= |data|
    ensures forall k :: 0 <= k < |r| ==> !StrictEquals(Id(r[k]), id)
    ensures forall k :: 0 <= k < |data| && !StrictEquals(Id(data[k]), id) ==> data[k] in r
    ensures multiset(r) <= multiset(data)
    ensures forall k :: 0 <= k < |data| ==>
              multiset(r)[data[k]] == if StrictEquals(Id(data[k]), id) then 0 else multiset(data)[data[k]]
  {
    Filter(data, KeepOthers(id))
  }

  /** The records that survive a delete keep their order: deleting from two
      halves of the list and joining the results is deleting from the whole. */
  lemma DeleteKeepsOrder(front: seq<Record>, back: seq<Record>, id: JsValue)
    ensures DeleteById(front + back, id) == DeleteById(front, id) + DeleteById(back, id)
  {
    FilterConcat(front, back, KeepOthers(id));
  }

  /** Deleting the same id twice is deleting it once, and deleting an id no
      record has changes nothing. */
  lemma DeleteIdempotent(data: seq<Record>, id: JsValue)
    ensures DeleteById(DeleteById(data, id), id) == DeleteById(data, id)
    ensures (forall k :: 0 <= k < |data| ==> !StrictEquals(Id(data[k]), id)) ==> DeleteById(data, id) == data
  {
    FilterKeepsAll(DeleteById(data, id), KeepOthers(id));
    if forall k :: 0 <= k < |data| ==> !StrictEquals(Id(data[k]), id) {
      FilterKeepsAll(data, KeepOthers(id));
    }
  }

  function ReplaceWith(rec: Record): Record -> Record {
    (item: Record) => if StrictEquals(Id(item), Id(rec)) then rec else item
  }

  /** `data.map((item) => (item.id === rec.id ? rec : item))` */
  function ReplaceById(data: seq<Record>, rec: Record): (r: seq<Record>)
    ensures |r| == |data|
    ensures forall k :: 0 <= k < |data| ==> r[k] == if StrictEquals(Id(data[k]), Id(rec)) then rec else data[k]
  {
    Map(data, ReplaceWith(rec))
  }

  /** `===` holds only between equal values. */
  lemma StrictEqualsIsEquality(a: JsValue, b: JsValue)
    requires StrictEquals(a, b)
    ensures a == b
  {
  }

  /** A save never changes which ids the list holds, nor where. */
  lemma ReplaceKeepsIds(data: seq<Record>, rec: Record)
    ensures forall k :: 0 <= k < |data| ==> Id(ReplaceById(data, rec)[k]) == Id(data[k])
  {
    forall k | 0 <= k < |data| && StrictEquals(Id(data[k]), Id(rec))
      ensures Id(rec) == Id(data[k])
    {
      StrictEqualsIsEquality(Id(data[k]), Id(rec));
    }
  }

  /** Saving the same copy twice is saving it once, and a delete after a save
      of that record is the delete alone. */
  lemma ReplaceThenDelete(data: seq<Record>, rec: Record)
    ensures ReplaceById(ReplaceById(data, rec), rec) == ReplaceById(data, rec)
    ensures DeleteById(ReplaceById(data, rec), Id(rec)) == DeleteById(data, Id(rec))
  {
    ReplaceKeepsIds(data, rec);
    var saved := ReplaceById(data, rec);
    assert forall k :: 0 <= k < |data| ==> KeepOthers(Id(rec))(saved[k]) == KeepOthers(Id(rec))(data[k]);
    FilterPointwise(saved, data, KeepOthers(Id(rec)));
  }

  /** Two lists that agree wherever `p` holds, and on where it holds, filter alike. */
  lemma {:induction false} FilterPointwise(xs: seq<Record>, ys: seq<Record>, p: Record -> bool)
    requires |xs| == |ys|
    requires forall k :: 0 <= k < |xs| ==> p(xs[k]) == p(ys[k]) && (p(xs[k]) ==> xs[k] == ys[k])
    ensures Filter(xs, p) == Filter(ys, p)
    decreases |xs|
  {
    if xs != [] {
      FilterPointwise(xs[1..], ys[1..], p);
    }
  }

  // ---------------------------------------------------------------------------
  // The handlers

  /** `handleEdit(record)`: the dialog opens on the record; the list is untouched. */
  function HandleEdit(v: ListView, record: Record): (r: ListView)
    ensures r.data == v.data && r.open && r.selected == Some(record)
  {
    ListView(v.data, true, Some(record))
  }

  /** `setSelectedRecord({ ...selectedRecord, [key]: value })`: one key of the
      copy changes (a `null` copy spreads as an empty object); the list and
      every other key of the copy stay as they were. */
  function SetSelected(v: ListView, key: string, value: JsValue): (r: ListView)
    ensures r.data == v.data && r.open == v.open
    ensures r.selected.Some? && key in r.selected.value && r.selected.value[key] == value
    ensures v.selected.None? ==> r.selected.value == map[key := value]
    ensures v.selected.Some? ==> forall k :: k != key ==> (k in r.selected.value <==> k in v.selected.value)
    ensures v.selected.Some? ==> forall k :: k != key && k in v.selected.value ==>
              r.selected.value[k] == v.selected.value[k]
  {
    var base := if v.selected.Some? then v.selected.value else map[];
    v.(selected := Some(base[key := value]))
  }

  /** A change event that stores the text typed, as the customer dialog
      does for every field. */
  function SetText(v: ListView, key: string, text: string): (r: ListView)
    ensures r.data == v.data && r.open == v.open
    ensures r.selected.Some? && Get(r.selected.value, key) == Str(text)
  {
    SetSelected(v, key, Str(text))
  }

  /** `handleSave` after the request: on success the copy replaces the
      record with its id and the dialog closes; on failure nothing changes.
      With no copy at all, reading `selectedRecord.id` throws before any
      request and the handler's catch leaves the state alone. */
  function HandleSave(v: ListView, ok: bool): (r: ListView)
    ensures v.selected.Some? && ok ==> r == ListView(ReplaceById(v.data, v.selected.value), false, v.selected)
    ensures v.selected.None? || !ok ==> r == v
  {
    match v.selected
    case None => v
    case Some(rec) => if ok then ListView(ReplaceById(v.data, rec), false, v.selected) else v
  }

  /** `handleDelete(id)` after the request: only a confirmed delete touches the list. */
  function HandleDelete(v: ListView, id: JsValue, outcome: DeleteOutcome): (r: ListView)
    ensures outcome.Deleted? ==> r == v.(data := DeleteById(v.data, id))
    ensures !outcome.Deleted? ==> r == v
  {
    if outcome.Deleted? then v.(data := DeleteById(v.data, id)) else v
  }

  /** The alert the item and customer pages raise after a delete request:
      none when the record was deleted; the backend's `error` (or a default
      naming the kind of record, when it is falsy) when it was refused; a
      fixed message when the request or reading its body failed. */
  function DeleteAlert(outcome: DeleteOutcome, noun: string): (a: Option<JsValue>)
    ensures a.None? <==> outcome.Deleted?
    ensures outcome.Refused? && Truthy(outcome.error) ==> a == Some(outcome.error)
    ensures outcome.Refused? && !Truthy(outcome.error) ==> a == Some(Str("Failed to delete " + noun + "."))
    ensures outcome.Failed? ==> a == Some(Str("An error occurred while trying to delete the " + noun + "."))
  {
    match outcome
    case Deleted => None
    case Refused(error) => Some(Or(error, Str("Failed to delete " + noun + ".")))
    case Failed => Some(Str("An error occurred while trying to delete the " + noun + "."))
  }

  /** Every delete either filters the list or raises an alert and leaves the
      page exactly as it was; never both, never neither. */
  lemma AlertOrDeleted(v: ListView, id: JsValue, outcome: DeleteOutcome, noun: string)
    ensures DeleteAlert(outcome, noun).Some? <==> !outcome.Deleted?
    ensures DeleteAlert(outcome, noun).Some? ==> HandleDelete(v, id, outcome) == v
    ensures DeleteAlert(outcome, noun).None? ==> HandleDelete(v, id, outcome).data == DeleteById(v.data, id)
  {
  }

  /** A dialog edit. */
  datatype Edit = Edit(key: string, value: JsValue)

  /** A session of dialog edits, one change event after another. */
  function ApplyEdits(v: ListView, edits: seq<Edit>): ListView
    decreases |edits|
  {
    if edits == [] then v else ApplyEdits(SetSelected(v, edits[0].key, edits[0].value), edits[1..])
  }

  /** However many fields are edited, the list shown is the one before the
      dialog opened: only a save reaches it. */
  lemma {:induction false} EditsLeaveListAlone(v: ListView, edits: seq<Edit>)
    ensures ApplyEdits(v, edits).data == v.data
    ensures ApplyEdits(v, edits).open == v.open
    decreases |edits|
  {
    if edits != [] {
      EditsLeaveListAlone(SetSelected(v, edits[0].key, edits[0].value), edits[1..]);
    }
  }

  /** Editing a field of a listed record and saving it successfully puts the
      new value into exactly that record's place in the list, provided no
      other record has its id and the id is `===` to itself (anything but NaN). */
  lemma EditThenSave(data: seq<Record>, k: nat, key: string, value: JsValue)
    requires k < |data| && key != "id"
    requires forall j :: 0 <= j < |data| && j != k ==> !StrictEquals(Id(data[j]), Id(data[k]))
    requires StrictEquals(Id(data[k]), Id(data[k]))
    ensures var v := SetSelected(HandleEdit(ListView(data, false, None), data[k]), key, value);
            var saved := HandleSave(v, true).data;
            && |saved| == |data|
            && saved[k] == data[k][key := value]
            && forall j :: 0 <= j < |data| && j != k ==> saved[j] == data[j]
  {
    var rec := data[k][key := value];
    assert Id(rec) == Id(data[k]);
  }
}
