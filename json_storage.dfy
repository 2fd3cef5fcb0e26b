/** The flat-file collection store: one JSON file holding an array of records
    keyed by `_id`. The file's contents are the sequence `data`; every
    operation reads it, and the mutators write back the changed sequence. */
module JsonStore {
  import opened Wrappers
  import opened Json

  /** `data.findIndex(item => item[field] === value)`. */
  function FindIndex(data: seq<Record>, field: string, value: Option<Value>): (i: int)
    ensures -1 <= i < |data|
    ensures i == -1 <==> forall j :: 0 <= j < |data| ==> !Matches(data[j], field, value)
    ensures 0 <= i ==> Matches(data[i], field, value)
    ensures 0 <= i ==> forall j :: 0 <= j < i ==> !Matches(data[j], field, value)
  {
    if data == [] then -1
    else if Matches(data[0], field, value) then 0
    else
      var k := FindIndex(data[1..], field, value);
      if k == -1 then -1 else k + 1
  }

  /** `data.filter(item => item[field] === value)`. */
  function Filter(data: seq<Record>, field: string, value: Option<Value>): (r: seq<Record>)
    ensures |r| <= |data|
  {
    if data == [] then []
    else (if Matches(data[0], field, value) then [data[0]] else []) + Filter(data[1..], field, value)
  }

  /** The filter holds only stored records that match, and every one that does. */
  lemma {:induction false} FilterMembers(data: seq<Record>, field: string, value: Option<Value>)
    ensures forall x :: x in Filter(data, field, value) ==> x in data && Matches(x, field, value)
    ensures forall j :: 0 <= j < |data| && Matches(data[j], field, value) ==> data[j] in Filter(data, field, value)
  {
    if data != [] {
      FilterMembers(data[1..], field, value);
      assert forall j :: 1 <= j < |data| ==> data[j] == data[1..][j - 1];
    }
  }

  /** Filtering distributes over concatenation, so it keeps the stored order. */
  lemma {:induction false} FilterAppend(a: seq<Record>, b: seq<Record>, field: string, value: Option<Value>)
    ensures Filter(a + b, field, value) == Filter(a, field, value) + Filter(b, field, value)
  {
    if a == [] {
      assert a + b == b;
    } else {
      var h := if Matches(a[0], field, value) then [a[0]] else [];
      assert (a + b)[1..] == a[1..] + b;
      FilterAppend(a[1..], b, field, value);
      AppendAssoc(h, Filter(a[1..], field, value), Filter(b, field, value));
    }
  }

  /** Concatenation is associative (stated once so that the proofs above need not rediscover it). */
  lemma AppendAssoc<T>(x: seq<T>, y: seq<T>, z: seq<T>)
    ensures x + (y + z) == (x + y) + z
  {
  }

  /** The first element of the filter is the record `findIndex` points at. */
  lemma {:induction false} FilterHeadIsFirstMatch(data: seq<Record>, field: string, value: Option<Value>)
    ensures Filter(data, field, value) == [] <==> FindIndex(data, field, value) == -1
    ensures Filter(data, field, value) != [] ==>
      Filter(data, field, value)[0] == data[FindIndex(data, field, value)]
  {
    if data != [] && !Matches(data[0], field, value) {
      var k := FindIndex(data[1..], field, value);
      assert Filter(data, field, value) == Filter(data[1..], field, value);
      assert FindIndex(data, field, value) == if k == -1 then -1 else k + 1;
      FilterHeadIsFirstMatch(data[1..], field, value);
      assert k != -1 ==> data[k + 1] == data[1..][k];
    }
  }

  /** Looking up the key of a record appended at the end finds an earlier
      match if there is one, and the new record otherwise. */
  lemma {:induction false} FindIndexAppend(data: seq<Record>, x: Record, field: string, value: Option<Value>)
    ensures FindIndex(data + [x], field, value) ==
      if FindIndex(data, field, value) >= 0 then FindIndex(data, field, value)
      else if Matches(x, field, value) then |data| else -1
  {
    if data != [] {
      assert (data + [x])[1..] == data[1..] + [x];
      FindIndexAppend(data[1..], x, field, value);
    }
  }

  /** The record `create` builds: a generated `_id` that a caller-supplied
      `_id` overrides, the caller's fields, and both timestamps set by the
      store over whatever the caller supplied. */
  function NewItem(itemData: Record, freshId: string, now: int): (r: Record)
    ensures r.Keys == itemData.Keys + {"_id", "createdAt", "updatedAt"}
    ensures r["createdAt"] == Time(now) && r["updatedAt"] == Time(now)
    ensures r["_id"] == if "_id" in itemData then itemData["_id"] else Str(freshId)
    ensures forall k :: k in itemData && k != "createdAt" && k != "updatedAt" ==> r[k] == itemData[k]
  {
    map["_id" := Str(freshId)] + itemData + map["createdAt" := Time(now), "updatedAt" := Time(now)]
  }

  /** The record `update` writes: the stored fields, overridden by the supplied
      ones, with `updatedAt` refreshed. */
  function Merged(existing: Record, updateData: Record, now: int): (r: Record)
    ensures r.Keys == existing.Keys + updateData.Keys + {"updatedAt"}
    ensures r["updatedAt"] == Time(now)
    ensures forall k :: k in updateData && k != "updatedAt" ==> r[k] == updateData[k]
    ensures forall k :: k in existing && k !in updateData && k != "updatedAt" ==> r[k] == existing[k]
  {
    existing + updateData + map["updatedAt" := Time(now)]
  }

  /** What `populate` makes of one item (the body of its `map` callback). */
  function PopulateItem(item: Record, field: string, from: seq<Record>): (r: Record)
    ensures r.Keys == item.Keys
    ensures forall k :: k in item && k != field ==> r[k] == item[k]
    ensures field in item && r[field] != item[field] ==>
      Truthy(item[field]) && r[field].Obj? && r[field].fields in from
  {
    if field in item && Truthy(item[field]) then
      var i := FindIndex(from, "_id", Some(item[field]));
      if i >= 0 then item[field := Obj(from[i])] else item
    else item
  }

  /** No two records share a key. The store does not enforce this (a caller
      may supply any `_id`); it holds when ids are generated fresh. */
  ghost predicate UniqueIds(data: seq<Record>)
  {
    forall i, j :: 0 <= i < j < |data| && "_id" in data[i] && "_id" in data[j] ==> data[i]["_id"] != data[j]["_id"]
  }

  /** A key that is unique in `data` is gone once its record is spliced out. */
  lemma RemovedKeyIsGone(data: seq<Record>, id: Value)
    requires UniqueIds(data)
    requires FindIndex(data, "_id", Some(id)) >= 0
    ensures var i := FindIndex(data, "_id", Some(id));
      FindIndex(data[..i] + data[i + 1..], "_id", Some(id)) == -1
  {
  }

  /** After a record is replaced in place by one with the same key, looking
      the key up finds the replacement. */
  lemma {:induction false} ReplacedIsFound(data: seq<Record>, id: Value, x: Record)
    requires FindIndex(data, "_id", Some(id)) >= 0
    requires Matches(x, "_id", Some(id))
    ensures var i := FindIndex(data, "_id", Some(id));
      FindIndex(data[i := x], "_id", Some(id)) == i
  {
    var i := FindIndex(data, "_id", Some(id));
    var d := data[i := x];
    if i > 0 {
      assert d[1..] == data[1..][i - 1 := x];
      ReplacedIsFound(data[1..], id, x);
    }
  }

  /** One collection file. */
  class JsonStorage {
    /** The array of records the file holds. */
    var data: seq<Record>

    /** A store over a file whose current contents are `contents`. */
    constructor (contents: seq<Record>)
      ensures data == contents
    {
      data := contents;
    }

    /** Every record, in file order. */
    function FindAll(): (r: seq<Record>)
      reads this
      ensures |r| == |data| && forall i :: 0 <= i < |r| ==> r[i] == data[i]
    {
      data
    }

    /** The first record whose `_id` is `id`, or `undefined`. */
    function FindById(id: Value): (r: Option<Record>)
      reads this
      ensures r.None? <==> forall j :: 0 <= j < |data| ==> !Matches(data[j], "_id", Some(id))
      ensures r.Some? ==> exists i :: (0 <= i < |data| && data[i] == r.value && Matches(data[i], "_id", Some(id))
        && forall j :: 0 <= j < i ==> !Matches(data[j], "_id", Some(id)))
    {
      var i := FindIndex(data, "_id", Some(id));
      if i < 0 then None else Some(data[i])
    }

    /** Appends the record built by `NewItem` and returns it. */
    method Create(itemData: Record, freshId: string, now: int) returns (item: Record)
      modifies this
      ensures item == NewItem(itemData, freshId, now)
      ensures data == old(data) + [item]
    {
      item := NewItem(itemData, freshId, now);
      data := data + [item];
    }

    /** Merges `updateData` into the first record with key `id`; `null` when
        there is none, and then nothing is written. */
    method Update(id: Value, updateData: Record, now: int) returns (r: Option<Record>)
      modifies this
      ensures var i := FindIndex(old(data), "_id", Some(id));
        if i < 0 then r.None? && data == old(data)
        else r == Some(Merged(old(data)[i], updateData, now)) && data == old(data)[i := r.value]
    {
      var i := FindIndex(data, "_id", Some(id));
      if i < 0 {
        return None;
      }
      var merged := Merged(data[i], updateData, now);
      data := data[i := merged];
      r := Some(merged);
    }

    /** Splices out the first record with key `id` and returns it; `null` when
        there is none, and then nothing is written. */
    method Delete(id: Value) returns (r: Option<Record>)
      modifies this
      ensures var i := FindIndex(old(data), "_id", Some(id));
        if i < 0 then r.None? && data == old(data)
        else r == Some(old(data)[i]) && data == old(data)[..i] + old(data)[i + 1..]
    {
      var i := FindIndex(data, "_id", Some(id));
      if i < 0 {
        return None;
      }
      r := Some(data[i]);
      data := data[..i] + data[i + 1..];
    }

    /** The records whose `field` strictly equals `value`, in file order. */
    function FindByField(field: string, value: Option<Value>): (r: seq<Record>)
      reads this
      ensures forall x :: x in r ==> x in data && Matches(x, field, value)
      ensures forall j :: 0 <= j < |data| && Matches(data[j], field, value) ==> data[j] in r
    {
      FilterMembers(data, field, value);
      Filter(data, field, value)
    }

    /** The first record whose `field` strictly equals `value`: the head of
        `FindByField`, or `undefined` when that is empty. */
    function FindOneByField(field: string, value: Option<Value>): (r: Option<Record>)
      reads this
      ensures r == if FindByField(field, value) == [] then None else Some(FindByField(field, value)[0])
    {
      FilterHeadIsFirstMatch(data, field, value);
      var i := FindIndex(data, field, value);
      if i < 0 then None else Some(data[i])
    }

    /** Replaces each item's `field` by the record of `from` it names, when the
        field is truthy and names one; a single item is treated as an array
        of one. */
    function Populate(items: OneOrMany<Record>, field: string, from: JsonStorage): (r: seq<Record>)
      reads from
      ensures |r| == |items.AsSeq()|
      ensures forall i :: 0 <= i < |r| ==>
        var item := items.AsSeq()[i];
        if field in item && Truthy(item[field]) && from.FindById(item[field]).Some?
        then r[i] == item[field := Obj(from.FindById(item[field]).value)]
        else r[i] == item
    {
      var xs, d := items.AsSeq(), from.data;
      seq(|xs|, i requires 0 <= i < |xs| => PopulateItem(xs[i], field, d))
    }
  }

  /** Creating a record with a key no stored record has makes it findable by that key. */
  lemma CreatedIsFound(data: seq<Record>, itemData: Record, freshId: string, now: int)
    requires "_id" !in itemData
    requires forall j :: 0 <= j < |data| ==> !Matches(data[j], "_id", Some(Str(freshId)))
    ensures FindIndex(data + [NewItem(itemData, freshId, now)], "_id", Some(Str(freshId))) == |data|
  {
    var x := NewItem(itemData, freshId, now);
    assert "_id" in x && x["_id"] == Str(freshId);
    assert Get(x, "_id") == Some(Str(freshId));
    assert Matches(x, "_id", Some(Str(freshId)));
    assert FindIndex(data, "_id", Some(Str(freshId))) == -1;
    FindIndexAppend(data, x, "_id", Some(Str(freshId)));
  }
}
