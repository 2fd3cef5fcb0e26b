/** The contact-message model over the flat-file store: validated, trimmed
    messages appended with a timestamp, listed in storage order or newest first. */
module Messages {
  import opened Wrappers
  import opened Json
  import opened Text
  import JsonStore

  /** The fields of a submitted message; `None` is `undefined`. */
  datatype MessageInput = MessageInput(name: Option<string>, email: Option<string>, message: Option<string>)

  /** The errors `save` throws. */
  datatype MessageError = NameRequired | EmailRequired | MessageRequired
  {
    function Message(): string
    {
      match this
      case NameRequired => "Name is required"
      case EmailRequired => "Email is required"
      case MessageRequired => "Message is required"
    }
  }

  /** The record `save` hands to the store, or the first blank field: name,
      then email, then message. */
  function MessageData(input: MessageInput, now: int): (r: Result<Record, MessageError>)
    ensures Blank(input.name) ==> r == Err(NameRequired)
    ensures !Blank(input.name) && Blank(input.email) ==> r == Err(EmailRequired)
    ensures !Blank(input.name) && !Blank(input.email) && Blank(input.message) ==> r == Err(MessageRequired)
    ensures r.Ok? <==> !Blank(input.name) && !Blank(input.email) && !Blank(input.message)
    ensures r.Ok? ==>
      && r.value.Keys == {"name", "email", "message", "timestamp"}
      && r.value["name"] == Str(Trim(input.name.value))
      && r.value["email"] == Str(Trim(input.email.value))
      && r.value["message"] == Str(Trim(input.message.value))
      && r.value["timestamp"] == Time(now)
  {
    if Blank(input.name) then Err(NameRequired)
    else if Blank(input.email) then Err(EmailRequired)
    else if Blank(input.message) then Err(MessageRequired)
    else Ok(map[
      "name" := Str(Trim(input.name.value)),
      "email" := Str(Trim(input.email.value)),
      "message" := Str(Trim(input.message.value)),
      "timestamp" := Time(now)])
  }

  /** A message made only of white space is refused. */
  lemma WhiteSpaceMessageRefused(input: MessageInput, now: int)
    requires !Blank(input.name) && !Blank(input.email)
    requires input.message.Some? && AllSpace(input.message.value)
    ensures MessageData(input, now) == Err(MessageRequired)
  {
    TrimEmptyIff(input.message.value);
  }

  /** A record carries the timestamp `save` gives every message. */
  predicate Stamped(r: Record)
  {
    "timestamp" in r && r["timestamp"].Time?
  }

  /** The instant of a record's timestamp (0 for a record without one). */
  function Stamp(r: Record): int
  {
    if Stamped(r) then r["timestamp"].ms else 0
  }

  /** Non-increasing timestamps: newest first. */
  predicate NewestFirst(s: seq<Record>)
  {
    forall i, j :: 0 <= i < j < |s| ==> Stamp(s[i]) >= Stamp(s[j])
  }

  /** The first `n` records of `a` are newest first. */
  ghost predicate SortedPrefix(a: array<Record>, n: int)
    requires 0 <= n <= a.Length
    reads a
  {
    forall p, q :: 0 <= p < q < n ==> Stamp(a[p]) >= Stamp(a[q])
  }

  /** Exchanges two records of `a`. */
  method Swap(a: array<Record>, i: int, j: int)
    requires 0 <= i < a.Length && 0 <= j < a.Length
    modifies a
    ensures a[..] == old(a[..])[i := old(a[j])][j := old(a[i])]
    ensures multiset(a[..]) == multiset(old(a[..]))
  {
    a[i], a[j] := a[j], a[i];
  }

  /** One insertion step: moves `a[i]` left past the records older than it,
      so that the first `i + 1` records are newest first. */
  method InsertLeft(a: array<Record>, i: int)
    requires 0 <= i < a.Length && SortedPrefix(a, i)
    modifies a
    ensures SortedPrefix(a, i + 1)
    ensures a[i + 1..] == old(a[i + 1..])
    ensures multiset(a[..]) == multiset(old(a[..]))
  {
    var j := i;
    while j > 0 && Stamp(a[j - 1]) < Stamp(a[j])
      invariant 0 <= j <= i
      invariant forall p, q :: 0 <= p < q <= i && q != j ==> Stamp(a[p]) >= Stamp(a[q])
      invariant a[i + 1..] == old(a[i + 1..])
      invariant multiset(a[..]) == multiset(old(a[..]))
    {
      Swap(a, j - 1, j);
      j := j - 1;
    }
  }

  /** `Array.prototype.sort` with the comparator `b.timestamp - a.timestamp`,
      in place: an insertion sort. */
  method SortNewestFirst(a: array<Record>)
    modifies a
    ensures NewestFirst(a[..])
    ensures multiset(a[..]) == multiset(old(a[..]))
  {
    for i := 0 to a.Length
      invariant SortedPrefix(a, i)
      invariant multiset(a[..]) == multiset(old(a[..]))
    {
      InsertLeft(a, i);
    }
  }

  /** The message collection. */
  class MessageModel {
    const storage: JsonStore.JsonStorage

    /** Every stored message carries a timestamp. `save` keeps this true. */
    ghost predicate AllStamped()
      reads storage
    {
      forall i :: 0 <= i < |storage.data| ==> Stamped(storage.data[i])
    }

    constructor (storage: JsonStore.JsonStorage)
      ensures this.storage == storage
    {
      this.storage := storage;
    }

    /** Validates and stores one message; a refused message stores nothing. */
    method Save(input: MessageInput, freshId: string, now: int) returns (r: Result<Record, MessageError>)
      modifies storage
      ensures MessageData(input, now).Err? ==>
        r == Err(MessageData(input, now).error) && storage.data == old(storage.data)
      ensures MessageData(input, now).Ok? ==>
        r == Ok(JsonStore.NewItem(MessageData(input, now).value, freshId, now))
        && storage.data == old(storage.data) + [r.value]
      ensures |storage.data| == |old(storage.data)| + (if r.Ok? then 1 else 0)
      ensures old(AllStamped()) ==> AllStamped()
    {
      var data := MessageData(input, now);
      if data.Err? {
        return Err(data.error);
      }
      var item := storage.Create(data.value, freshId, now);
      r := Ok(item);
    }

    /** Every stored message, in storage order. */
    function Find(): (r: seq<Record>)
      reads storage
      ensures |r| == |storage.data| && forall i :: 0 <= i < |r| ==> r[i] == storage.data[i]
    {
      storage.FindAll()
    }

    /** The stored messages, newest first. */
    method FindSorted() returns (r: seq<Record>)
      ensures multiset(r) == multiset(storage.data)
      ensures NewestFirst(r)
      ensures AllStamped() ==> forall i :: 0 <= i < |r| ==> Stamped(r[i])
    {
      var messages := storage.FindAll();
      var a := new Record[|messages|](i requires 0 <= i < |messages| => messages[i]);
      assert a[..] == messages;
      SortNewestFirst(a);
      r := a[..];
      forall i | 0 <= i < |r| && AllStamped()
        ensures Stamped(r[i])
      {
        assert r[i] in multiset(storage.data);
      }
    }
  }
}
