/** `UnackMessages` of src/operator/backend_listener.py: messages sent to the service and
    not yet acknowledged, and the event that holds senders back. */
module UnackBuffer {

  /** `uuid` numbers the uuids handed out. */
  datatype Message = Message(uuid: nat, body: string)

  /** A Python dict from uuid to message: keys stay in order of insertion. */
  type Buffer = seq<Message>

  predicate Unique(b: Buffer) {
    forall i, j | 0 <= i < j < |b| :: b[i].uuid != b[j].uuid
  }

  /** Position of a key, or the length when it is absent. */
  function IndexOf(b: Buffer, id: nat): (i: nat)
    ensures i <= |b|
    ensures i < |b| ==> b[i].uuid == id
    ensures forall j | 0 <= j < i :: b[j].uuid != id
  {
    if b == [] || b[0].uuid == id then 0 else 1 + IndexOf(b[1..], id)
  }

  predicate Has(b: Buffer, id: nat) {
    IndexOf(b, id) < |b|
  }

  lemma HasIsMembership(b: Buffer, id: nat)
    ensures Has(b, id) <==> exists m :: m in b && m.uuid == id
  {
    if Has(b, id) {
      assert b[IndexOf(b, id)] in b;
    }
  }

  /** `d[message.uuid] = message`: an existing key keeps its place. */
  function Put(b: Buffer, m: Message): Buffer {
    var i := IndexOf(b, m.uuid);
    if i < |b| then b[i := m] else b + [m]
  }

  /** `del d[uuid]`, where present. */
  function Delete(b: Buffer, id: nat): Buffer {
    var i := IndexOf(b, id);
    if i < |b| then b[..i] + b[i + 1..] else b
  }

  lemma IndexIsUnique(b: Buffer, i: nat)
    requires Unique(b) && i < |b|
    ensures IndexOf(b, b[i].uuid) == i
  {
  }

  /** What an insertion does to the keys and to their order: a new key comes last. */
  lemma PutKeepsOrder(b: Buffer, m: Message, id: nat)
    requires Unique(b)
    ensures Unique(Put(b, m)) && m in Put(b, m)
    ensures |Put(b, m)| == if Has(b, m.uuid) then |b| else |b| + 1
    ensures Has(Put(b, m), id) <==> Has(b, id) || id == m.uuid
    ensures Has(b, id) ==> IndexOf(Put(b, m), id) == IndexOf(b, id)
    ensures !Has(b, m.uuid) ==> IndexOf(Put(b, m), m.uuid) == |b|
  {
    var b', i := Put(b, m), IndexOf(b, m.uuid);
    assert b'[i] == m;
    if Has(b, id) {
      assert b'[IndexOf(b, id)].uuid == id;
      IndexIsUnique(b', IndexOf(b, id));
    }
    IndexIsUnique(b', i);
  }

  lemma DeleteAt(b: Buffer, gone: nat, j: nat)
    requires j < |Delete(b, gone)|
    ensures Delete(b, gone)[j] == b[if j < IndexOf(b, gone) then j else j + 1]
  {
  }

  lemma DeleteIsUnique(b: Buffer, gone: nat)
    requires Unique(b)
    ensures Unique(Delete(b, gone)) && !Has(Delete(b, gone), gone)
    ensures |Delete(b, gone)| == if Has(b, gone) then |b| - 1 else |b|
  {
    var b', g := Delete(b, gone), IndexOf(b, gone);
    forall i, j | 0 <= i < j < |b'|
      ensures b'[i].uuid != b'[j].uuid
    {
      DeleteAt(b, gone, i);
      DeleteAt(b, gone, j);
    }
    if Has(b', gone) {
      var j := IndexOf(b', gone);
      DeleteAt(b, gone, j);
      assert false;
    }
  }

  /** Position of another key after a removal. */
  lemma DeleteShifts(b: Buffer, gone: nat, id: nat)
    requires Unique(b) && id != gone
    ensures Has(Delete(b, gone), id) <==> Has(b, id)
    ensures Has(b, id) ==> IndexOf(Delete(b, gone), id) == IndexOf(b, id) - if IndexOf(b, gone) < IndexOf(b, id) then 1 else 0
  {
    var b', g := Delete(b, gone), IndexOf(b, gone);
    DeleteIsUnique(b, gone);
    if Has(b, id) {
      var i := IndexOf(b, id);
      var i' := if g < i then i - 1 else i;
      DeleteAt(b, gone, i');
      IndexIsUnique(b', i');
    }
    if Has(b', id) {
      var j := IndexOf(b', id);
      DeleteAt(b, gone, j);
      assert b[if j < g then j else j + 1].uuid == id;
    }
  }

  /** A removal keeps the other keys in their order. */
  lemma DeleteKeepsOrder(b: Buffer, gone: nat, id: nat, id2: nat)
    requires Unique(b)
    ensures Unique(Delete(b, gone))
    ensures |Delete(b, gone)| == if Has(b, gone) then |b| - 1 else |b|
    ensures Has(Delete(b, gone), id) <==> Has(b, id) && id != gone
    ensures
      id != gone && id2 != gone && Has(b, id) && Has(b, id2) ==>
        (IndexOf(b, id) < IndexOf(b, id2) <==> IndexOf(Delete(b, gone), id) < IndexOf(Delete(b, gone), id2))
  {
    DeleteIsUnique(b, gone);
    if id != gone { DeleteShifts(b, gone, id); }
    if id2 != gone { DeleteShifts(b, gone, id2); }
  }

  /** Whether the event is cleared after an insertion; a limit of 0 means no limit. */
  predicate ReadyAfterPut(limit: nat, ready: bool, b: Buffer) {
    ready && !(limit > 0 && |b| >= limit)
  }

  class UnackMessages {
    const limit: nat
    var messages: Buffer
    var ready: bool

    constructor (maxUnackedMessages: int)
      ensures messages == [] && ready
      ensures limit == if maxUnackedMessages > 0 then maxUnackedMessages else 0
    {
      limit := if maxUnackedMessages > 0 then maxUnackedMessages else 0;
      messages, ready := [], true;
    }

    predicate Valid()
      reads this
    {
      Unique(messages)
    }

    /** `ready` says exactly whether there is room, and there is never more than the limit. */
    predicate Bounded()
      reads this
    {
      limit > 0 ==> |messages| <= limit && (ready <==> |messages| < limit)
    }

    method QSize() returns (n: nat)
      ensures n == |messages|
    {
      n := |messages|;
    }

    method ListMessages() returns (list: seq<Message>)
      ensures list == messages
    {
      list := messages;
    }

    /** `add_message` once its wait is over. */
    method AddMessage(m: Message)
      requires Valid()
      modifies this
      ensures Valid() && messages == Put(old(messages), m) && ready == ReadyAfterPut(limit, old(ready), messages)
      ensures old(Bounded()) && old(ready) ==> Bounded()
    {
      PutKeepsOrder(messages, m, m.uuid);
      var i := IndexOf(messages, m.uuid);
      if i < |messages| {
        messages := messages[i := m];
      } else {
        messages := messages + [m];
      }
      if limit > 0 && |messages| >= limit {
        ready := false;
      }
    }

    method RemoveMessage(id: nat)
      requires Valid()
      modifies this
      ensures Valid() && messages == Delete(old(messages), id) && ready == (old(ready) || Has(old(messages), id))
      ensures old(Bounded()) ==> Bounded()
    {
      DeleteKeepsOrder(messages, id, id, id);
      var i := IndexOf(messages, id);
      if i < |messages| {
        messages := messages[..i] + messages[i + 1..];
        ready := true;
      }
    }
  }
}
