/** The shared map that lets a cancellation find the requests it must abort. */
module PendingRegistry {

  /** Connection path and setting name. */
  type Key = (string, string)

  /** A request id with the sending half of that call's cancel channel; the channel is
      named by the index of the call that holds the receiving half. */
  datatype Entry = Entry(id: nat, sender: nat)

  type PendingMap = map<Key, seq<Entry>>

  /** `Vec::retain`: drops the entries carrying `id` and keeps the others in order. */
  function Retain(es: seq<Entry>, id: nat): (kept: seq<Entry>)
    ensures forall e :: e in kept <==> e in es && e.id != id
    ensures |kept| <= |es|
  {
    if es == [] then []
    else if es[0].id == id then Retain(es[1..], id)
    else [es[0]] + Retain(es[1..], id)
  }

  function Listed(m: PendingMap, key: Key): seq<Entry> {
    if key in m then m[key] else []
  }

  function PushEntry(m: PendingMap, key: Key, e: Entry): PendingMap {
    m[key := Listed(m, key) + [e]]
  }

  function RemoveRequest(m: PendingMap, key: Key, id: nat): PendingMap {
    var kept := Retain(Listed(m, key), id);
    if kept == [] then m - {key} else m[key := kept]
  }

  function TakeKey(m: PendingMap, key: Key): PendingMap {
    m - {key}
  }

  ghost predicate DistinctSenders(es: seq<Entry>) {
    forall a, b :: 0 <= a < b < |es| ==> es[a].sender != es[b].sender
  }

  lemma {:induction false} RetainKeepsDistinct(es: seq<Entry>, id: nat)
    requires DistinctSenders(es)
    ensures DistinctSenders(Retain(es, id))
  {
    if es != [] {
      RetainKeepsDistinct(es[1..], id);
      assert forall e :: e in es[1..] ==> e.sender != es[0].sender;
    }
  }

  /** Removing a request that was pushed under a fresh id undoes the push. */
  lemma RemoveUndoesPush(m: PendingMap, key: Key, e: Entry)
    requires key in m ==> m[key] != []
    requires forall other :: other in Listed(m, key) ==> other.id != e.id
    ensures RemoveRequest(PushEntry(m, key, e), key, e.id) == m
  {
    RetainAll(Listed(m, key), e);
  }

  lemma {:induction false} RetainAll(es: seq<Entry>, e: Entry)
    requires forall other :: other in es ==> other.id != e.id
    ensures Retain(es + [e], e.id) == es
  {
    if es == [] {
      assert Retain([e], e.id) == Retain([], e.id);
    } else {
      assert (es + [e])[1..] == es[1..] + [e];
      RetainAll(es[1..], e);
    }
  }

  class Registry {
    var pending: PendingMap
    var nextRequestId: nat

    constructor ()
      ensures pending == map[] && nextRequestId == 1
    {
      pending, nextRequestId := map[], 1;
    }

    method FetchAddRequestId() returns (id: nat)
      modifies this`nextRequestId
      ensures id == old(nextRequestId) && nextRequestId == old(nextRequestId) + 1
    {
      id := nextRequestId;
      nextRequestId := nextRequestId + 1;
    }

    method Register(key: Key, e: Entry)
      modifies this`pending
      ensures pending == PushEntry(old(pending), key, e)
    {
      if key !in pending {
        pending := pending[key := []];
      }
      pending := pending[key := pending[key] + [e]];
    }

    method RemovePendingRequest(key: Key, id: nat)
      modifies this`pending
      ensures pending == RemoveRequest(old(pending), key, id)
    {
      var removeKey := false;
      if key in pending {
        pending := pending[key := Retain(pending[key], id)];
        removeKey := pending[key] == [];
      }
      if removeKey {
        pending := pending - {key};
      }
    }

    method TakeForCancel(key: Key) returns (taken: seq<Entry>)
      modifies this`pending
      ensures taken == Listed(old(pending), key) && pending == TakeKey(old(pending), key)
    {
      if key in pending {
        taken := pending[key];
        pending := pending - {key};
      } else {
        taken := [];
      }
    }
  }
}
