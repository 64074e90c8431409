// Model of cartographer/sensor/internal/collator.cc: the per-trajectory
// bookkeeping of the sensor Collator, over an abstract ordered multi-queue.

module Sensor {

  datatype Option<T> = None | Some(value: T)

  /** Identifies one ordered buffer: a (trajectory, sensor) pair. */
  datatype QueueKey = QueueKey(trajectoryId: int, sensorId: string)

  /** A sensor sample. Only its sensor id and time are visible; the payload is opaque. */
  datatype Data = Data(sensorId: string, time: int, payload: nat)

  /** The caller-supplied callback, an opaque handler tag. */
  datatype Callback = Callback(tag: int)

  /** The per-queue closure built by the Collator: it captures the caller's
      callback and the sensor id, and re-invokes the callback with that id. */
  datatype QueueCallback = Forward(callback: Callback, sensorId: string)

  /** What the Collator knows of one queue of the multi-queue. */
  datatype QueueStatus = Active(callback: QueueCallback) | Finished(callback: QueueCallback)

  /** One call made into the multi-queue. */
  datatype QueueCall =
    | AddQueueCall(key: QueueKey, queueCallback: QueueCallback)
    | MarkFinishedCall(key: QueueKey)
    | AddCall(key: QueueKey, data: Data)
    | FlushCall

  // ---------------------------------------------------------------------------
  // Key lists: std::find, vector::erase and duplicate freedom

  predicate NoDuplicates<T(==)>(s: seq<T>)
  {
    forall i, j :: 0 <= i < j < |s| ==> s[i] != s[j]
  }

  /** The position std::find stops at: the first occurrence of x, or |s| (the end iterator). */
  function IndexOf<T(==)>(s: seq<T>, x: T): (i: nat)
    ensures i <= |s|
    ensures i < |s| ==> s[i] == x
    ensures forall j :: 0 <= j < i ==> s[j] != x
  {
    if s == [] then 0
    else if s[0] == x then 0
    else 1 + IndexOf(s[1..], x)
  }

  /** std::find over a vector, as a loop. */
  method Find<T(==)>(s: seq<T>, x: T) returns (i: nat)
    ensures i == IndexOf(s, x)
    ensures i == |s| <==> x !in s
  {
    i := 0;
    while i < |s| && s[i] != x
      invariant i <= |s|
      invariant forall j :: 0 <= j < i ==> s[j] != x
    {
      i := i + 1;
    }
  }

  /** `erase(find(begin, end, x))`: drops the first occurrence of x and keeps the order of the rest. */
  function RemoveFirst<T(==)>(s: seq<T>, x: T): (r: seq<T>)
    requires x in s
    ensures |r| == |s| - 1
    ensures multiset(r) == multiset(s) - multiset{x}
  {
    var i := IndexOf(s, x);
    assert s == s[..i] + [s[i]] + s[i + 1..];
    s[..i] + s[i + 1..]
  }

  /** Without duplicates, removing x removes exactly x: every other element stays. */
  lemma RemoveFirstMembership<T>(s: seq<T>, x: T, y: T)
    requires x in s && NoDuplicates(s)
    ensures y in RemoveFirst(s, x) <==> y in s && y != x
  {
    var r := RemoveFirst(s, x);
    assert multiset(r)[y] == multiset(s)[y] - multiset{x}[y];
    if y == x {
      assert multiset(s)[x] == 1 by { SingleOccurrence(s, x); }
    }
  }

  /** Erasing never introduces an element. */
  lemma RemoveFirstSublist<T>(s: seq<T>, x: T)
    requires x in s
    ensures forall y :: y in RemoveFirst(s, x) ==> y in s
  {
    forall y | y in RemoveFirst(s, x)
      ensures y in s
    {
      assert y in multiset(RemoveFirst(s, x));
    }
  }

  /** In a list without duplicates an element occurs exactly once. */
  lemma {:induction false} SingleOccurrence<T>(s: seq<T>, x: T)
    requires x in s && NoDuplicates(s)
    ensures multiset(s)[x] == 1
  {
    if s[0] == x {
      assert x !in s[1..];
      assert s == [s[0]] + s[1..];
    } else {
      SingleOccurrence(s[1..], x);
      assert s == [s[0]] + s[1..];
    }
  }

  /** Removing an element keeps a duplicate-free list duplicate-free. */
  lemma RemoveFirstNoDuplicates<T>(s: seq<T>, x: T)
    requires x in s && NoDuplicates(s)
    ensures NoDuplicates(RemoveFirst(s, x))
    ensures x !in RemoveFirst(s, x)
  {
    var i := IndexOf(s, x);
    var r := RemoveFirst(s, x);
    forall a, b | 0 <= a < b < |r|
      ensures r[a] != r[b]
    {
      var a' := if a < i then a else a + 1;
      var b' := if b < i then b else b + 1;
      assert r[a] == s[a'] && r[b] == s[b'];
    }
    RemoveFirstMembership(s, x, x);
  }

  /** Appending an absent element keeps a duplicate-free list duplicate-free. */
  lemma AppendNoDuplicates<T>(s: seq<T>, x: T)
    requires NoDuplicates(s) && x !in s
    ensures NoDuplicates(s + [x])
  {
    var r := s + [x];
    forall a, b | 0 <= a < b < |r|
      ensures r[a] != r[b]
    {
      if b == |s| {
        assert r[a] == s[a];
      }
    }
  }

  /** Pausing a key that occurs once and then resuming it leaves the same keys, with that
      key moved to the end; a list without duplicates stays without duplicates. */
  lemma PauseThenResume<T>(s: seq<T>, x: T)
    requires multiset(s)[x] == 1
    ensures x in s && x !in RemoveFirst(s, x)
    ensures NoDuplicates(s) ==> NoDuplicates(RemoveFirst(s, x) + [x])
    ensures multiset(RemoveFirst(s, x) + [x]) == multiset(s)
    ensures (RemoveFirst(s, x) + [x])[|s| - 1] == x
  {
    assert x in multiset(s);
    assert multiset(RemoveFirst(s, x))[x] == 0;
    if NoDuplicates(s) {
      RemoveFirstNoDuplicates(s, x);
      AppendNoDuplicates(RemoveFirst(s, x), x);
    }
    assert multiset(RemoveFirst(s, x) + [x]) == multiset(RemoveFirst(s, x)) + multiset{x};
  }

  // ---------------------------------------------------------------------------
  // Specification functions for the effects on the multi-queue

  /** The AddQueue calls made for `keys`, in order, each closing over the key's sensor id. */
  function AddQueueCalls(keys: seq<QueueKey>, callback: Callback): (calls: seq<QueueCall>)
    ensures |calls| == |keys|
  {
    if keys == [] then []
    else AddQueueCalls(keys[..|keys| - 1], callback)
         + [AddQueueCall(keys[|keys| - 1], Forward(callback, keys[|keys| - 1].sensorId))]
  }

  /** The MarkQueueAsFinished calls made for `keys`, in order. */
  function MarkFinishedCalls(keys: seq<QueueKey>): (calls: seq<QueueCall>)
    ensures |calls| == |keys|
  {
    if keys == [] then []
    else MarkFinishedCalls(keys[..|keys| - 1]) + [MarkFinishedCall(keys[|keys| - 1])]
  }

  /** The i-th AddQueue call is for the i-th key, with the closure over that key's sensor id. */
  lemma {:induction false} AddQueueCallsAt(keys: seq<QueueKey>, callback: Callback, i: nat)
    requires i < |keys|
    ensures AddQueueCalls(keys, callback)[i] == AddQueueCall(keys[i], Forward(callback, keys[i].sensorId))
  {
    if i < |keys| - 1 {
      AddQueueCallsAt(keys[..|keys| - 1], callback, i);
    }
  }

  /** The i-th MarkQueueAsFinished call is for the i-th key. */
  lemma {:induction false} MarkFinishedCallsAt(keys: seq<QueueKey>, i: nat)
    requires i < |keys|
    ensures MarkFinishedCalls(keys)[i] == MarkFinishedCall(keys[i])
  {
    if i < |keys| - 1 {
      MarkFinishedCallsAt(keys[..|keys| - 1], i);
    }
  }

  /** The status map after MarkQueueAsFinished has been called for each of `keys` in turn:
      a registered key becomes finished, keeping its closure; an unknown key changes nothing. */
  function MarkedFinished(status: map<QueueKey, QueueStatus>, keys: seq<QueueKey>): (r: map<QueueKey, QueueStatus>)
    ensures r.Keys == status.Keys
    decreases |keys|
  {
    if keys == [] then status
    else
      var prior := MarkedFinished(status, keys[..|keys| - 1]);
      var key := keys[|keys| - 1];
      if key in prior then prior[key := Finished(prior[key].callback)] else prior
  }

  /** After marking, a registered queue is finished exactly when its key was marked, and keeps its closure. */
  lemma {:induction false} MarkedFinishedAt(status: map<QueueKey, QueueStatus>, keys: seq<QueueKey>, key: QueueKey)
    requires key in status
    ensures MarkedFinished(status, keys)[key] == if key in keys then Finished(status[key].callback) else status[key]
    decreases |keys|
  {
    if keys != [] {
      var rest := keys[..|keys| - 1];
      MarkedFinishedAt(status, rest, key);
      assert keys == rest + [keys[|keys| - 1]];
    }
  }

  /** The status map after AddQueue has been called for each of `keys` in turn, each with the
      closure over the key's sensor id. */
  function Registered(status: map<QueueKey, QueueStatus>, keys: seq<QueueKey>, callback: Callback): (r: map<QueueKey, QueueStatus>)
    decreases |keys|
  {
    if keys == [] then status
    else
      var key := keys[|keys| - 1];
      Registered(status, keys[..|keys| - 1], callback)[key := Active(Forward(callback, key.sensorId))]
  }

  /** After registration, every key in `keys` is an active queue with the closure over its own
      sensor id, and every other queue is as it was. */
  lemma {:induction false} RegisteredAt(status: map<QueueKey, QueueStatus>, keys: seq<QueueKey>, callback: Callback, key: QueueKey)
    ensures key in keys ==> key in Registered(status, keys, callback)
                            && Registered(status, keys, callback)[key] == Active(Forward(callback, key.sensorId))
    ensures key !in keys ==> (key in Registered(status, keys, callback) <==> key in status)
    ensures key !in keys && key in status ==> Registered(status, keys, callback)[key] == status[key]
    decreases |keys|
  {
    if keys != [] {
      var rest := keys[..|keys| - 1];
      RegisteredAt(status, rest, callback, key);
      assert keys == rest + [keys[|keys| - 1]];
    }
  }

  /** One more AddQueue call and one more registration at the end of the list. */
  lemma AppendOneQueue(status: map<QueueKey, QueueStatus>, calls: seq<QueueCall>, keys: seq<QueueKey>,
                       key: QueueKey, callback: Callback)
    ensures calls + AddQueueCalls(keys + [key], callback)
            == (calls + AddQueueCalls(keys, callback)) + [AddQueueCall(key, Forward(callback, key.sensorId))]
    ensures Registered(status, keys + [key], callback)
            == Registered(status, keys, callback)[key := Active(Forward(callback, key.sensorId))]
  {
    assert (keys + [key])[..|keys|] == keys;
  }

  /** One more MarkQueueAsFinished call and one more marking at the end of the list. */
  lemma MarkOneQueue(status: map<QueueKey, QueueStatus>, calls: seq<QueueCall>, keys: seq<QueueKey>, key: QueueKey)
    ensures calls + MarkFinishedCalls(keys + [key]) == (calls + MarkFinishedCalls(keys)) + [MarkFinishedCall(key)]
    ensures MarkedFinished(status, keys + [key])
            == var prior := MarkedFinished(status, keys);
               if key in prior then prior[key := Finished(prior[key].callback)] else prior
  {
    assert (keys + [key])[..|keys|] == keys;
  }

  /** Registering a queue afresh after finishing it leaves the status map as if only the
      registration had happened: no other queue's status is affected by the pair. */
  lemma FinishThenRegister(status: map<QueueKey, QueueStatus>, key: QueueKey, st: QueueStatus)
    ensures MarkedFinished(status, [key])[key := st] == status[key := st]
  {
    assert [key][..0] == [];
  }

  /** `keys` lists the key (t, s) of each s in `ids` exactly once, in some order. */
  ghost predicate Enumerates(keys: seq<QueueKey>, t: int, ids: set<string>)
    decreases |keys|
  {
    if keys == [] then ids == {}
    else
      var last := keys[|keys| - 1];
      && last.trajectoryId == t
      && last.sensorId in ids
      && Enumerates(keys[..|keys| - 1], t, ids - {last.sensorId})
  }

  /** Listing a fresh sensor's key at the end extends the enumeration by that sensor. */
  lemma EnumeratesStep(keys: seq<QueueKey>, t: int, ids: set<string>, s: string)
    requires Enumerates(keys, t, ids) && s !in ids
    ensures Enumerates(keys + [QueueKey(t, s)], t, ids + {s})
  {
    assert (keys + [QueueKey(t, s)])[..|keys|] == keys;
    assert ids + {s} - {s} == ids;
  }

  /** An enumeration of `ids` has one key per id, no duplicates, and exactly the keys (t, s) for s in ids. */
  lemma {:induction false} EnumeratesFacts(keys: seq<QueueKey>, t: int, ids: set<string>)
    requires Enumerates(keys, t, ids)
    ensures |keys| == |ids|
    ensures NoDuplicates(keys)
    ensures forall k :: k in keys <==> k.trajectoryId == t && k.sensorId in ids
  {
    if keys != [] {
      var last := keys[|keys| - 1];
      var rest := keys[..|keys| - 1];
      EnumeratesFacts(rest, t, ids - {last.sensorId});
      assert keys == rest + [last];
      AppendNoDuplicates(rest, last);
    }
  }

  /** Every key of `keys` is a key of trajectory t and names a queue registered in `status`. */
  ghost predicate ListedUnder(keys: seq<QueueKey>, t: int, status: map<QueueKey, QueueStatus>)
    decreases |keys|
  {
    keys == [] ||
    (var key := keys[|keys| - 1];
     ListedUnder(keys[..|keys| - 1], t, status) && key.trajectoryId == t && key in status)
  }

  /** The recursive form says the same as its quantified reading. */
  lemma {:induction false} ListedUnderMeans(keys: seq<QueueKey>, t: int, status: map<QueueKey, QueueStatus>)
    ensures ListedUnder(keys, t, status) <==> forall k :: k in keys ==> k.trajectoryId == t && k in status
    decreases |keys|
  {
    if keys != [] {
      var rest := keys[..|keys| - 1];
      ListedUnderMeans(rest, t, status);
      assert keys == rest + [keys[|keys| - 1]];
    }
  }

  /** The Collator's invariant on values: every listed key is listed under its own
      trajectory and names a queue registered with the multi-queue. */
  ghost predicate ListedRegistered(queueKeys: map<int, seq<QueueKey>>, status: map<QueueKey, QueueStatus>)
  {
    forall t :: t in queueKeys ==> ListedUnder(queueKeys[t], t, status)
  }

  /** Replacing one trajectory's list keeps the invariant when no queue is dropped and every
      key of the new list was listed before or is a registered key of that trajectory. */
  lemma ListedRegisteredStep(queueKeys: map<int, seq<QueueKey>>, status: map<QueueKey, QueueStatus>,
                             newStatus: map<QueueKey, QueueStatus>, t: int, keys: seq<QueueKey>)
    requires ListedRegistered(queueKeys, status)
    requires status.Keys <= newStatus.Keys
    requires forall k :: k in keys ==> (t in queueKeys && k in queueKeys[t]) || (k.trajectoryId == t && k in newStatus)
    ensures ListedRegistered(queueKeys[t := keys], newStatus)
  {
    var updated := queueKeys[t := keys];
    forall u | u in updated
      ensures ListedUnder(updated[u], u, newStatus)
    {
      if u in queueKeys {
        ListedUnderMeans(queueKeys[u], u, status);
      }
      ListedUnderMeans(updated[u], u, newStatus);
    }
  }

  /** A listed key names a registered queue, and erasing it from its list keeps the invariant
      as long as no queue is dropped. */
  lemma ErasedListed(queueKeys: map<int, seq<QueueKey>>, status: map<QueueKey, QueueStatus>,
                     newStatus: map<QueueKey, QueueStatus>, t: int, key: QueueKey)
    requires ListedRegistered(queueKeys, status)
    requires t in queueKeys && key in queueKeys[t]
    requires status.Keys <= newStatus.Keys
    ensures key in status
    ensures ListedRegistered(queueKeys[t := RemoveFirst(queueKeys[t], key)], newStatus)
  {
    ListedUnderMeans(queueKeys[t], t, status);
    RemoveFirstSublist(queueKeys[t], key);
    ListedRegisteredStep(queueKeys, status, newStatus, t, RemoveFirst(queueKeys[t], key));
  }

  // ---------------------------------------------------------------------------
  // The ordered multi-queue, whose merge algorithm is not part of this model

  /** The multi-queue as seen by the Collator: which queues are registered and
      whether they are finished, the calls made into it, and the key it
      reports as blocking. */
  class OrderedMultiQueue {
    var status: map<QueueKey, QueueStatus>
    var calls: seq<QueueCall>
    var blocker: QueueKey

    constructor ()
      ensures status == map[] && calls == []
    {
      status := map[];
      calls := [];
      blocker := QueueKey(0, "");
    }

    method AddQueue(key: QueueKey, callback: QueueCallback)
      modifies this
      ensures status == old(status)[key := Active(callback)]
      ensures calls == old(calls) + [AddQueueCall(key, callback)]
    {
      status := status[key := Active(callback)];
      calls := calls + [AddQueueCall(key, callback)];
    }

    method MarkQueueAsFinished(key: QueueKey)
      modifies this
      ensures status == if key in old(status) then old(status)[key := Finished(old(status)[key].callback)] else old(status)
      ensures calls == old(calls) + [MarkFinishedCall(key)]
    {
      if key in status {
        status := status[key := Finished(status[key].callback)];
      }
      calls := calls + [MarkFinishedCall(key)];
    }

    method Add(key: QueueKey, data: Data)
      modifies this
      ensures status == old(status)
      ensures calls == old(calls) + [AddCall(key, data)]
    {
      calls := calls + [AddCall(key, data)];
    }

    method Flush()
      modifies this
      ensures status == old(status)
      ensures calls == old(calls) + [FlushCall]
    {
      calls := calls + [FlushCall];
    }

    method GetBlocker() returns (key: QueueKey)
      ensures key == blocker
    {
      key := blocker;
    }
  }

  // ---------------------------------------------------------------------------
  // The Collator

  class Collator {
    /** queue_keys_: for each trajectory, its queue keys in registration order. */
    var queueKeys: map<int, seq<QueueKey>>
    const queue: OrderedMultiQueue

    /** Every listed key belongs to the trajectory it is listed under and names a registered queue. */
    ghost predicate Valid()
      reads this, queue
    {
      ListedRegistered(queueKeys, queue.status)
    }

    /** `queue_keys_[t]`, where a missing entry reads as the empty list. */
    function KeysOf(t: int): (keys: seq<QueueKey>)
      reads this
    {
      if t in queueKeys then queueKeys[t] else []
    }

    constructor ()
      ensures Valid() && fresh(queue)
      ensures queueKeys == map[] && queue.status == map[] && queue.calls == []
    {
      queueKeys := map[];
      queue := new OrderedMultiQueue();
    }

    /** One pass of AddTrajectory's loop: registers the queue of (trajectoryId, sensorId) with the
        closure over sensorId and appends the key to the trajectory's list. The ghost parameters
        say which keys the loop has registered so far, starting from `keys0`, `status0` and `calls0`. */
    method AddSensorQueue(trajectoryId: int, sensorId: string, callback: Callback,
                          ghost before: seq<QueueKey>, ghost keys0: map<int, seq<QueueKey>>,
                          ghost status0: map<QueueKey, QueueStatus>, ghost calls0: seq<QueueCall>,
                          ghost added: seq<QueueKey>)
      requires Valid()
      requires KeysOf(trajectoryId) == before + added
      requires added == [] ==> queueKeys == keys0
      requires added != [] ==> queueKeys == keys0[trajectoryId := before + added]
      requires queue.status == Registered(status0, added, callback)
      requires queue.calls == calls0 + AddQueueCalls(added, callback)
      modifies this, queue
      ensures Valid()
      ensures queueKeys == keys0[trajectoryId := before + (added + [QueueKey(trajectoryId, sensorId)])]
      ensures KeysOf(trajectoryId) == before + (added + [QueueKey(trajectoryId, sensorId)])
      ensures queue.status == Registered(status0, added + [QueueKey(trajectoryId, sensorId)], callback)
      ensures queue.calls == calls0 + AddQueueCalls(added + [QueueKey(trajectoryId, sensorId)], callback)
    {
      var queueKey := QueueKey(trajectoryId, sensorId);
      ghost var status := queue.status;
      queue.AddQueue(queueKey, Forward(callback, sensorId));
      ListedRegisteredStep(queueKeys, status, queue.status, trajectoryId, KeysOf(trajectoryId) + [queueKey]);
      assert KeysOf(trajectoryId) + [queueKey] == before + (added + [queueKey]);
      queueKeys := queueKeys[trajectoryId := KeysOf(trajectoryId) + [queueKey]];
      assert queueKeys == keys0[trajectoryId := before + (added + [queueKey])];
      AppendOneQueue(status0, calls0, added, queueKey, callback);
    }

    /** AddTrajectory's loop: one AddSensorQueue step per expected sensor, in the order the set
        happens to be iterated, which `added` records. */
    method AddSensorQueues(trajectoryId: int, expectedSensorIds: set<string>, callback: Callback)
      returns (ghost added: seq<QueueKey>)
      requires Valid()
      modifies this, queue
      ensures Valid()
      ensures Enumerates(added, trajectoryId, expectedSensorIds)
      ensures KeysOf(trajectoryId) == old(KeysOf(trajectoryId)) + added
      ensures added == [] ==> queueKeys == old(queueKeys)
      ensures added != [] ==> queueKeys == old(queueKeys)[trajectoryId := old(KeysOf(trajectoryId)) + added]
      ensures queue.status == Registered(old(queue.status), added, callback)
      ensures queue.calls == old(queue.calls) + AddQueueCalls(added, callback)
    {
      ghost var before := KeysOf(trajectoryId);
      ghost var keys0, status0, calls0 := queueKeys, queue.status, queue.calls;
      added := [];
      ghost var done: set<string> := {};
      var remaining := expectedSensorIds;
      while remaining != {}
        invariant done + remaining == expectedSensorIds && done !! remaining
        invariant KeysOf(trajectoryId) == before + added
        invariant added == [] ==> queueKeys == keys0
        invariant added != [] ==> queueKeys == keys0[trajectoryId := before + added]
        invariant Enumerates(added, trajectoryId, done)
        invariant queue.status == Registered(status0, added, callback)
        invariant queue.calls == calls0 + AddQueueCalls(added, callback)
        invariant Valid()
        decreases remaining
      {
        var sensorId :| sensorId in remaining;
        AddSensorQueue(trajectoryId, sensorId, callback, before, keys0, status0, calls0, added);
        EnumeratesStep(added, trajectoryId, done, sensorId);
        added := added + [QueueKey(trajectoryId, sensorId)];
        remaining := remaining - {sensorId};
        done := done + {sensorId};
      }
    }

    /** Registers one queue per expected sensor and lists its key under the trajectory;
        `added` is the order in which the set happened to be iterated. */
    method AddTrajectory(trajectoryId: int, expectedSensorIds: set<string>, callback: Callback)
      returns (ghost added: seq<QueueKey>)
      requires Valid()
      modifies this, queue
      ensures Valid()
      ensures Enumerates(added, trajectoryId, expectedSensorIds)
      ensures KeysOf(trajectoryId) == old(KeysOf(trajectoryId)) + added
      ensures queueKeys == if expectedSensorIds == {} then old(queueKeys)
                           else old(queueKeys)[trajectoryId := old(KeysOf(trajectoryId)) + added]
      ensures forall t :: t != trajectoryId ==> KeysOf(t) == old(KeysOf(t))
      ensures queue.status == Registered(old(queue.status), added, callback)
      ensures queue.calls == old(queue.calls) + AddQueueCalls(added, callback)
    {
      added := AddSensorQueues(trajectoryId, expectedSensorIds, callback);
      EnumeratesFacts(added, trajectoryId, expectedSensorIds);
    }

    /** FinishTrajectory's loop: one MarkQueueAsFinished call per key, in list order. */
    method MarkQueuesAsFinished(keys: seq<QueueKey>)
      modifies queue
      ensures queue.status == MarkedFinished(old(queue.status), keys)
      ensures queue.calls == old(queue.calls) + MarkFinishedCalls(keys)
    {
      ghost var status0, calls0 := queue.status, queue.calls;
      var i := 0;
      while i < |keys|
        invariant i <= |keys|
        invariant queue.status == MarkedFinished(status0, keys[..i])
        invariant queue.calls == calls0 + MarkFinishedCalls(keys[..i])
      {
        queue.MarkQueueAsFinished(keys[i]);
        MarkOneQueue(status0, calls0, keys[..i], keys[i]);
        assert keys[..i + 1] == keys[..i] + [keys[i]];
        i := i + 1;
      }
      assert keys[..i] == keys;
    }

    /** Marks every queue listed for the trajectory as finished, in list order. */
    method FinishTrajectory(trajectoryId: int)
      requires Valid()
      modifies this, queue
      ensures Valid()
      ensures queueKeys == if trajectoryId in old(queueKeys) then old(queueKeys) else old(queueKeys)[trajectoryId := []]
      ensures forall t :: KeysOf(t) == old(KeysOf(t))
      ensures queue.status == MarkedFinished(old(queue.status), old(KeysOf(trajectoryId)))
      ensures queue.calls == old(queue.calls) + MarkFinishedCalls(old(KeysOf(trajectoryId)))
    {
      if trajectoryId !in queueKeys {
        ListedRegisteredStep(queueKeys, queue.status, queue.status, trajectoryId, []);
        queueKeys := queueKeys[trajectoryId := []];
      }
      var keys := queueKeys[trajectoryId];
      ghost var status0 := queue.status;
      MarkQueuesAsFinished(keys);
      assert queueKeys[trajectoryId := keys] == queueKeys;
      ListedRegisteredStep(queueKeys, status0, queue.status, trajectoryId, keys);
    }

    /** Routes a sample to the queue of its (trajectory, sensor) pair. */
    method AddSensorData(trajectoryId: int, data: Data)
      requires Valid()
      modifies queue
      ensures Valid()
      ensures queue.status == old(queue.status)
      ensures queue.calls == old(queue.calls) + [AddCall(QueueKey(trajectoryId, data.sensorId), data)]
    {
      var queueKey := QueueKey(trajectoryId, data.sensorId);
      queue.Add(queueKey, data);
    }

    /** Asks the multi-queue to release what it still holds. */
    method Flush()
      requires Valid()
      modifies queue
      ensures Valid()
      ensures queue.status == old(queue.status)
      ensures queue.calls == old(queue.calls) + [FlushCall]
    {
      queue.Flush();
    }

    /** Always an engaged value: the trajectory of the queue the multi-queue reports as blocking. */
    method GetBlockingTrajectoryId() returns (r: Option<int>)
      ensures r.Some?
      ensures r.value == queue.blocker.trajectoryId
    {
      var blocker := queue.GetBlocker();
      r := Some(blocker.trajectoryId);
    }

    /** Finishes the sensor's queue and removes exactly its key from the trajectory's list. */
    method PauseCollating(trajectoryId: int, sensorId: string)
      requires Valid()
      requires QueueKey(trajectoryId, sensorId) in KeysOf(trajectoryId)
      modifies this, queue
      ensures Valid()
      ensures queueKeys == old(queueKeys)[trajectoryId := RemoveFirst(old(KeysOf(trajectoryId)), QueueKey(trajectoryId, sensorId))]
      ensures queue.status == MarkedFinished(old(queue.status), [QueueKey(trajectoryId, sensorId)])
      ensures QueueKey(trajectoryId, sensorId) in queue.status && queue.status[QueueKey(trajectoryId, sensorId)].Finished?
      ensures queue.calls == old(queue.calls) + [MarkFinishedCall(QueueKey(trajectoryId, sensorId))]
    {
      var queueKey := QueueKey(trajectoryId, sensorId);
      ghost var status := queue.status;
      queue.MarkQueueAsFinished(queueKey);
      assert [queueKey][..0] == [];
      var keys := queueKeys[trajectoryId];
      var it := Find(keys, queueKey);
      assert it != |keys|;
      ErasedListed(queueKeys, status, queue.status, trajectoryId, queueKey);
      queueKeys := queueKeys[trajectoryId := keys[..it] + keys[it + 1..]];
    }

    /** Registers a fresh queue for the sensor and appends its key to the trajectory's list. */
    method ResumeCollating(trajectoryId: int, sensorId: string, callback: Callback)
      requires Valid()
      requires QueueKey(trajectoryId, sensorId) !in KeysOf(trajectoryId)
      modifies this, queue
      ensures Valid()
      ensures queueKeys == old(queueKeys)[trajectoryId := old(KeysOf(trajectoryId)) + [QueueKey(trajectoryId, sensorId)]]
      ensures queue.status == old(queue.status)[QueueKey(trajectoryId, sensorId) := Active(Forward(callback, sensorId))]
      ensures queue.calls == old(queue.calls) + [AddQueueCall(QueueKey(trajectoryId, sensorId), Forward(callback, sensorId))]
    {
      var queueKey := QueueKey(trajectoryId, sensorId);
      ghost var status := queue.status;
      queue.AddQueue(queueKey, Forward(callback, sensorId));
      var keys := KeysOf(trajectoryId);
      var it := Find(keys, queueKey);
      assert it == |keys|;
      ListedRegisteredStep(queueKeys, status, queue.status, trajectoryId, keys + [queueKey]);
      queueKeys := queueKeys[trajectoryId := keys + [queueKey]];
    }
  }

  /** A client of the Collator: pausing and then resuming one sensor whose key is listed once
      keeps the same keys, moves that key to the end, keeps a duplicate-free list duplicate-free,
      and leaves every other trajectory's list alone. */
  method PauseThenResumeCollating(collator: Collator, trajectoryId: int, sensorId: string, callback: Callback)
    requires collator.Valid()
    requires multiset(collator.KeysOf(trajectoryId))[QueueKey(trajectoryId, sensorId)] == 1
    modifies collator, collator.queue
    ensures collator.Valid()
    ensures NoDuplicates(old(collator.KeysOf(trajectoryId))) ==> NoDuplicates(collator.KeysOf(trajectoryId))
    ensures multiset(collator.KeysOf(trajectoryId)) == multiset(old(collator.KeysOf(trajectoryId)))
    ensures collator.KeysOf(trajectoryId)[|collator.KeysOf(trajectoryId)| - 1] == QueueKey(trajectoryId, sensorId)
    ensures forall t :: t != trajectoryId ==> collator.KeysOf(t) == old(collator.KeysOf(t))
    ensures collator.queue.status == old(collator.queue.status)[QueueKey(trajectoryId, sensorId) := Active(Forward(callback, sensorId))]
  {
    var key := QueueKey(trajectoryId, sensorId);
    ghost var keys := collator.KeysOf(trajectoryId);
    PauseThenResume(keys, key);
    collator.PauseCollating(trajectoryId, sensorId);
    assert collator.KeysOf(trajectoryId) == RemoveFirst(keys, key);
    collator.ResumeCollating(trajectoryId, sensorId, callback);
    assert collator.KeysOf(trajectoryId) == RemoveFirst(keys, key) + [key];
    FinishThenRegister(old(collator.queue.status), key, Active(Forward(callback, sensorId)));
  }
}
