/**
 * The in-memory stand-in for the consent and node-registry contracts
 * (backend/blockchain/storage.py).
 *
 * Consent is kept per patient and hospital, with the time it was recorded;
 * nodes are kept by id, with their ids in first-registration order. The
 * current time is a parameter.
 */
module BlockchainStorage {
  import opened Wrappers

  datatype Node = Node(hospitalName: string, publicKey: string, isVerified: bool, registrationTime: int)

  /** `m[p][h]`, or `default` when either key is missing. */
  function Lookup<V>(m: map<string, map<string, V>>, p: string, h: string, default: V): V
  {
    if p in m && h in m[p] then m[p][h] else default
  }

  /** `m[p][h] = v`, creating the inner map for a new `p`. */
  function Put<V>(m: map<string, map<string, V>>, p: string, h: string, v: V): (r: map<string, map<string, V>>)
    ensures r.Keys == m.Keys + {p}
    ensures r[p].Keys == (if p in m then m[p].Keys else {}) + {h}
    ensures forall q :: q in m && q != p ==> r[q] == m[q]
  {
    m[p := (if p in m then m[p] else map[])[h := v]]
  }

  /** After a write, the written pair reads the new value and every other pair reads as before. */
  lemma PutThenLookup<V>(m: map<string, map<string, V>>, p: string, h: string, v: V, p2: string, h2: string, default: V)
    ensures Lookup(Put(m, p, h, v), p2, h2, default) == if p2 == p && h2 == h then v else Lookup(m, p2, h2, default)
  {
  }

  /** No id occurs twice. */
  predicate NoDuplicates(ids: seq<string>)
  {
    forall i, j :: 0 <= i < j < |ids| ==> ids[i] != ids[j]
  }

  class Storage {
    var consentStorage: map<string, map<string, bool>>
    var consentTimestamps: map<string, map<string, int>>
    var nodeStorage: map<string, Node>
    var nodeIds: seq<string>
    /** Every `store_node` call so far, in order. */
    ghost var registrations: seq<string>

    /**
     * The two consent maps always cover the same patients and hospitals, the
     * id list holds each stored node exactly once, and every stored node is
     * verified.
     */
    ghost predicate Valid()
      reads this
    {
      && consentStorage.Keys == consentTimestamps.Keys
      && (forall p :: p in consentStorage ==> consentStorage[p].Keys == consentTimestamps[p].Keys)
      && nodeIds == Registered(registrations)
      && (forall id :: id in nodeStorage <==> id in nodeIds)
      && (forall id :: id in nodeStorage ==> nodeStorage[id].isVerified)
    }

    constructor ()
      ensures Valid()
      ensures consentStorage == map[] && consentTimestamps == map[] && nodeStorage == map[] && nodeIds == []
      ensures registrations == []
    {
      registrations := [];
      consentStorage := map[];
      consentTimestamps := map[];
      nodeStorage := map[];
      nodeIds := [];
    }

    /** The stored decision for the pair, or false for a pair never stored. */
    function GetConsent(patientId: string, hospitalId: string): (granted: bool)
      reads this
      ensures granted == Lookup(consentStorage, patientId, hospitalId, false)
    {
      if patientId in consentStorage && hospitalId in consentStorage[patientId] then
        consentStorage[patientId][hospitalId]
      else false
    }

    /** The recording time for the pair, or 0 for a pair never stored. */
    function GetConsentTimestamp(patientId: string, hospitalId: string): (t: int)
      reads this
      ensures t == Lookup(consentTimestamps, patientId, hospitalId, 0)
    {
      if patientId in consentTimestamps && hospitalId in consentTimestamps[patientId] then
        consentTimestamps[patientId][hospitalId]
      else 0
    }

    /** Records the decision and its time for one pair; see `PutThenLookup` for what the others read. */
    method StoreConsent(patientId: string, hospitalId: string, granted: bool, now: int)
      requires Valid()
      modifies this
      ensures Valid()
      ensures consentStorage == Put(old(consentStorage), patientId, hospitalId, granted)
      ensures consentTimestamps == Put(old(consentTimestamps), patientId, hospitalId, now)
      ensures nodeStorage == old(nodeStorage) && nodeIds == old(nodeIds) && registrations == old(registrations)
    {
      consentStorage := Put(consentStorage, patientId, hospitalId, granted);
      consentTimestamps := Put(consentTimestamps, patientId, hospitalId, now);
    }

    /**
     * Registers or re-registers a node: the id is appended only the first
     * time, so a re-registered node keeps its place, while its name, key and
     * registration time are overwritten.
     */
    method StoreNode(nodeId: string, hospitalName: string, publicKey: string, now: int)
      requires Valid()
      modifies this
      ensures Valid()
      ensures nodeStorage == old(nodeStorage)[nodeId := Node(hospitalName, publicKey, true, now)]
      ensures nodeId in old(nodeStorage) ==> nodeIds == old(nodeIds)
      ensures nodeId !in old(nodeStorage) ==> nodeIds == old(nodeIds) + [nodeId]
      ensures consentStorage == old(consentStorage) && consentTimestamps == old(consentTimestamps)
      ensures registrations == old(registrations) + [nodeId]
    {
      if nodeId !in nodeStorage {
        RegisterNew(registrations, nodeId);
        nodeIds := nodeIds + [nodeId];
      } else {
        RegisterAgain(registrations, nodeId);
      }
      registrations := registrations + [nodeId];
      nodeStorage := nodeStorage[nodeId := Node(hospitalName, publicKey, true, now)];
    }

    /** The stored node, or nothing (the source's empty dict) for an unknown id. */
    function GetNode(nodeId: string): (r: Option<Node>)
      reads this
      ensures r.None? <==> nodeId !in nodeStorage
      ensures r.Some? ==> r.value == nodeStorage[nodeId]
    {
      if nodeId in nodeStorage then Some(nodeStorage[nodeId]) else None
    }

    /** The registered ids, each once, in first-registration order. */
    function GetAllNodeIds(): (ids: seq<string>)
      reads this
      requires Valid()
      ensures NoDuplicates(ids)
      ensures forall id :: id in ids <==> id in nodeStorage
      ensures ids == Registered(registrations)
    {
      nodeIds
    }

    /** A node is verified exactly when it is stored. */
    function VerifyNode(nodeId: string): (verified: bool)
      reads this
      requires Valid()
      ensures verified <==> nodeId in nodeStorage
    {
      if nodeId in nodeStorage then nodeStorage[nodeId].isVerified else false
    }
  }

  /**
   * The id list as a function of the registration calls: first occurrences
   * in order. Registering ids one after another yields exactly this list.
   */
  function Registered(calls: seq<string>): (ids: seq<string>)
    ensures NoDuplicates(ids)
    ensures forall id :: id in ids <==> id in calls
  {
    if calls == [] then []
    else
      var prev := Registered(calls[..|calls| - 1]);
      var last := calls[|calls| - 1];
      assert forall id :: id in calls <==> id in calls[..|calls| - 1] || id == last by {
        assert calls == calls[..|calls| - 1] + [last];
      }
      if last in prev then prev else prev + [last]
  }

  /** Re-registering an id already in the list does not change the list. */
  lemma {:induction false} RegisterAgain(calls: seq<string>, id: string)
    requires id in calls
    ensures Registered(calls + [id]) == Registered(calls)
  {
    assert (calls + [id])[..|calls + [id]| - 1] == calls;
  }

  /** The first registration of an id goes to the end of the list. */
  lemma {:induction false} RegisterNew(calls: seq<string>, id: string)
    requires id !in calls
    ensures Registered(calls + [id]) == Registered(calls) + [id]
  {
    assert (calls + [id])[..|calls + [id]| - 1] == calls;
  }
}
