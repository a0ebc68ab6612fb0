/** The Redis server as the todo stores use it: JSON documents by key
    (JSON.SET, JSON.GET, JSON.DEL at the root path) and named search indexes
    (FT._LIST, FT.CREATE, FT.DROPINDEX, FT.SEARCH). Whether a round trip
    fails (connectivity, a server error) cannot be told from the stored data,
    so every command takes a `Fault` that the caller supplies. */
module Redis {

  import opened Wrappers

  /** The outcome of one round trip: None when the command succeeds, Some with
      the client's error text when it fails. */
  type Fault = Option<string>

  /** One document of an FT.SEARCH reply: its key and its stored value. */
  datatype Hit<V> = Hit(id: string, value: V)

  /** An FT.SEARCH reply: the total the server reports and the documents. */
  datatype SearchReply<V> = SearchReply(total: int, hits: seq<Hit<V>>)

  /** The fault the caller supplies for deleting `key`, when deletions are
      given per key. */
  function DelFault(faults: map<string, string>, key: string): (f: Fault)
  {
    if key in faults then Some(faults[key]) else None
  }

  /** What JSON.GET reads at `key`: the stored value, or an empty payload. */
  function Payload<V>(docs: map<string, V>, key: string): (payload: Option<V>)
  {
    if key in docs then Some(docs[key]) else None
  }

  /** The keys of `docs` inside a prefix scope. */
  function Covered<V>(docs: map<string, V>, prefix: string): (keys: set<string>)
    ensures keys <= docs.Keys
    ensures forall k :: k in docs && prefix <= k <==> k in keys
  {
    set k | k in docs.Keys && prefix <= k
  }

  /** The elements of a sequence of keys. */
  function Elems(ids: seq<string>): (elems: set<string>)
  {
    set x | x in ids
  }

  /** No key is listed twice. */
  predicate Distinct(ids: seq<string>)
  {
    forall i, j :: 0 <= i < j < |ids| ==> ids[i] != ids[j]
  }

  /** The keys of the documents of a reply, in order. */
  function HitIds<V>(hits: seq<Hit<V>>): (ids: seq<string>)
    ensures |ids| == |hits|
    ensures forall i :: 0 <= i < |hits| ==> ids[i] == hits[i].id
  {
    seq(|hits|, i requires 0 <= i < |hits| => hits[i].id)
  }

  /** A list of distinct keys is as long as the set of keys it lists. */
  lemma {:induction false} DistinctLength(ids: seq<string>)
    requires Distinct(ids)
    ensures |Elems(ids)| == |ids|
  {
    if ids != [] {
      var rest := ids[1..];
      assert Distinct(rest);
      DistinctLength(rest);
      assert Elems(ids) == Elems(rest) + {ids[0]};
      assert ids[0] !in Elems(rest);
    }
  }

  /** The position of the first key whose deletion fails, or the length of
      the list when none does: how far a delete-all loop that stops at the
      first failure gets. */
  function FirstFault(ids: seq<string>, faults: map<string, string>): (n: nat)
    ensures n <= |ids|
    ensures forall j :: 0 <= j < n ==> ids[j] !in faults
    ensures n < |ids| ==> ids[n] in faults
  {
    if ids == [] then 0
    else if ids[0] in faults then 0
    else 1 + FirstFault(ids[1..], faults)
  }

/** FirstFault is the first position at which a listed key has a fault. */
  lemma {:induction false} FirstFaultAt(ids: seq<string>, faults: map<string, string>, i: nat)
    requires i <= |ids|
    requires forall j :: 0 <= j < i ==> ids[j] !in faults
    requires i < |ids| ==> ids[i] in faults
    ensures FirstFault(ids, faults) == i
  {
    if i > 0 {
      FirstFaultAt(ids[1..], faults, i - 1);
    }
  }

  /** Every hit carries the value stored under its key. */
  ghost predicate Stored<V>(docs: map<string, V>, hits: seq<Hit<V>>)
  {
    forall h :: h in hits ==> h.id in docs && h.value == docs[h.id]
  }

  /** Appending a hit whose key is not yet listed keeps the keys distinct and
      adds exactly that key. */
  lemma AppendHit<V>(docs: map<string, V>, hits: seq<Hit<V>>, h: Hit<V>)
    requires Distinct(HitIds(hits)) && h.id !in Elems(HitIds(hits))
    requires Stored(docs, hits) && h.id in docs && h.value == docs[h.id]
    ensures Stored(docs, hits + [h])
    ensures HitIds(hits + [h]) == HitIds(hits) + [h.id]
    ensures Elems(HitIds(hits + [h])) == Elems(HitIds(hits)) + {h.id}
    ensures Distinct(HitIds(hits + [h]))
  {
    assert HitIds(hits + [h]) == HitIds(hits) + [h.id];
    assert Elems(HitIds(hits) + [h.id]) == Elems(HitIds(hits)) + {h.id};
  }

  /** One more listed key adds exactly that key to the prefix's elements. */
  lemma ElemsPrefixStep(ids: seq<string>, i: nat)
    requires i < |ids|
    ensures Elems(ids[..i + 1]) == Elems(ids[..i]) + {ids[i]}
  {
    assert ids[..i + 1] == ids[..i] + [ids[i]];
  }

  /** Removing every key in a prefix's scope leaves none in it. */
  lemma RemoveCovered<V>(docs: map<string, V>, prefix: string, keys: set<string>)
    requires keys == Covered(docs, prefix)
    ensures Covered(docs - keys, prefix) == {}
  {
  }

  /** The server: documents by key and the names of the existing indexes. */
  class Db<V> {
    var docs: map<string, V>
    var indexes: set<string>

    /** An empty server. */
    constructor ()
      ensures docs == map[] && indexes == {}
    {
      docs := map[];
      indexes := {};
    }

    /** FT._LIST contains `name`. */
    predicate Listed(name: string)
      reads this
    {
      name in indexes
    }

    /** JSON.SET key $ value: the key holds the value, nothing else changes. */
    method JsonSet(key: string, value: V, fault: Fault) returns (err: Fault)
      modifies this
      ensures err == fault
      ensures indexes == old(indexes)
      ensures docs == if fault.None? then old(docs)[key := value] else old(docs)
    {
      err := fault;
      if fault.None? {
        docs := docs[key := value];
      }
    }

    /** JSON.GET key: the stored value, or an empty payload (None) when the key
        holds nothing. */
    method JsonGet(key: string, fault: Fault) returns (payload: Option<V>, err: Fault)
      ensures err == fault
      ensures fault.Some? ==> payload == None
      ensures fault.None? && key in docs ==> payload == Some(docs[key])
      ensures fault.None? && key !in docs ==> payload == None
    {
      err := fault;
      payload := if fault.None? && key in docs then Some(docs[key]) else None;
    }

    /** JSON.DEL key $: the key holds nothing afterwards; deleting an absent
        key is not an error. */
    method JsonDel(key: string, fault: Fault) returns (err: Fault)
      modifies this
      ensures err == fault
      ensures indexes == old(indexes)
      ensures docs == if fault.None? then old(docs) - {key} else old(docs)
    {
      err := fault;
      if fault.None? {
        docs := docs - {key};
      }
    }

    /** FT.CREATE name: the index exists afterwards. */
    method FtCreate(name: string, fault: Fault) returns (err: Fault)
      modifies this
      ensures err == fault
      ensures docs == old(docs)
      ensures indexes == if fault.None? then old(indexes) + {name} else old(indexes)
    {
      err := fault;
      if fault.None? {
        indexes := indexes + {name};
      }
    }

    /** FT.DROPINDEX name: the index is gone afterwards; its documents stay. */
    method FtDropIndex(name: string, fault: Fault) returns (err: Fault)
      modifies this
      ensures err == fault
      ensures docs == old(docs)
      ensures indexes == if fault.None? then old(indexes) - {name} else old(indexes)
    {
      err := fault;
      if fault.None? {
        indexes := indexes - {name};
      }
    }

    /** FT.SEARCH over an index scoped to `prefix` with the query "*": every
        stored document whose key carries the prefix, each exactly once, in an
        order the server chooses, with the total equal to their number. A
        failed round trip yields the zero reply. */
    method FtSearchAll(prefix: string, fault: Fault) returns (reply: SearchReply<V>, err: Fault)
      ensures err == fault
      ensures fault.Some? ==> reply == SearchReply(0, [])
      ensures fault.None? ==> reply.total == |reply.hits| == |Covered(docs, prefix)|
      ensures fault.None? ==> Distinct(HitIds(reply.hits))
      ensures fault.None? ==> Elems(HitIds(reply.hits)) == Covered(docs, prefix)
      ensures fault.None? ==> Stored(docs, reply.hits)
    {
      err := fault;
      if fault.Some? {
        return SearchReply(0, []), err;
      }
      var stored := docs;
      var remaining := Covered(stored, prefix);
      var hits: seq<Hit<V>> := [];
      while remaining != {}
        invariant remaining <= Covered(stored, prefix)
        invariant Elems(HitIds(hits)) == Covered(stored, prefix) - remaining
        invariant Distinct(HitIds(hits))
        invariant Stored(stored, hits)
        decreases |remaining|
      {
        var k :| k in remaining;
        AppendHit(stored, hits, Hit(k, stored[k]));
        hits := hits + [Hit(k, stored[k])];
        remaining := remaining - {k};
      }
      DistinctLength(HitIds(hits));
      reply := SearchReply(|hits|, hits);
    }
  }
}
