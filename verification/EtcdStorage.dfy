/**
 The datastore client (pkg/etcdstorage/client.go): conditional writes on the revision that last
 modified a key.  An absent key has revision 0; every successful write takes the next revision.
 */
module EtcdStorage {
  datatype Version<D> = Version(data: D, modified: nat)
  datatype Etcd<D> = Etcd(kv: map<string, Version<D>>, revision: nat)

  function ModRevision<D>(st: Etcd<D>, key: string): nat {
    if key in st.kv then st.kv[key].modified else 0
  }

  function WithPut<D>(st: Etcd<D>, key: string, data: D): Etcd<D> {
    Etcd(st.kv[key := Version(data, st.revision + 1)], st.revision + 1)
  }

  function AfterCreate<D>(st: Etcd<D>, key: string, data: D): Etcd<D> {
    if ModRevision(st, key) == 0 then WithPut(st, key, data) else st
  }

  function AfterUpdate<D>(st: Etcd<D>, key: string, revision: nat, data: D): Etcd<D> {
    if ModRevision(st, key) == revision then WithPut(st, key, data) else st
  }

  function AfterDelete<D>(st: Etcd<D>, key: string, revision: nat): Etcd<D> {
    if ModRevision(st, key) == revision && key in st.kv then Etcd(st.kv - {key}, st.revision + 1) else st
  }

  /** Revisions start at 1 and never run ahead of the store. */
  ghost predicate Revisioned<D>(st: Etcd<D>) {
    forall k | k in st.kv :: 0 < st.kv[k].modified <= st.revision
  }

  /**
   A version read earlier pins its data: whatever writes happened since, a key whose revision is
   still the one that was read still holds what was read.
   */
  ghost predicate Pinned<D>(st: Etcd<D>, key: string, seen: Version<D>) {
    && 0 < seen.modified <= st.revision
    && (ModRevision(st, key) == seen.modified ==> st.kv[key] == seen)
  }

  /** A write changes its own key only. */
  lemma WritesLeaveOthers<D>(st: Etcd<D>, key: string, data: D, revision: nat, other: string)
    requires other != key
    ensures forall after | after in {AfterCreate(st, key, data), AfterUpdate(st, key, revision, data), AfterDelete(st, key, revision)} ::
              && (other in after.kv <==> other in st.kv)
              && (other in st.kv ==> after.kv[other] == st.kv[other])
  {
  }

  lemma WritesKeepPinned<D>(st: Etcd<D>, other: string, data: D, revision: nat, key: string, seen: Version<D>)
    requires Revisioned(st) && Pinned(st, key, seen)
    ensures var c := AfterCreate(st, other, data); Revisioned(c) && Pinned(c, key, seen)
    ensures var u := AfterUpdate(st, other, revision, data); Revisioned(u) && Pinned(u, key, seen)
    ensures var d := AfterDelete(st, other, revision); Revisioned(d) && Pinned(d, key, seen)
  {
  }

  /** A response with every key under the prefix, each once. */
  ghost predicate IsListing<D>(st: Etcd<D>, prefix: string, response: seq<string>) {
    && (forall i | 0 <= i < |response| :: response[i] in st.kv && prefix <= response[i])
    && (forall k | k in st.kv && prefix <= k :: k in response)
    && (forall i, j | 0 <= i < j < |response| :: response[i] != response[j])
  }

  function Listed<D>(st: Etcd<D>, response: seq<string>): (vals: seq<(string, Version<D>)>)
    requires forall i | 0 <= i < |response| :: response[i] in st.kv
    ensures |vals| == |response| && forall i | 0 <= i < |vals| :: vals[i] == (response[i], st.kv[response[i]])
  {
    seq(|response|, i requires 0 <= i < |response| => (response[i], st.kv[response[i]]))
  }

  class Client<D> {
    var store: Etcd<D>

    constructor (store: Etcd<D>)
      requires Revisioned(store)
      ensures this.store == store
    {
      this.store := store;
    }

    /** Every value under the prefix, once, in response order. */
    method List(prefix: string, response: seq<string>) returns (vals: seq<(string, Version<D>)>)
      requires IsListing(store, prefix, response)
      ensures vals == Listed(store, response)
      ensures forall k | k in store.kv && prefix <= k :: (k, store.kv[k]) in vals
      ensures forall v | v in vals :: prefix <= v.0 && v.0 in store.kv && store.kv[v.0] == v.1
      ensures forall i, j | 0 <= i < j < |vals| :: vals[i].0 != vals[j].0
    {
      vals := [];
      for i := 0 to |response|
        invariant vals == Listed(store, response)[..i]
      {
        vals := vals + [(response[i], store.kv[response[i]])];
      }
      forall k | k in store.kv && prefix <= k
        ensures (k, store.kv[k]) in vals
      {
        var i :| 0 <= i < |response| && response[i] == k;
        assert vals[i] == (k, store.kv[k]);
      }
    }

    method Create(key: string, data: D) returns (ok: bool)
      requires Revisioned(store)
      modifies this
      ensures Revisioned(store) && store == AfterCreate(old(store), key, data)
      ensures ok <==> key !in old(store).kv
      ensures ok ==> store.revision == old(store).revision + 1 && key in store.kv && store.kv[key] == Version(data, store.revision)
      ensures !ok ==> store == old(store)
      ensures forall k | k != key :: k in store.kv <==> k in old(store).kv
      ensures forall k | k != key && k in store.kv :: store.kv[k] == old(store).kv[k]
    {
      ok := ModRevision(store, key) == 0;
      if ok {
        store := WithPut(store, key, data);
      }
    }

    method Update(key: string, revision: nat, data: D) returns (ok: bool)
      requires Revisioned(store)
      modifies this
      ensures Revisioned(store) && store == AfterUpdate(old(store), key, revision, data)
      ensures ok <==> if key in old(store).kv then old(store).kv[key].modified == revision else revision == 0
      ensures ok ==> store.revision == old(store).revision + 1 && key in store.kv && store.kv[key] == Version(data, store.revision)
      ensures !ok ==> store == old(store)
      ensures forall k | k != key :: k in store.kv <==> k in old(store).kv
      ensures forall k | k != key && k in store.kv :: store.kv[k] == old(store).kv[k]
    {
      ok := ModRevision(store, key) == revision;
      if ok {
        store := WithPut(store, key, data);
      }
    }

    method Delete(key: string, revision: nat) returns (ok: bool)
      requires Revisioned(store)
      modifies this
      ensures Revisioned(store) && store == AfterDelete(old(store), key, revision)
      ensures ok <==> if key in old(store).kv then old(store).kv[key].modified == revision else revision == 0
      ensures ok ==> key !in store.kv
      ensures ok && key in old(store).kv ==> store.revision == old(store).revision + 1
      ensures !ok || key !in old(store).kv ==> store == old(store)
      ensures forall k | k != key :: k in store.kv <==> k in old(store).kv
      ensures forall k | k != key && k in store.kv :: store.kv[k] == old(store).kv[k]
    {
      ok := ModRevision(store, key) == revision;
      if ok && key in store.kv {
        store := Etcd(store.kv - {key}, store.revision + 1);
      }
    }
  }
}
