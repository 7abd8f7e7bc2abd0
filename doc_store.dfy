/**
 * The hosted document store as the services use it: one collection per record
 * kind, holding a namespace of documents per user (`users/{uid}/{collection}`).
 * Every write may fail for reasons outside the model (network, permissions);
 * the `fail` argument stands for that outcome, and a failed write changes nothing.
 * The store assigns fresh ids; Date.now() readings are passed in as `now`.
 */
module DocStore {
  import opened Wrappers
  import opened Domain

  class Collection<T> {
    /** user id -> document id -> document fields */
    var docs: map<string, map<string, T>>

    constructor ()
      ensures docs == map[]
    {
      docs := map[];
    }

    /** The documents of one user; an unknown user has none. */
    function Docs(user: string): map<string, T>
      reads this
    {
      if user in docs then docs[user] else map[]
    }

    /** `addDoc`: stores `data` under the fresh id the store generated. */
    method Add(user: string, id: string, data: T, fail: bool) returns (ok: bool)
      requires id !in Docs(user)
      modifies this
      ensures ok == !fail
      ensures docs == if ok then old(docs)[user := old(Docs(user))[id := data]] else old(docs)
    {
      ok := !fail;
      if ok {
        docs := docs[user := Docs(user)[id := data]];
      }
    }

    /**
     * `updateDoc`: merges into an existing document; rejected (and nothing
     * written) when the document does not exist.
     */
    method Update(user: string, id: string, merge: T -> T, fail: bool) returns (ok: bool)
      modifies this
      ensures ok == (!fail && id in old(Docs(user)))
      ensures docs == if ok then old(docs)[user := old(Docs(user))[id := merge(old(Docs(user))[id])]] else old(docs)
    {
      ok := !fail && id in Docs(user);
      if ok {
        docs := docs[user := Docs(user)[id := merge(Docs(user)[id])]];
      }
    }

    /** `deleteDoc`: removes the document; deleting a missing document succeeds. */
    method Delete(user: string, id: string, fail: bool) returns (ok: bool)
      modifies this
      ensures ok == !fail
      ensures docs == if ok then old(docs)[user := old(Docs(user)) - {id}] else old(docs)
    {
      ok := !fail;
      if ok {
        docs := docs[user := Docs(user) - {id}];
      }
    }
  }

  /** The ids occurring in a listing. */
  ghost function Ids<T>(r: seq<Doc<T>>): set<string> {
    set i | 0 <= i < |r| :: r[i].id
  }

  /**
   * `r` is what `query(ref, orderBy(key, 'desc'))` returns for the documents `m`:
   * each document whose ordering field is present, exactly once, as `{ id, ...data }`,
   * with the field non-increasing along the list.
   */
  ghost predicate OrderedListing<T>(m: map<string, T>, key: T -> Option<int>, r: seq<Doc<T>>) {
    && (forall i :: 0 <= i < |r| ==> r[i].id in m && m[r[i].id] == r[i].data && key(r[i].data).Some?)
    && (forall id :: id in m && key(m[id]).Some? ==> id in Ids(r))
    && (forall i, j :: 0 <= i < j < |r| ==> r[i].id != r[j].id)
    && (forall i, j :: 0 <= i < j < |r| ==> key(r[i].data).value >= key(r[j].data).value)
  }

  lemma IdsAppend<T>(r: seq<Doc<T>>, d: Doc<T>)
    ensures Ids(r + [d]) == Ids(r) + {d.id}
  {
    var r' := r + [d];
    assert forall i :: 0 <= i < |r| ==> r'[i] == r[i];
    assert r'[|r|] == d;
  }

  /** A non-empty set of keyed documents has one whose key is largest. */
  lemma {:induction false} LargestKeyExists<T>(m: map<string, T>, key: T -> Option<int>, rem: set<string>)
    requires rem != {}
    requires forall id :: id in rem ==> id in m && key(m[id]).Some?
    ensures exists top :: top in rem && forall id :: id in rem ==> key(m[id]).value <= key(m[top]).value
    decreases |rem|
  {
    var x :| x in rem;
    if rem != {x} {
      var rest := rem - {x};
      LargestKeyExists(m, key, rest);
      var top :| top in rest && forall id :: id in rest ==> key(m[id]).value <= key(m[top]).value;
      if key(m[x]).value > key(m[top]).value {
        assert forall id :: id in rem ==> key(m[id]).value <= key(m[x]).value;
      } else {
        assert forall id :: id in rem ==> key(m[id]).value <= key(m[top]).value;
      }
    }
  }

  /** The loop state of ListOrdered: `r` lists, in order, the documents of `target` not in `rem`. */
  ghost predicate ListedSoFar<T>(m: map<string, T>, key: T -> Option<int>, target: set<string>, rem: set<string>, r: seq<Doc<T>>) {
    && target == rem + Ids(r) && rem !! Ids(r)
    && (forall id :: id in rem ==> id in m && key(m[id]).Some?)
    && (forall i :: 0 <= i < |r| ==> r[i].id in m && m[r[i].id] == r[i].data && key(r[i].data).Some?)
    && (forall i, j :: 0 <= i < j < |r| ==> r[i].id != r[j].id)
    && (forall i, j :: 0 <= i < j < |r| ==> key(r[i].data).value >= key(r[j].data).value)
    && (forall i, id :: 0 <= i < |r| && id in rem ==> key(r[i].data).value >= key(m[id]).value)
  }

  /** Moving the remaining document with the largest key to the end of the listing keeps it ordered. */
  lemma ListStep<T>(m: map<string, T>, key: T -> Option<int>, target: set<string>, rem: set<string>, r: seq<Doc<T>>, top: string)
    requires ListedSoFar(m, key, target, rem, r)
    requires top in rem && forall id :: id in rem ==> key(m[id]).value <= key(m[top]).value
    ensures ListedSoFar(m, key, target, rem - {top}, r + [Doc(top, m[top])])
  {
    var r' := r + [Doc(top, m[top])];
    IdsAppend(r, Doc(top, m[top]));
    assert forall i :: 0 <= i < |r| ==> r[i].id in Ids(r) && r'[i] == r[i];
  }

  /**
   * A listing ordered by a numeric field, descending: repeatedly takes the
   * remaining document whose field is largest. Documents lacking the field are
   * left out, as the store does for an `orderBy` query.
   */
  method ListOrdered<T>(m: map<string, T>, key: T -> Option<int>) returns (r: seq<Doc<T>>)
    ensures OrderedListing(m, key, r)
  {
    ghost var target := set id | id in m && key(m[id]).Some?;
    var rem := set id | id in m && key(m[id]).Some?;
    r := [];
    while rem != {}
      invariant ListedSoFar(m, key, target, rem, r)
      decreases rem
    {
      LargestKeyExists(m, key, rem);
      var top :| top in rem && forall id :: id in rem ==> key(m[id]).value <= key(m[top]).value;
      ListStep(m, key, target, rem, r, top);
      r := r + [Doc(top, m[top])];
      rem := rem - {top};
    }
  }
}
