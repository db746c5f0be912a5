/**
 * The client's record store: the state held by the confectionary provider and the
 * reducer that applies one action to it.
 */
module Reducer {
  import opened Common
  import opened Seqs

  /** One confectionary as the client sees it. `id` is the server's `_id`; `localId` is the
      `Date.now()` stamp given to a record buffered while offline. */
  datatype Confectionary = Confectionary(
    id: Option<string>,
    localId: Option<int>,
    name: string,
    date: int,
    inCluj: bool,
    rating: int)

  /** An error object carried by a failure action. */
  datatype Failure = Failure(message: string)

  /** The provider state; `items == None` is the list before the first fetch. */
  datatype State = State(
    items: Option<seq<Confectionary>>,
    fetching: bool,
    fetchingError: Option<Failure>,
    saving: bool,
    savingError: Option<Failure>,
    deleting: bool,
    deletingError: Option<Failure>,
    offlineCount: nat)

  const InitialState := State(None, false, None, false, None, false, None, 0)

  /** The twelve action types the reducer knows; `Other` stands for any other type string. */
  datatype Action =
    | FetchStarted
    | FetchSucceeded(fetched: seq<Confectionary>)
    | FetchFailed(error: Failure)
    | SaveStarted
    | SaveSucceeded(saved: Confectionary)
    | SaveFailed(error: Failure)
    | DeleteStarted
    | DeleteSucceeded(deletedId: Option<string>)
    | DeleteFailed(error: Failure)
    | SaveOffline(buffered: Confectionary)
    | UpdateOfflineCount(count: nat)
    | RemoveLocalItem(localId: Option<int>)
    | Other(tag: string)

  /** `state.confectionaries || []`. */
  function List(s: State): seq<Confectionary> {
    OrEmpty(s.items)
  }

  /** `findIndex(c => c._id === id)`: the first position holding `id`, or -1. */
  function FindIndex(items: seq<Confectionary>, id: Option<string>): (k: int)
    ensures -1 <= k < |items|
    ensures k == -1 ==> forall j :: 0 <= j < |items| ==> items[j].id != id
    ensures k != -1 ==> items[k].id == id && forall j :: 0 <= j < k ==> items[j].id != id
  {
    if items == [] then -1
    else if items[0].id == id then 0
    else
      var k := FindIndex(items[1..], id);
      if k == -1 then -1 else k + 1
  }

  /** The list after SAVE_SUCCEEDED: overwrite the first record with the same `_id`, else prepend. */
  function Upsert(items: seq<Confectionary>, c: Confectionary): (r: seq<Confectionary>)
    ensures |r| == |items| || |r| == |items| + 1
  {
    var k := FindIndex(items, c.id);
    if k == -1 then [c] + items else items[k := c]
  }

  /** After an upsert the record is present, every record in the list was there before or is
      the new one, and every record with a different `_id` is still there. */
  lemma UpsertMembers(items: seq<Confectionary>, c: Confectionary, x: Confectionary)
    ensures c in Upsert(items, c)
    ensures x in Upsert(items, c) ==> x == c || x in items
    ensures x in items && x.id != c.id ==> x in Upsert(items, c)
  {
    var k := FindIndex(items, c.id);
    if k != -1 {
      var r := items[k := c];
      assert r[k] == c;
      if x in r {
        var i :| 0 <= i < |r| && r[i] == x;
        if i != k { assert x == items[i]; }
      }
      if x in items && x.id != c.id {
        var i :| 0 <= i < |items| && items[i] == x;
        assert r[i] == x;
      }
    }
  }

  /** The list after DELETE_SUCCEEDED: every record whose `_id` differs from `id`. */
  function WithoutId(items: seq<Confectionary>, id: Option<string>): seq<Confectionary> {
    Filter(items, (c: Confectionary) => c.id != id)
  }

  /** The list after REMOVE_LOCAL_ITEM: every record whose `localId` differs from `localId`. */
  function WithoutLocalId(items: seq<Confectionary>, localId: Option<int>): seq<Confectionary> {
    Filter(items, (c: Confectionary) => c.localId != localId)
  }

  /** The reducer: one action applied to the state. Only the five list actions touch the list,
      only UPDATE_OFFLINE_COUNT touches the count, and an unknown action changes nothing. */
  function Reduce(s: State, a: Action): (r: State)
    ensures !(a.FetchSucceeded? || a.SaveSucceeded? || a.DeleteSucceeded? || a.SaveOffline? || a.RemoveLocalItem?) ==>
      r.items == s.items
    ensures r.offlineCount == if a.UpdateOfflineCount? then a.count else s.offlineCount
    ensures a.Other? ==> r == s
  {
    match a
    case FetchStarted => s.(fetching := true)
    case FetchSucceeded(fetched) => s.(items := Some(fetched), fetching := false)
    case FetchFailed(e) => s.(fetchingError := Some(e), fetching := false)
    case SaveStarted => s.(savingError := None, saving := true)
    case SaveSucceeded(c) => s.(items := Some(Upsert(List(s), c)), saving := false)
    // the source resets `fetching` here, not `saving`
    case SaveFailed(e) => s.(savingError := Some(e), fetching := false)
    case DeleteStarted => s.(deletingError := None, deleting := true)
    case DeleteSucceeded(id) => s.(items := Some(WithoutId(List(s), id)), deleting := false)
    // the source resets `fetching` here, not `deleting`
    case DeleteFailed(e) => s.(deletingError := Some(e), fetching := false)
    case SaveOffline(c) => s.(items := Some(List(s) + [c]))
    case UpdateOfflineCount(n) => s.(offlineCount := n)
    case RemoveLocalItem(l) => s.(items := Some(WithoutLocalId(List(s), l)))
    case Other(_) => s
  }

  /** True when `k` is the first position of `items` whose `_id` equals `id`. */
  predicate FirstMatch(items: seq<Confectionary>, id: Option<string>, k: int) {
    0 <= k < |items| && items[k].id == id && forall j :: 0 <= j < k ==> items[j].id != id
  }

  /** SAVE_SUCCEEDED overwrites the first record with the same `_id` in place, leaving the
      length and every other position as they were; with no such record it prepends. */
  lemma SaveSucceededUpserts(s: State, c: Confectionary)
    ensures var r := Reduce(s, SaveSucceeded(c));
      && r.items.Some? && !r.saving
      && r == s.(items := r.items, saving := false)
      && ((forall x <- List(s) :: x.id != c.id) ==> List(r) == [c] + List(s))
      && forall k :: FirstMatch(List(s), c.id, k) ==>
           |List(r)| == |List(s)| && List(r)[k] == c
           && forall j :: 0 <= j < |List(s)| && j != k ==> List(r)[j] == List(s)[j]
  {
    var xs := List(s);
    forall k | FirstMatch(xs, c.id, k) ensures FindIndex(xs, c.id) == k {
      var f := FindIndex(xs, c.id);
      assert f != -1 by { assert xs[k].id == c.id; }
    }
  }

  /** No action invents a record: everything listed afterwards was listed before or is carried
      by the action itself. */
  lemma ReduceInventsNothing(s: State, a: Action, x: Confectionary)
    requires x in List(Reduce(s, a))
    ensures || x in List(s)
            || (a.FetchSucceeded? && x in a.fetched)
            || (a.SaveSucceeded? && x == a.saved)
            || (a.SaveOffline? && x == a.buffered)
  {
  }

  /** Upserting the same record twice gives the list of upserting it once. */
  lemma {:induction false} UpsertIdempotent(items: seq<Confectionary>, c: Confectionary)
    ensures Upsert(Upsert(items, c), c) == Upsert(items, c)
  {
    var once := Upsert(items, c);
    var k := FindIndex(items, c.id);
    var k' := if k == -1 then 0 else k;
    assert FirstMatch(once, c.id, k') by {
      if k != -1 {
        assert forall j :: 0 <= j < k ==> once[j] == items[j];
      }
    }
    assert FindIndex(once, c.id) == k';
    assert once[k'] == c;
    assert once[k' := c] == once;
  }

  /** A duplicated created/updated event is harmless: the second SAVE_SUCCEEDED changes nothing. */
  lemma SaveSucceededIdempotent(s: State, c: Confectionary)
    ensures Reduce(Reduce(s, SaveSucceeded(c)), SaveSucceeded(c)) == Reduce(s, SaveSucceeded(c))
  {
    UpsertIdempotent(List(s), c);
  }

  /** DELETE_SUCCEEDED keeps exactly the records whose `_id` differs, each as often as before,
      and clears `deleting`; an id absent from the list leaves the list unchanged. */
  lemma DeleteSucceededRemovesExactly(s: State, id: Option<string>)
    ensures var r := Reduce(s, DeleteSucceeded(id));
      && r == s.(items := Some(List(r)), deleting := false)
      && (forall x :: x in List(r) <==> x in List(s) && x.id != id)
      && ((forall x <- List(s) :: x.id != id) ==> List(r) == List(s))
  {
    var keep := (c: Confectionary) => c.id != id;
    assert List(Reduce(s, DeleteSucceeded(id))) == Filter(List(s), keep);
    forall x ensures x in Filter(List(s), keep) <==> x in List(s) && x.id != id {
      FilterMembers(List(s), keep, x);
    }
    if forall x <- List(s) :: x.id != id {
      FilterKeepsAll(List(s), keep);
    }
  }

  /** DELETE_SUCCEEDED leaves every other record exactly as often as it was. */
  lemma DeleteSucceededKeepsCounts(s: State, id: Option<string>, x: Confectionary)
    requires x.id != id
    ensures multiset(List(Reduce(s, DeleteSucceeded(id))))[x] == multiset(List(s))[x]
  {
    var keep := (c: Confectionary) => c.id != id;
    assert List(Reduce(s, DeleteSucceeded(id))) == Filter(List(s), keep);
    FilterMultiset(List(s), keep, x);
    assert keep(x);
  }

  /** Removal by `_id` keeps the relative order of the survivors. */
  lemma WithoutIdKeepsOrder(a: seq<Confectionary>, b: seq<Confectionary>, id: Option<string>)
    ensures WithoutId(a + b, id) == WithoutId(a, id) + WithoutId(b, id)
  {
    FilterAppend(a, b, (c: Confectionary) => c.id != id);
  }

  /** REMOVE_LOCAL_ITEM keeps exactly the records whose `localId` differs; a `localId` absent
      from the list leaves the list unchanged. */
  lemma RemoveLocalItemRemovesExactly(s: State, localId: Option<int>)
    ensures var r := Reduce(s, RemoveLocalItem(localId));
      && r == s.(items := Some(List(r)))
      && (forall x :: x in List(r) <==> x in List(s) && x.localId != localId)
      && ((forall x <- List(s) :: x.localId != localId) ==> List(r) == List(s))
  {
    var keep := (c: Confectionary) => c.localId != localId;
    assert List(Reduce(s, RemoveLocalItem(localId))) == Filter(List(s), keep);
    forall x ensures x in Filter(List(s), keep) <==> x in List(s) && x.localId != localId {
      FilterMembers(List(s), keep, x);
    }
    if forall x <- List(s) :: x.localId != localId {
      FilterKeepsAll(List(s), keep);
    }
  }

  /** REMOVE_LOCAL_ITEM leaves every other record exactly as often as it was. */
  lemma RemoveLocalItemKeepsCounts(s: State, localId: Option<int>, x: Confectionary)
    requires x.localId != localId
    ensures multiset(List(Reduce(s, RemoveLocalItem(localId))))[x] == multiset(List(s))[x]
  {
    var keep := (c: Confectionary) => c.localId != localId;
    assert List(Reduce(s, RemoveLocalItem(localId))) == Filter(List(s), keep);
    FilterMultiset(List(s), keep, x);
    assert keep(x);
  }

  /** Removal by `localId` keeps the relative order of the survivors. */
  lemma WithoutLocalIdKeepsOrder(a: seq<Confectionary>, b: seq<Confectionary>, localId: Option<int>)
    ensures WithoutLocalId(a + b, localId) == WithoutLocalId(a, localId) + WithoutLocalId(b, localId)
  {
    FilterAppend(a, b, (c: Confectionary) => c.localId != localId);
  }

  /** SAVE_CONFECTIONARY_OFFLINE appends at the end; an unknown action changes nothing. */
  lemma SaveOfflineAppends(s: State, c: Confectionary, tag: string)
    ensures var r := Reduce(s, SaveOffline(c));
      List(r) == List(s) + [c] && r == s.(items := Some(List(s) + [c]))
    ensures Reduce(s, Other(tag)) == s
  {
  }

  /** FETCH_SUCCEEDED replaces the list wholesale: local-only records not in the reply are gone. */
  lemma FetchSucceededReplaces(s: State, fetched: seq<Confectionary>)
    ensures var r := Reduce(s, FetchSucceeded(fetched));
      List(r) == fetched && !r.fetching
      && forall x <- List(s) :: x.id.None? && x !in fetched ==> x !in List(r)
  {
  }

  /** SAVE_FAILED and DELETE_FAILED record the error and reset `fetching`, leaving the
      `saving`/`deleting` flags and the list as they were. */
  lemma FailuresResetFetching(s: State, e: Failure)
    ensures var r := Reduce(s, SaveFailed(e));
      r.savingError == Some(e) && !r.fetching && r.saving == s.saving && r.items == s.items
    ensures var r := Reduce(s, DeleteFailed(e));
      r.deletingError == Some(e) && !r.fetching && r.deleting == s.deleting && r.items == s.items
  {
  }
}
