/**
 * The confectionary provider's offline engine: saving online or buffering locally, the two
 * persisted logs (`offlineItems`, pending creates; `offlineDeletes`, pending delete ids), and
 * the replay of both logs when connectivity returns. Network replies, the connectivity status
 * and `Date.now()` are parameters; Preferences is a map from key to stored list.
 */
module OfflineSync {
  import opened Common
  import opened Seqs
  import opened Reducer

  const OfflineItemsKey := "offlineItems"
  const OfflineDeletesKey := "offlineDeletes"

  /** A Preferences value: the list of buffered records or the list of buffered delete ids. */
  datatype Stored = ItemLog(items: seq<Confectionary>) | IdLog(ids: seq<string>)

  /** What the list request answered. */
  datatype FetchReply = Fetched(list: seq<Confectionary>) | FetchError(error: Failure)

  /** The request a save sent to the server. */
  datatype Call = NoCall | CreateCall(payload: Confectionary) | UpdateCall(payload: Confectionary)

  /** The record kept locally when a save is buffered: `{ ...confectionary, localId: Date.now() }`. */
  function Stamped(c: Confectionary, now: int): Confectionary {
    c.(localId := Some(now))
  }

  /** The body sent when a buffered record is replayed: `const { localId, ...payload } = item`. */
  function Payload(item: Confectionary): (p: Confectionary)
    ensures p.localId.None?
    ensures p.(localId := item.localId) == item
  {
    item.(localId := None)
  }

  /** Preferences after the delete log is written back: the key is removed when nothing is left. */
  function WithDeleteLog(p: map<string, Stored>, remaining: seq<string>): map<string, Stored> {
    if remaining == [] then p - {OfflineDeletesKey} else p[OfflineDeletesKey := IdLog(remaining)]
  }

  /** Preferences after the create log is written back: the key is removed when nothing is left. */
  function WithItemLog(p: map<string, Stored>, remaining: seq<Confectionary>): map<string, Stored> {
    if remaining == [] then p - {OfflineItemsKey} else p[OfflineItemsKey := ItemLog(remaining)]
  }

  // ---------------------------------------------------------------------------------------
  // The delete drain, specified

  /** The stored ids whose replayed delete succeeded, in stored order. */
  function Succeeded(ids: seq<string>, ok: seq<bool>): seq<string>
    requires |ids| == |ok|
    decreases |ids|
  {
    if ids == [] then []
    else
      var n := |ids| - 1;
      Succeeded(ids[..n], ok[..n]) + (if ok[n] then [ids[n]] else [])
  }

  /** The stored ids whose replayed delete failed, in stored order. */
  function Failed(ids: seq<string>, ok: seq<bool>): seq<string>
    requires |ids| == |ok|
    decreases |ids|
  {
    if ids == [] then []
    else
      var n := |ids| - 1;
      Failed(ids[..n], ok[..n]) + (if ok[n] then [] else [ids[n]])
  }

  /** The list after DELETE_SUCCEEDED for each id of `ids` in turn. */
  function WithoutIds(items: seq<Confectionary>, ids: seq<string>): seq<Confectionary>
    decreases |ids|
  {
    if ids == [] then items
    else
      var n := |ids| - 1;
      WithoutId(WithoutIds(items, ids[..n]), Some(ids[n]))
  }

  /** The provider state after DELETE_SUCCEEDED was dispatched for each id of `ids`. */
  function AfterDeletes(s: State, ids: seq<string>): State {
    if ids == [] then s else s.(items := Some(WithoutIds(List(s), ids)), deleting := false)
  }

  // ---------------------------------------------------------------------------------------
  // The create drain, specified

  /** True when no replayed create succeeded. */
  predicate NoneCreated(replies: seq<Option<Confectionary>>) {
    forall i :: 0 <= i < |replies| ==> replies[i].None?
  }

  /** The bodies of the create requests, one per buffered record, in log order. */
  function Payloads(items: seq<Confectionary>): (r: seq<Confectionary>)
    ensures |r| == |items|
    ensures forall i :: 0 <= i < |items| ==> r[i] == Payload(items[i])
  {
    seq(|items|, i requires 0 <= i < |items| => Payload(items[i]))
  }

  /** The buffered records whose replayed create failed, in log order. */
  function FailedCreates<T, R>(items: seq<T>, replies: seq<Option<R>>): seq<T>
    requires |items| == |replies|
    decreases |items|
  {
    if items == [] then []
    else
      var n := |items| - 1;
      FailedCreates(items[..n], replies[..n]) + (if replies[n].None? then [items[n]] else [])
  }

  /** The list after replay: for each success, REMOVE_LOCAL_ITEM of the buffered record and
      then SAVE_SUCCEEDED of the server's record. */
  function Replayed(list: seq<Confectionary>, items: seq<Confectionary>, replies: seq<Option<Confectionary>>)
    : seq<Confectionary>
    requires |items| == |replies|
    decreases |items|
  {
    if items == [] then list
    else
      var n := |items| - 1;
      var before := Replayed(list, items[..n], replies[..n]);
      match replies[n]
      case None => before
      case Some(saved) => Upsert(WithoutLocalId(before, items[n].localId), saved)
  }

  /** The provider state after the create replay loop: each success dispatches REMOVE_LOCAL_ITEM
      for the buffered record and then SAVE_SUCCEEDED for the server's record. */
  function AfterCreates(s: State, items: seq<Confectionary>, replies: seq<Option<Confectionary>>): State
    requires |items| == |replies|
    decreases |items|
  {
    if items == [] then s
    else
      var n := |items| - 1;
      var before := AfterCreates(s, items[..n], replies[..n]);
      match replies[n]
      case None => before
      case Some(saved) => Reduce(Reduce(before, RemoveLocalItem(items[n].localId)), SaveSucceeded(saved))
  }

  /** The provider state after a list request; a cancelled request only marks `fetching`. */
  function AfterFetch(s: State, reply: FetchReply, canceled: bool): State {
    if canceled then s.(fetching := true)
    else match reply
      case Fetched(list) => s.(items := Some(list), fetching := false)
      case FetchError(e) => s.(fetchingError := Some(e), fetching := false)
  }

  // ---------------------------------------------------------------------------------------
  // Step lemmas used by the loops

  /** Replaying one more id extends exactly one of the two lists. */
  lemma DrainStep(ids: seq<string>, ok: seq<bool>, id: string, success: bool)
    requires |ids| == |ok|
    ensures Succeeded(ids + [id], ok + [success]) == Succeeded(ids, ok) + (if success then [id] else [])
    ensures Failed(ids + [id], ok + [success]) == Failed(ids, ok) + (if success then [] else [id])
  {
    assert (ids + [id])[..|ids|] == ids;
    assert (ok + [success])[..|ok|] == ok;
  }

  /** One more successful delete is one more DELETE_SUCCEEDED. */
  lemma AfterDeletesStep(s: State, done: seq<string>, id: string)
    ensures AfterDeletes(s, done + [id]) == Reduce(AfterDeletes(s, done), DeleteSucceeded(Some(id)))
  {
    assert (done + [id])[..|done|] == done;
  }

  /** Replaying one more record extends the failures exactly when its create failed. */
  lemma FailedCreatesStep(items: seq<Confectionary>, replies: seq<Option<Confectionary>>,
                          item: Confectionary, reply: Option<Confectionary>)
    requires |items| == |replies|
    ensures FailedCreates(items + [item], replies + [reply])
      == FailedCreates(items, replies) + (if reply.None? then [item] else [])
  {
    assert (items + [item])[..|items|] == items;
    assert (replies + [reply])[..|replies|] == replies;
  }

  /** With no successful create the replay leaves the list as it was. */
  lemma {:induction false} ReplayedNothing(list: seq<Confectionary>, items: seq<Confectionary>,
                                           replies: seq<Option<Confectionary>>)
    requires |items| == |replies| && NoneCreated(replies)
    ensures Replayed(list, items, replies) == list
    decreases |items|
  {
    if items != [] {
      var n := |items| - 1;
      assert NoneCreated(replies[..n]) by {
        forall i | 0 <= i < n ensures replies[..n][i].None? { assert replies[..n][i] == replies[i]; }
      }
      ReplayedNothing(list, items[..n], replies[..n]);
      assert replies[n].None?;
    }
  }

  /** Replaying the i-th buffered record: its failure extends the failures, its success is
      REMOVE_LOCAL_ITEM followed by SAVE_SUCCEEDED, and its request body joins the sent ones. */
  lemma CreatePrefixStep(s: State, items: seq<Confectionary>, replies: seq<Option<Confectionary>>, i: nat)
    requires |items| == |replies| && i < |items|
    ensures FailedCreates(items[..i + 1], replies[..i + 1])
      == FailedCreates(items[..i], replies[..i]) + (if replies[i].None? then [items[i]] else [])
    ensures AfterCreates(s, items[..i + 1], replies[..i + 1])
      == if replies[i].None? then AfterCreates(s, items[..i], replies[..i])
         else Reduce(Reduce(AfterCreates(s, items[..i], replies[..i]), RemoveLocalItem(items[i].localId)),
                     SaveSucceeded(replies[i].value))
    ensures Payloads(items[..i + 1]) == Payloads(items[..i]) + [Payload(items[i])]
  {
    assert items[..i + 1][..i] == items[..i];
    assert replies[..i + 1][..i] == replies[..i];
  }

  /** Replaying the i-th stored id extends exactly one of the two lists. */
  lemma DeletePrefixStep(ids: seq<string>, ok: seq<bool>, i: nat)
    requires |ids| == |ok| && i < |ids|
    ensures Succeeded(ids[..i + 1], ok[..i + 1]) == Succeeded(ids[..i], ok[..i]) + (if ok[i] then [ids[i]] else [])
    ensures Failed(ids[..i + 1], ok[..i + 1]) == Failed(ids[..i], ok[..i]) + (if ok[i] then [] else [ids[i]])
  {
    assert ids[..i + 1][..i] == ids[..i];
    assert ok[..i + 1][..i] == ok[..i];
  }

  /** One replayed success: REMOVE_LOCAL_ITEM then SAVE_SUCCEEDED replace the list by the
      upsert of the server's record into the list without the buffered one. */
  lemma RemoveThenSave(s: State, l: Option<int>, saved: Confectionary)
    ensures Reduce(Reduce(s, RemoveLocalItem(l)), SaveSucceeded(saved))
         == s.(items := Some(Upsert(WithoutLocalId(List(s), l), saved)), saving := false)
  {
  }

  /** The create replay changes only the list and `saving`: the list becomes the replayed list,
      and with no success the state is untouched. */
  lemma {:induction false} AfterCreatesIsReplay(s: State, items: seq<Confectionary>, replies: seq<Option<Confectionary>>)
    requires |items| == |replies|
    ensures NoneCreated(replies) ==> AfterCreates(s, items, replies) == s
    ensures !NoneCreated(replies) ==>
      AfterCreates(s, items, replies) == s.(items := Some(Replayed(List(s), items, replies)), saving := false)
    decreases |items|
  {
    if items != [] {
      var n := |items| - 1;
      AfterCreatesIsReplay(s, items[..n], replies[..n]);
      assert NoneCreated(replies) <==> NoneCreated(replies[..n]) && replies[n].None? by {
        assert forall i :: 0 <= i < n ==> replies[..n][i] == replies[i];
      }
      var before := AfterCreates(s, items[..n], replies[..n]);
      var list := Replayed(List(s), items[..n], replies[..n]);
      if replies[n].Some? {
        var saved := replies[n].value;
        var l := items[n].localId;
        var result := s.(items := Some(Upsert(WithoutLocalId(list, l), saved)), saving := false);
        assert Replayed(List(s), items, replies) == Upsert(WithoutLocalId(list, l), saved);
        if NoneCreated(replies[..n]) {
          ReplayedNothing(List(s), items[..n], replies[..n]);
          RemoveThenSave(s, l, saved);
        } else {
          RemoveThenSave(before, l, saved);
        }
      }
    }
  }

  // ---------------------------------------------------------------------------------------
  // Properties of the drains

  /** Every stored id is either a success or a failure, none lost and none invented. */
  lemma {:induction false} DrainPartitionsIds(ids: seq<string>, ok: seq<bool>)
    requires |ids| == |ok|
    ensures multiset(Succeeded(ids, ok)) + multiset(Failed(ids, ok)) == multiset(ids)
    ensures |Succeeded(ids, ok)| + |Failed(ids, ok)| == |ids|
    decreases |ids|
  {
    if ids != [] {
      var n := |ids| - 1;
      var ids', ok' := ids[..n], ok[..n];
      assert ids == ids' + [ids[n]] && ok == ok' + [ok[n]];
      DrainPartitionsIds(ids', ok');
      DrainStep(ids', ok', ids[n], ok[n]);
    }
  }

  /** The delete log is emptied (its key removed) exactly when every replayed delete succeeded. */
  lemma {:induction false} FailedEmptyIffAllSucceeded(ids: seq<string>, ok: seq<bool>)
    requires |ids| == |ok|
    ensures Failed(ids, ok) == [] <==> forall i :: 0 <= i < |ok| ==> ok[i]
    decreases |ids|
  {
    if ids != [] {
      var n := |ids| - 1;
      FailedEmptyIffAllSucceeded(ids[..n], ok[..n]);
      assert forall i :: 0 <= i < n ==> ok[..n][i] == ok[i];
    }
  }

  /** True when `c` carries a server id that appears among `ids`. */
  predicate IdAmong(c: Confectionary, ids: seq<string>) {
    c.id.Some? && c.id.value in ids
  }

  /** Removing the ids one after the other is one order-preserving filter: the survivors are
      exactly the records whose `_id` is not one of the removed ids. */
  lemma {:induction false} WithoutIdsIsFilter(items: seq<Confectionary>, ids: seq<string>)
    ensures WithoutIds(items, ids) == Filter(items, (c: Confectionary) => !IdAmong(c, ids))
    decreases |ids|
  {
    if ids == [] {
      FilterKeepsAll(items, (c: Confectionary) => !IdAmong(c, ids));
    } else {
      var n := |ids| - 1;
      var p := (c: Confectionary) => !IdAmong(c, ids[..n]);
      var q := (c: Confectionary) => c.id != Some(ids[n]);
      var both := (c: Confectionary) => !IdAmong(c, ids);
      WithoutIdsIsFilter(items, ids[..n]);
      assert ids == ids[..n] + [ids[n]];
      forall x: Confectionary | x in items ensures both(x) == (p(x) && q(x)) {
        if x.id.Some? {
          assert x.id.value in ids <==> x.id.value in ids[..n] || x.id.value == ids[n];
        }
      }
      FilterTwice(items, p, q, both);
    }
  }

  /** After the delete drain no record whose `_id` was successfully deleted remains, and every
      other record is still there. */
  lemma DeleteDrainRemovesSucceeded(s: State, ids: seq<string>, ok: seq<bool>, x: Confectionary)
    requires |ids| == |ok|
    ensures x in List(AfterDeletes(s, Succeeded(ids, ok))) <==> x in List(s) && !IdAmong(x, Succeeded(ids, ok))
  {
    var done := Succeeded(ids, ok);
    var keep := (c: Confectionary) => !IdAmong(c, done);
    WithoutIdsIsFilter(List(s), done);
    FilterMembers(List(s), keep, x);
    if done == [] {
      assert List(AfterDeletes(s, done)) == List(s);
    } else {
      assert List(AfterDeletes(s, done)) == WithoutIds(List(s), done);
    }
  }

  /** The create log is emptied (its key removed) exactly when every replayed create succeeded. */
  lemma {:induction false} FailedCreatesEmptyIffAllCreated(items: seq<Confectionary>, replies: seq<Option<Confectionary>>)
    requires |items| == |replies|
    ensures FailedCreates(items, replies) == [] <==> forall i :: 0 <= i < |replies| ==> replies[i].Some?
    decreases |items|
  {
    if items != [] {
      var n := |items| - 1;
      FailedCreatesEmptyIffAllCreated(items[..n], replies[..n]);
      assert forall i :: 0 <= i < n ==> replies[..n][i] == replies[i];
    }
  }

  /** The failed records stay in the log in their original relative order: the failures of two
      consecutive stretches of the log are the failures of the first followed by those of the
      second. */
  lemma {:induction false} FailedCreatesAppend(a: seq<Confectionary>, ra: seq<Option<Confectionary>>,
                                               b: seq<Confectionary>, rb: seq<Option<Confectionary>>)
    requires |a| == |ra| && |b| == |rb|
    ensures FailedCreates(a + b, ra + rb) == FailedCreates(a, ra) + FailedCreates(b, rb)
    decreases |b|
  {
    if b == [] {
      assert a + b == a && ra + rb == ra;
    } else {
      var n := |b| - 1;
      FailedCreatesAppend(a, ra, b[..n], rb[..n]);
      assert a + b == (a + b[..n]) + [b[n]];
      assert ra + rb == (ra + rb[..n]) + [rb[n]];
      FailedCreatesStep(a + b[..n], ra + rb[..n], b[n], rb[n]);
    }
  }

  /** The create log written back holds only records that were in it, never more often. */
  lemma {:induction false} FailedCreatesFromLog<T, R>(items: seq<T>, replies: seq<Option<R>>)
    requires |items| == |replies|
    ensures multiset(FailedCreates(items, replies)) <= multiset(items)
    decreases |items|
  {
    if items != [] {
      var n := |items| - 1;
      FailedCreatesFromLog(items[..n], replies[..n]);
      assert items == items[..n] + [items[n]];
    }
  }

  /** Server replies carry an `_id` and no `localId`, and buffered records carry a `localId`. */
  predicate WellFormedReplay(items: seq<Confectionary>, replies: seq<Option<Confectionary>>) {
    && |items| == |replies|
    && (forall i :: 0 <= i < |items| ==> items[i].localId.Some?)
    && (forall i :: 0 <= i < |replies| && replies[i].Some? ==>
          replies[i].value.id.Some? && replies[i].value.localId.None?)
  }

  /** Some record of `list` carries the server id `id` and no `localId`. */
  predicate HasServerRecord(list: seq<Confectionary>, id: Option<string>) {
    exists c :: c in list && c.id == id && c.localId.None?
  }

  /** After replay, the server record returned by each successful create has its `_id` in the
      list, held by a record without a `localId`. */
  lemma {:induction false} ReplayKeepsServerRecords(list: seq<Confectionary>, items: seq<Confectionary>,
                                                    replies: seq<Option<Confectionary>>, i: nat)
    requires WellFormedReplay(items, replies)
    requires i < |replies| && replies[i].Some?
    ensures HasServerRecord(Replayed(list, items, replies), replies[i].value.id)
    decreases |items|
  {
    var n := |items| - 1;
    var before := Replayed(list, items[..n], replies[..n]);
    var after := Replayed(list, items, replies);
    if i < n {
      assert WellFormedReplay(items[..n], replies[..n]);
      assert replies[..n][i] == replies[i];
      ReplayKeepsServerRecords(list, items[..n], replies[..n], i);
    }
    if replies[n].Some? {
      var saved := replies[n].value;
      var removed := WithoutLocalId(before, items[n].localId);
      assert after == Upsert(removed, saved);
      if i < n && replies[i].value.id != saved.id {
        var c :| c in before && c.id == replies[i].value.id && c.localId.None?;
        FilterMembers(before, (x: Confectionary) => x.localId != items[n].localId, c);
        UpsertMembers(removed, saved, c);
      } else {
        UpsertMembers(removed, saved, saved);
      }
    } else {
      assert after == before;
    }
  }

  /** After replay, no record carries the `localId` of a buffered record whose create
      succeeded: the local copy is replaced by the server's. */
  lemma {:induction false} ReplayDropsLocalCopies(list: seq<Confectionary>, items: seq<Confectionary>,
                                                  replies: seq<Option<Confectionary>>)
    requires WellFormedReplay(items, replies)
    ensures forall i, c :: 0 <= i < |replies| && replies[i].Some? && c in Replayed(list, items, replies) ==>
      c.localId != items[i].localId
    decreases |items|
  {
    if items != [] {
      var n := |items| - 1;
      var before := Replayed(list, items[..n], replies[..n]);
      assert WellFormedReplay(items[..n], replies[..n]);
      ReplayDropsLocalCopies(list, items[..n], replies[..n]);
      var after := Replayed(list, items, replies);
      forall i, c | 0 <= i < |replies| && replies[i].Some? && c in after
        ensures c.localId != items[i].localId
      {
        if replies[n].Some? {
          var removed := WithoutLocalId(before, items[n].localId);
          UpsertMembers(removed, replies[n].value, c);
          if c != replies[n].value {
            FilterMembers(before, (x: Confectionary) => x.localId != items[n].localId, c);
            if i < n {
              assert replies[..n][i] == replies[i] && items[..n][i] == items[i];
            }
          }
        } else {
          assert i < n;
          assert replies[..n][i] == replies[i] && items[..n][i] == items[i];
        }
      }
    }
  }

  // ---------------------------------------------------------------------------------------
  // The provider

  class ConfectionaryProvider {
    /** The reducer's state. */
    var state: State
    /** Capacitor Preferences, without the JSON encoding. */
    var prefs: map<string, Stored>
    /** The session token from the auth context. */
    var token: string

    /** Each log key holds a list of its own kind. */
    ghost predicate Valid()
      reads this
    {
      && (OfflineItemsKey in prefs ==> prefs[OfflineItemsKey].ItemLog?)
      && (OfflineDeletesKey in prefs ==> prefs[OfflineDeletesKey].IdLog?)
    }

    constructor (token: string, prefs: map<string, Stored>)
      requires OfflineItemsKey in prefs ==> prefs[OfflineItemsKey].ItemLog?
      requires OfflineDeletesKey in prefs ==> prefs[OfflineDeletesKey].IdLog?
      ensures Valid()
      ensures this.state == InitialState && this.prefs == prefs && this.token == token
    {
      this.state := InitialState;
      this.prefs := prefs;
      this.token := token;
    }

    /** The `offlineItems` log, `[]` when the key is absent. */
    function OfflineItems(): seq<Confectionary>
      reads this
    {
      if OfflineItemsKey in prefs && prefs[OfflineItemsKey].ItemLog? then prefs[OfflineItemsKey].items else []
    }

    /** The `offlineDeletes` log, `[]` when the key is absent. */
    function OfflineDeletes(): seq<string>
      reads this
    {
      if OfflineDeletesKey in prefs && prefs[OfflineDeletesKey].IdLog? then prefs[OfflineDeletesKey].ids else []
    }

    /** `dispatch`: the reducer applied to the current state. */
    method Dispatch(a: Action)
      modifies this`state
      ensures state == Reduce(old(state), a)
    {
      state := Reduce(state, a);
    }

    /** `checkOfflineCount`: publish the length of the create log. */
    method CheckOfflineCount()
      modifies this`state
      ensures state == old(state).(offlineCount := |OfflineItems()|)
    {
      var items := OfflineItems();
      Dispatch(UpdateOfflineCount(|items|));
    }

    /** `storeOfflineItem`: append to the create log and publish its new length. */
    method StoreOfflineItem(item: Confectionary)
      requires Valid()
      modifies this`state, this`prefs
      ensures Valid()
      ensures OfflineItems() == old(OfflineItems()) + [item]
      ensures prefs == old(prefs)[OfflineItemsKey := ItemLog(old(OfflineItems()) + [item])]
      ensures state == old(state).(offlineCount := |OfflineItems()|)
    {
      var items := OfflineItems();
      items := items + [item];
      prefs := prefs[OfflineItemsKey := ItemLog(items)];
      Dispatch(UpdateOfflineCount(|items|));
    }

    /** The buffering branch of a save: stamp, log, and show the record at the end of the list. */
    method SaveLocally(c: Confectionary, now: int)
      requires Valid()
      modifies this`state, this`prefs
      ensures Valid()
      ensures OfflineItems() == old(OfflineItems()) + [Stamped(c, now)]
      ensures prefs == old(prefs)[OfflineItemsKey := ItemLog(old(OfflineItems()) + [Stamped(c, now)])]
      ensures state == old(state).(offlineCount := |OfflineItems()|,
                                   items := Some(List(old(state)) + [Stamped(c, now)]))
    {
      var localItem := Stamped(c, now);
      StoreOfflineItem(localItem);
      Dispatch(SaveOffline(localItem));
    }

    /** `saveConfectionariesCallback`. `connected` and `connectedAfter` are the two
        `Network.getStatus()` answers, `reply` the server's answer (`None`: the call threw with
        `error`), `now` the value of `Date.now()`. Returns the request that was sent. */
    method Save(c: Confectionary, connected: bool, reply: Option<Confectionary>, error: Failure,
                connectedAfter: bool, now: int) returns (call: Call)
      requires Valid()
      modifies this`state, this`prefs
      ensures Valid()
      ensures call == if !connected then NoCall else if Truthy(c.id) then UpdateCall(c) else CreateCall(c)
      ensures !connected || (reply.None? && !connectedAfter) ==>
        && OfflineItems() == old(OfflineItems()) + [Stamped(c, now)]
        && prefs == old(prefs)[OfflineItemsKey := ItemLog(OfflineItems())]
        && state == old(state).(savingError := None, saving := true, offlineCount := |OfflineItems()|,
                                items := Some(List(old(state)) + [Stamped(c, now)]))
      ensures connected && reply.Some? ==>
        && prefs == old(prefs)
        && state == old(state).(savingError := None, saving := false,
                                items := Some(Upsert(List(old(state)), reply.value)))
      ensures connected && reply.None? && connectedAfter ==>
        && prefs == old(prefs)
        && state == old(state).(savingError := Some(error), saving := true, fetching := false)
    {
      Dispatch(SaveStarted);
      if !connected {
        SaveLocally(c, now);
        return NoCall;
      }
      call := if Truthy(c.id) then UpdateCall(c) else CreateCall(c);
      if reply.Some? {
        Dispatch(SaveSucceeded(reply.value));
      } else if !connectedAfter {
        SaveLocally(c, now);
      } else {
        Dispatch(SaveFailed(error));
      }
    }

    /** `deleteLocalOffline`: drop a local-only record from the list and from the create log
        (the key is written even when the log becomes empty). */
    method DeleteLocalOffline(localId: int)
      requires Valid()
      modifies this`state, this`prefs
      ensures Valid()
      ensures OfflineItems() == WithoutLocalId(old(OfflineItems()), Some(localId))
      ensures prefs == old(prefs)[OfflineItemsKey := ItemLog(OfflineItems())]
      ensures state == old(state).(items := Some(WithoutLocalId(List(old(state)), Some(localId))),
                                   offlineCount := |OfflineItems()|)
    {
      Dispatch(RemoveLocalItem(Some(localId)));
      var items := OfflineItems();
      var filtered := WithoutLocalId(items, Some(localId));
      prefs := prefs[OfflineItemsKey := ItemLog(filtered)];
      Dispatch(UpdateOfflineCount(|filtered|));
    }

    /** `storeOfflineDelete`: append to the delete log and drop the record from the list. */
    method StoreOfflineDelete(id: string)
      requires Valid()
      modifies this`state, this`prefs
      ensures Valid()
      ensures OfflineDeletes() == old(OfflineDeletes()) + [id]
      ensures prefs == old(prefs)[OfflineDeletesKey := IdLog(OfflineDeletes())]
      ensures state == old(state).(items := Some(WithoutId(List(old(state)), Some(id))), deleting := false)
    {
      var deletes := OfflineDeletes();
      deletes := deletes + [id];
      prefs := prefs[OfflineDeletesKey := IdLog(deletes)];
      Dispatch(DeleteSucceeded(Some(id)));
    }

    /** The live `deleteConfectionaryCallback`: one server call, no offline path. */
    method DeleteConfectionary(id: string, ok: bool, error: Failure)
      modifies this`state
      ensures ok ==> state == old(state).(items := Some(WithoutId(List(old(state)), Some(id))), deleting := false)
      ensures !ok ==> state == old(state).(deletingError := Some(error), fetching := false)
    {
      if ok {
        Dispatch(DeleteSucceeded(Some(id)));
      } else {
        Dispatch(DeleteFailed(error));
      }
    }

    /** `fetchConfectionaries`: a reply that arrives after cancellation is discarded. */
    method FetchConfectionaries(reply: FetchReply, canceled: bool)
      modifies this`state
      ensures state == AfterFetch(old(state), reply, canceled)
    {
      Dispatch(FetchStarted);
      if !canceled {
        match reply
        case Fetched(list) => Dispatch(FetchSucceeded(list));
        case FetchError(e) => Dispatch(FetchFailed(e));
      }
    }

    /** The `wsEffect` message handler: created/updated upsert, deleted removes by `_id`. */
    method OnSocketMessage(event: string, c: Confectionary, canceled: bool)
      modifies this`state
      ensures canceled ==> state == old(state)
      ensures !canceled && (event == "created" || event == "updated") ==>
        state == old(state).(items := Some(Upsert(List(old(state)), c)), saving := false)
      ensures !canceled && event == "deleted" ==>
        state == old(state).(items := Some(WithoutId(List(old(state)), c.id)), deleting := false)
      ensures event !in {"created", "updated", "deleted"} ==> state == old(state)
    {
      if canceled {
        return;
      }
      if event == "created" || event == "updated" {
        Dispatch(SaveSucceeded(c));
      }
      if event == "deleted" {
        Dispatch(DeleteSucceeded(c.id));
      }
    }

    /** The delete loop of `syncOfflineItems`: replay every stored id in order; `deleteOk[i]`
        is whether the i-th server call succeeded. Returns the ids whose call failed. */
    method ReplayDeletes(ids: seq<string>, deleteOk: seq<bool>) returns (remaining: seq<string>)
      requires |deleteOk| == |ids|
      modifies this`state
      ensures remaining == Failed(ids, deleteOk)
      ensures state == AfterDeletes(old(state), Succeeded(ids, deleteOk))
    {
      remaining := [];
      var i := 0;
      while i < |ids|
        invariant 0 <= i <= |ids|
        invariant remaining == Failed(ids[..i], deleteOk[..i])
        invariant state == AfterDeletes(old(state), Succeeded(ids[..i], deleteOk[..i]))
      {
        ghost var done := Succeeded(ids[..i], deleteOk[..i]);
        DeletePrefixStep(ids, deleteOk, i);
        if deleteOk[i] {
          AfterDeletesStep(old(state), done, ids[i]);
          Dispatch(DeleteSucceeded(Some(ids[i])));
        } else {
          assert done + [] == done;
          remaining := remaining + [ids[i]];
        }
        i := i + 1;
      }
      assert ids[..i] == ids && deleteOk[..i] == deleteOk;
    }

    /** The delete half of `syncOfflineItems`: replay the delete log and write back the ids
        whose call failed, removing the key when there are none. */
    method DrainDeleteLog(deleteOk: seq<bool>) returns (remaining: seq<string>)
      requires Valid()
      requires |deleteOk| == |OfflineDeletes()|
      modifies this`state, this`prefs
      ensures Valid()
      ensures remaining == Failed(old(OfflineDeletes()), deleteOk)
      ensures prefs == WithDeleteLog(old(prefs), remaining)
      ensures state == AfterDeletes(old(state), Succeeded(old(OfflineDeletes()), deleteOk))
    {
      var ids := OfflineDeletes();
      remaining := ReplayDeletes(ids, deleteOk);
      if |remaining| == 0 {
        prefs := prefs - {OfflineDeletesKey};
      } else {
        prefs := prefs[OfflineDeletesKey := IdLog(remaining)];
      }
    }

    /** The create loop of `syncOfflineItems`: replay every buffered record in order without
        its `localId`; `replies[i]` is the server's answer to the i-th request. */
    method ReplayCreates(items: seq<Confectionary>, replies: seq<Option<Confectionary>>)
      returns (remaining: seq<Confectionary>, sent: seq<Confectionary>)
      requires |replies| == |items|
      modifies this`state
      ensures sent == Payloads(items)
      ensures remaining == FailedCreates(items, replies)
      ensures state == AfterCreates(old(state), items, replies)
    {
      remaining, sent := [], [];
      var i := 0;
      while i < |items|
        invariant 0 <= i <= |items|
        invariant sent == Payloads(items[..i])
        invariant remaining == FailedCreates(items[..i], replies[..i])
        invariant state == AfterCreates(old(state), items[..i], replies[..i])
      {
        var item := items[i];
        CreatePrefixStep(old(state), items, replies, i);
        sent := sent + [Payload(item)];
        if replies[i].Some? {
          Dispatch(RemoveLocalItem(item.localId));
          Dispatch(SaveSucceeded(replies[i].value));
        } else {
          remaining := remaining + [item];
        }
        i := i + 1;
      }
      assert items[..i] == items && replies[..i] == replies;
    }

    /** The create half of `syncOfflineItems`: replay the create log, write back the failures
        (removing the key when there are none) and publish their number. */
    method DrainCreateLog(replies: seq<Option<Confectionary>>) returns (sent: seq<Confectionary>)
      requires Valid()
      requires |replies| == |OfflineItems()|
      modifies this`state, this`prefs
      ensures Valid()
      ensures var items := old(OfflineItems());
        var rest := FailedCreates(items, replies);
        && sent == Payloads(items)
        && prefs == WithItemLog(old(prefs), rest)
        && state == AfterCreates(old(state), items, replies).(offlineCount := |rest|)
    {
      var items := OfflineItems();
      var remaining;
      remaining, sent := ReplayCreates(items, replies);
      if |remaining| == 0 {
        prefs := prefs - {OfflineItemsKey};
        Dispatch(UpdateOfflineCount(0));
      } else {
        prefs := prefs[OfflineItemsKey := ItemLog(remaining)];
        Dispatch(UpdateOfflineCount(|remaining|));
      }
    }

    /** `syncOfflineItems`, run when connectivity returns: drain the delete log, then (with a
        token and a non-empty create log) the create log, then refetch the list in every case.
        Returns the create requests that were sent. */
    method SyncOfflineItems(deleteOk: seq<bool>, replies: seq<Option<Confectionary>>, fetchReply: FetchReply)
      returns (sent: seq<Confectionary>)
      requires Valid()
      requires |deleteOk| == |OfflineDeletes()| && |replies| == |OfflineItems()|
      modifies this`state, this`prefs
      ensures Valid()
      ensures var ids, items := old(OfflineDeletes()), old(OfflineItems());
        var afterDeletes := AfterDeletes(old(state), Succeeded(ids, deleteOk));
        var cleaned := WithDeleteLog(old(prefs), Failed(ids, deleteOk));
        if token == "" || items == [] then
          && sent == []
          && prefs == cleaned
          && state == AfterFetch(afterDeletes, fetchReply, false)
        else
          var rest := FailedCreates(items, replies);
          && sent == Payloads(items)
          && prefs == WithItemLog(cleaned, rest)
          && state == AfterFetch(AfterCreates(afterDeletes, items, replies).(offlineCount := |rest|), fetchReply, false)
    {
      ghost var items0 := OfflineItems();
      var failedDeletes := DrainDeleteLog(deleteOk);
      assert OfflineItemsKey in prefs <==> OfflineItemsKey in old(prefs) by {
        assert OfflineItemsKey != OfflineDeletesKey;
      }
      assert OfflineItemsKey in prefs ==> prefs[OfflineItemsKey] == old(prefs)[OfflineItemsKey];
      var items := OfflineItems();
      assert items == items0;
      if token == "" || |items| == 0 {
        FetchConfectionaries(fetchReply, false);
        return [];
      }
      sent := DrainCreateLog(replies);
      FetchConfectionaries(fetchReply, false);
    }
  }
}
