/**
 * The authenticated REST server's confectionary routes: a document store keyed by `_id`
 * (the nedb datastore, without its file) and the route handlers, each of which acts for the
 * authenticated caller `userId`. `new Date()` is the `now` parameter and the id nedb would
 * generate for a document without `_id` is the `freshId` parameter.
 */
module OwnerRoutes {
  import opened Common

  /** A stored document. Fields the request body lacked stay absent. */
  datatype Doc = Doc(id: string, userId: Option<string>, name: Option<string>, inCluj: Option<bool>,
                     rating: Option<int>, date: int)

  /** A request body, as far as the handlers and the store look at it. */
  datatype ItemBody = ItemBody(id: Option<string>, name: Option<string>, inCluj: Option<bool>, rating: Option<int>)

  /** What a store operation threw. */
  datatype StoreError = Invalid | Duplicate(key: string)

  datatype Result<T> = Ok(value: T) | Err(error: StoreError)

  datatype Payload = One(doc: Doc) | Many(docs: set<Doc>) | Message(text: string) | NoBody

  /** A handler's outcome: an answer, or an exception that escaped the handler. */
  datatype Reply = Reply(status: int, payload: Payload) | Threw(message: string)

  const MissingFields := "Missing name or inCluj flag"

  /** The message carried by a store error. */
  function ErrorMessage(e: StoreError): string {
    match e
    case Invalid => MissingFields
    case Duplicate(key) => "Can't insert key " + key + ", it violates the unique constraint"
  }

  /** `!item.name || typeof item.inCluj !== "boolean"`. */
  function Rejected(item: ItemBody): (b: bool)
    ensures !b <==> Truthy(item.name) && item.inCluj.Some?
  {
    item.name.None? || item.name.value == "" || item.inCluj.None?
  }

  /** The document `insert` stores for a body: the body's fields, the owner, the insertion
      time, and the body's `_id` or else a generated one. */
  function NewDoc(item: ItemBody, userId: Option<string>, now: int, freshId: string): (d: Doc)
    ensures d.id == (if item.id.Some? then item.id.value else freshId)
    ensures d.userId == userId && d.date == now
    ensures d.name == item.name && d.inCluj == item.inCluj && d.rating == item.rating
  {
    Doc(if item.id.Some? then item.id.value else freshId, userId, item.name, item.inCluj, item.rating, now)
  }

  /** `update(props, { $set: item })`: the body's present fields, the owner and the time
      overwrite the stored ones; an absent rating keeps the stored one. */
  function Merged(d: Doc, item: ItemBody, userId: string, now: int): (r: Doc)
    ensures r.id == d.id && r.userId == Some(userId) && r.date == now
    ensures r.name == item.name && r.inCluj == item.inCluj
    ensures r.rating == if item.rating.Some? then item.rating else d.rating
  {
    d.(userId := Some(userId), name := item.name, inCluj := item.inCluj,
       rating := if item.rating.Some? then item.rating else d.rating, date := now)
  }

  /** No document another user owned was changed or removed between `before` and `after`. */
  ghost predicate OthersUntouched(before: map<string, Doc>, after: map<string, Doc>, userId: string) {
    forall k :: k in before && before[k].userId != Some(userId) ==> k in after && after[k] == before[k]
  }

  /** The nedb-backed `ConfectionaryStore`. */
  class ConfectionaryStore {
    /** The datastore's documents, keyed by `_id`. */
    var docs: map<string, Doc>

    /** Every document is stored under its own `_id`. */
    ghost predicate Valid()
      reads this
    {
      forall k :: k in docs ==> docs[k].id == k
    }

    constructor (docs: map<string, Doc>)
      requires forall k :: k in docs ==> docs[k].id == k
      ensures Valid() && this.docs == docs
    {
      this.docs := docs;
    }

    /** `find({ userId })`: every document the user owns. */
    function Find(userId: string): (r: set<Doc>)
      reads this
      ensures forall d :: d in r <==> d in docs.Values && d.userId == Some(userId)
    {
      set d | d in docs.Values && d.userId == Some(userId)
    }

    /** `findOne({ _id: id })`. */
    function FindOne(id: string): (r: Option<Doc>)
      reads this
      ensures r.Some? <==> id in docs
      ensures r.Some? ==> r.value == docs[id]
    {
      if id in docs then Some(docs[id]) else None
    }

    /** `insert`: reject a body without a name or a boolean `inCluj`, then store it stamped
        with the time; a taken `_id` is refused. */
    method Insert(item: ItemBody, userId: Option<string>, now: int, freshId: string) returns (r: Result<Doc>)
      requires Valid()
      modifies this
      ensures Valid()
      ensures Rejected(item) ==> r == Err(Invalid) && docs == old(docs)
      ensures !Rejected(item) ==>
        var d := NewDoc(item, userId, now, freshId);
        if d.id in old(docs) then r == Err(Duplicate(d.id)) && docs == old(docs)
        else r == Ok(d) && docs == old(docs)[d.id := d]
    {
      if Rejected(item) {
        return Err(Invalid);
      }
      var d := NewDoc(item, userId, now, freshId);
      if d.id in docs {
        return Err(Duplicate(d.id));
      }
      docs := docs[d.id := d];
      r := Ok(d);
    }

    /** `update({ _id: id }, item)`: reject an invalid body, else merge it into the document
        with that `_id`; the result is the number of documents changed. */
    method Update(id: string, item: ItemBody, userId: string, now: int) returns (r: Result<nat>)
      requires Valid()
      modifies this
      ensures Valid()
      ensures Rejected(item) ==> r == Err(Invalid) && docs == old(docs)
      ensures !Rejected(item) && id !in old(docs) ==> r == Ok(0) && docs == old(docs)
      ensures !Rejected(item) && id in old(docs) ==>
        r == Ok(1) && docs == old(docs)[id := Merged(old(docs)[id], item, userId, now)]
    {
      if Rejected(item) {
        return Err(Invalid);
      }
      if id !in docs {
        return Ok(0);
      }
      docs := docs[id := Merged(docs[id], item, userId, now)];
      r := Ok(1);
    }

    /** `remove({ _id: id })`: the number of documents removed. */
    method Remove(id: string) returns (n: nat)
      requires Valid()
      modifies this
      ensures Valid()
      ensures docs == old(docs) - {id}
      ensures n == if id in old(docs) then 1 else 0
    {
      n := if id in docs then 1 else 0;
      docs := docs - {id};
    }
  }

  /** `GET /`: the caller's documents. */
  function ListRoute(store: ConfectionaryStore, userId: string): (r: Reply)
    reads store
    ensures r.Reply? && r.status == 200 && r.payload.Many?
    ensures forall d :: d in r.payload.docs <==> d in store.docs.Values && d.userId == Some(userId)
  {
    Reply(200, Many(store.Find(userId)))
  }

  /** `GET /:id`: the document if the caller owns it; 403 if someone else does; 404 if missing. */
  function GetRoute(store: ConfectionaryStore, userId: string, id: string): (r: Reply)
    reads store
    ensures r.Reply?
    ensures id !in store.docs ==> r == Reply(404, NoBody)
    ensures id in store.docs && store.docs[id].userId == Some(userId) ==> r == Reply(200, One(store.docs[id]))
    ensures id in store.docs && store.docs[id].userId != Some(userId) ==> r == Reply(403, NoBody)
  {
    match store.FindOne(id)
    case None => Reply(404, NoBody)
    case Some(d) => if d.userId == Some(userId) then Reply(200, One(d)) else Reply(403, NoBody)
  }

  /** `createConfectionary`: stamp the caller as owner and insert; any error is a 400 carrying
      its message. */
  method CreateRoute(store: ConfectionaryStore, userId: string, item: ItemBody, now: int, freshId: string)
    returns (r: Reply)
    requires store.Valid()
    modifies store
    ensures store.Valid()
    ensures Rejected(item) ==> r == Reply(400, Message(MissingFields)) && store.docs == old(store.docs)
    ensures !Rejected(item) ==>
      var d := NewDoc(item, Some(userId), now, freshId);
      if d.id in old(store.docs) then
        r == Reply(400, Message(ErrorMessage(Duplicate(d.id)))) && store.docs == old(store.docs)
      else
        r == Reply(201, One(d)) && store.docs == old(store.docs)[d.id := d]
    ensures OthersUntouched(old(store.docs), store.docs, userId)
  {
    if Rejected(item) {
      return Reply(400, Message(MissingFields));
    }
    var saved := store.Insert(item, Some(userId), now, freshId);
    match saved
    case Ok(d) => r := Reply(201, One(d));
    case Err(e) => r := Reply(400, Message(ErrorMessage(e)));
  }

  /** `PUT /:id`. A body `_id` other than the path's is refused; without one the body is
      created; otherwise the stored document is merged with the body and stamped with the
      caller as owner, whoever owned it before. An invalid body makes the store throw, and
      nothing catches it. */
  method PutRoute(store: ConfectionaryStore, userId: string, id: string, item: ItemBody, now: int, freshId: string)
    returns (r: Reply)
    requires store.Valid()
    modifies store
    ensures store.Valid()
    ensures Truthy(item.id) && item.id.value != id ==>
      r == Reply(400, Message("Param id and body _id should be the same")) && store.docs == old(store.docs)
    ensures !Truthy(item.id) && Rejected(item) ==>
      r == Reply(400, Message(MissingFields)) && store.docs == old(store.docs)
    ensures !Truthy(item.id) && !Rejected(item) ==>
      var d := NewDoc(item, Some(userId), now, freshId);
      if d.id in old(store.docs) then
        r == Reply(400, Message(ErrorMessage(Duplicate(d.id)))) && store.docs == old(store.docs)
      else
        r == Reply(201, One(d)) && store.docs == old(store.docs)[d.id := d]
    ensures Truthy(item.id) && item.id.value == id ==>
      if Rejected(item) then
        r == Threw(MissingFields) && store.docs == old(store.docs)
      else if id in old(store.docs) then
        && r == Reply(200, One(Doc(id, Some(userId), item.name, item.inCluj, item.rating, now)))
        && store.docs == old(store.docs)[id := Merged(old(store.docs)[id], item, userId, now)]
      else
        r == Reply(405, Message("Resource no longer exists")) && store.docs == old(store.docs)
  {
    if Truthy(item.id) && item.id.value != id {
      return Reply(400, Message("Param id and body _id should be the same"));
    }
    if !Truthy(item.id) {
      r := CreateRoute(store, userId, item, now, freshId);
      return;
    }
    var updated := store.Update(id, item, userId, now);
    match updated
    case Err(e) => r := Threw(ErrorMessage(e));
    case Ok(count) =>
      if count == 1 {
        r := Reply(200, One(Doc(id, Some(userId), item.name, item.inCluj, item.rating, now)));
      } else {
        r := Reply(405, Message("Resource no longer exists"));
      }
  }

  /** `DELETE /:id`: refused with 403 when someone else owns the document; otherwise the
      document is removed if it exists, and the answer is 204 either way. */
  method DeleteRoute(store: ConfectionaryStore, userId: string, id: string) returns (r: Reply)
    requires store.Valid()
    modifies store
    ensures store.Valid()
    ensures id in old(store.docs) && old(store.docs)[id].userId != Some(userId) ==>
      r == Reply(403, NoBody) && store.docs == old(store.docs)
    ensures !(id in old(store.docs) && old(store.docs)[id].userId != Some(userId)) ==>
      r == Reply(204, NoBody) && store.docs == old(store.docs) - {id}
    ensures forall k :: k in store.docs ==> k in old(store.docs) && store.docs[k] == old(store.docs)[k]
    ensures OthersUntouched(old(store.docs), store.docs, userId)
  {
    var found := store.FindOne(id);
    if found.Some? && found.value.userId != Some(userId) {
      return Reply(403, NoBody);
    }
    var _ := store.Remove(id);
    r := Reply(204, NoBody);
  }

  /** The as-written PUT on a concrete store: a record owned by "alice" is updated by "mallory",
      who answers 200 and becomes its owner. */
  method ForeignPutTakesOver() returns (r: Reply, before: Doc, after: Doc)
    ensures before.userId == Some("alice") && after.id == before.id
    ensures r.Reply? && r.status == 200
    ensures after.userId == Some("mallory") && after.name == Some("Tiramisu")
  {
    before := Doc("7", Some("alice"), Some("Ecler"), Some(true), Some(4), 0);
    var store := new ConfectionaryStore(map["7" := before]);
    var body := ItemBody(Some("7"), Some("Tiramisu"), Some(false), None);
    r := PutRoute(store, "mallory", "7", body, 1, "fresh");
    after := store.docs["7"];
  }

  /** `PUT /:id` with the ownership check the routes for GET and DELETE make: a record that
      exists and belongs to someone else is refused with 403; otherwise as `PutRoute`. */
  method PutRouteOwnerChecked(store: ConfectionaryStore, userId: string, id: string, item: ItemBody, now: int,
                              freshId: string)
    returns (r: Reply)
    requires store.Valid()
    modifies store
    ensures store.Valid()
    ensures Truthy(item.id) && item.id.value == id && id in old(store.docs)
            && old(store.docs)[id].userId != Some(userId) ==>
      r == Reply(403, NoBody) && store.docs == old(store.docs)
    ensures Truthy(item.id) && item.id.value != id ==>
      r == Reply(400, Message("Param id and body _id should be the same")) && store.docs == old(store.docs)
    ensures Truthy(item.id) && item.id.value == id && id in old(store.docs)
            && old(store.docs)[id].userId == Some(userId) && !Rejected(item) ==>
      && r == Reply(200, One(Doc(id, Some(userId), item.name, item.inCluj, item.rating, now)))
      && store.docs == old(store.docs)[id := Merged(old(store.docs)[id], item, userId, now)]
    ensures Truthy(item.id) && item.id.value == id && id in old(store.docs)
            && old(store.docs)[id].userId == Some(userId) && Rejected(item) ==>
      r == Threw(MissingFields) && store.docs == old(store.docs)
    ensures Truthy(item.id) && item.id.value == id && id !in old(store.docs) ==>
      store.docs == old(store.docs)
      && r == if Rejected(item) then Threw(MissingFields) else Reply(405, Message("Resource no longer exists"))
    ensures !Truthy(item.id) && Rejected(item) ==>
      r == Reply(400, Message(MissingFields)) && store.docs == old(store.docs)
    ensures !Truthy(item.id) && !Rejected(item) ==>
      var d := NewDoc(item, Some(userId), now, freshId);
      if d.id in old(store.docs) then
        r == Reply(400, Message(ErrorMessage(Duplicate(d.id)))) && store.docs == old(store.docs)
      else
        r == Reply(201, One(d)) && store.docs == old(store.docs)[d.id := d]
    ensures OthersUntouched(old(store.docs), store.docs, userId)
  {
    if Truthy(item.id) && item.id.value == id {
      var found := store.FindOne(id);
      if found.Some? && found.value.userId != Some(userId) {
        return Reply(403, NoBody);
      }
    }
    r := PutRoute(store, userId, id, item, now, freshId);
  }
}
