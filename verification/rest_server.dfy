/**
 * The unauthenticated REST server: an in-memory list of confectionaries, the last id handed
 * out (a decimal numeral), and the handlers of `/confectionary` and `/confectionary/:id`.
 * `new Date()` is the `now` parameter; each handler returns the notification it broadcasts
 * over the web socket instead of sending it.
 */
module RestServer {
  import opened Common

  /** A stored confectionary. The update handler stores whatever the body held, so `name`,
      `inCluj` and `rating` may be absent. */
  datatype Item = Item(id: string, name: Option<string>, date: int, inCluj: Option<bool>, rating: Option<int>)

  /** A request body, as far as the handlers look at it. */
  datatype Body = Body(id: Option<string>, name: Option<string>, inCluj: Option<bool>, rating: Option<int>)

  datatype Payload = One(item: Item) | Many(items: seq<Item>) | Message(text: string) | NoBody

  datatype Response = Response(status: int, payload: Payload)

  /** The message broadcast to every open web socket. */
  datatype Notice = Created(item: Item) | Updated(item: Item) | Deleted(item: Item)

  /** `data.rating < 0 || data.rating > 5`; an absent rating passes both comparisons. */
  function RatingOutOfRange(rating: Option<int>): (b: bool)
    ensures !b <==> rating.None? || 0 <= rating.value <= 5
  {
    rating.Some? && (rating.value < 0 || rating.value > 5)
  }

  // ---------------------------------------------------------------------------------------
  // Decimal numerals: `${n}` and `parseInt`

  function DigitChar(d: nat): (c: char)
    requires d < 10
    ensures '0' <= c <= '9'
  {
    ('0' as int + d) as char
  }

  predicate AllDigits(s: string) {
    forall i :: 0 <= i < |s| ==> '0' <= s[i] <= '9'
  }

  /** `${n}`: the decimal numeral of `n`. */
  function Decimal(n: nat): (s: string)
    ensures |s| > 0 && AllDigits(s)
  {
    if n < 10 then [DigitChar(n)] else Decimal(n / 10) + [DigitChar(n % 10)]
  }

  /** `parseInt(s)` of a string of digits. */
  function ParseDigits(s: string): nat
    requires AllDigits(s)
  {
    if s == [] then 0
    else ParseDigits(s[..|s| - 1]) * 10 + (s[|s| - 1] as int - '0' as int)
  }

  /** Parsing a numeral gives back its number. */
  lemma {:induction false} ParseDecimal(n: nat)
    ensures ParseDigits(Decimal(n)) == n
  {
    if n >= 10 {
      var s := Decimal(n);
      assert s[..|s| - 1] == Decimal(n / 10);
      ParseDecimal(n / 10);
    }
  }

  /** Distinct numbers have distinct numerals. */
  lemma DecimalInjective(a: nat, b: nat)
    requires a != b
    ensures Decimal(a) != Decimal(b)
  {
    ParseDecimal(a);
    ParseDecimal(b);
  }

  /** `confectionaries.findIndex(c => c.id === id)`. */
  function IndexOf(items: seq<Item>, id: string): (k: int)
    ensures -1 <= k < |items|
    ensures k == -1 <==> forall j :: 0 <= j < |items| ==> items[j].id != id
    ensures k != -1 ==> items[k].id == id && forall j :: 0 <= j < k ==> items[j].id != id
  {
    if items == [] then -1
    else if items[0].id == id then 0
    else
      var k := IndexOf(items[1..], id);
      if k == -1 then -1 else k + 1
  }

  /** The ids behind the numerals, one per item, strictly increasing and at most `last`. */
  predicate Numbered(items: seq<Item>, numbers: seq<nat>, last: nat) {
    && |numbers| == |items|
    && (forall i :: 0 <= i < |items| ==> items[i].id == Decimal(numbers[i]))
    && (forall i, j :: 0 <= i < j < |numbers| ==> numbers[i] < numbers[j])
    && (forall i :: 0 <= i < |numbers| ==> numbers[i] <= last)
  }

  /** No two stored confectionaries share an id. */
  lemma NumberedIdsDistinct(items: seq<Item>, numbers: seq<nat>, last: nat, i: nat, j: nat)
    requires Numbered(items, numbers, last)
    requires i < j < |items|
    ensures items[i].id != items[j].id
  {
    DecimalInjective(numbers[i], numbers[j]);
  }

  /** The numeral after `last` is the id of no stored confectionary. */
  lemma NextIdFresh(items: seq<Item>, numbers: seq<nat>, last: nat)
    requires Numbered(items, numbers, last)
    ensures forall i :: 0 <= i < |items| ==> items[i].id != Decimal(last + 1)
  {
    forall i | 0 <= i < |items| ensures items[i].id != Decimal(last + 1) {
      DecimalInjective(numbers[i], last + 1);
    }
  }

  /** Removing one item keeps the numbering of the others. */
  lemma NumberedRemove(items: seq<Item>, numbers: seq<nat>, last: nat, k: nat)
    requires Numbered(items, numbers, last) && k < |items|
    ensures Numbered(items[..k] + items[k + 1..], numbers[..k] + numbers[k + 1..], last)
  {
    var items', numbers' := items[..k] + items[k + 1..], numbers[..k] + numbers[k + 1..];
    assert |items'| == |numbers'| == |items| - 1;
    forall i | 0 <= i < |items'|
      ensures items'[i] == items[if i < k then i else i + 1]
      ensures numbers'[i] == numbers[if i < k then i else i + 1]
    {
    }
  }

  class ConfectionaryServer {
    /** The in-memory list, in insertion order. */
    var confectionaries: seq<Item>
    /** The last id handed out, as a numeral. */
    var lastId: string
    /** The time of the last update or removal. */
    var lastUpdated: int
    /** The numbers behind the ids. */
    ghost var numbers: seq<nat>
    /** The number behind `lastId`. */
    ghost var lastNumber: nat

    /** Every id is the numeral of its own number, the numbers increase along the list, and
        none exceeds the last id handed out. */
    ghost predicate Valid()
      reads this
    {
      lastId == Decimal(lastNumber) && Numbered(confectionaries, numbers, lastNumber)
    }

    /** Three seed confectionaries with ids "0", "1", "2", one millisecond apart. */
    constructor (now: int)
      ensures Valid()
      ensures confectionaries == [
        Item("0", Some("Confectionary 0"), now, Some(true), Some(5)),
        Item("1", Some("Confectionary 1"), now + 1, Some(false), Some(5)),
        Item("2", Some("Confectionary 2"), now + 2, Some(true), Some(5))]
      ensures lastId == "2" && lastUpdated == now + 2
    {
      confectionaries := [
        Item("0", Some("Confectionary 0"), now, Some(true), Some(5)),
        Item("1", Some("Confectionary 1"), now + 1, Some(false), Some(5)),
        Item("2", Some("Confectionary 2"), now + 2, Some(true), Some(5))];
      lastUpdated := now + 2;
      lastId := "2";
      numbers := [0, 1, 2];
      lastNumber := 2;
    }

    /** `GET /confectionary`: the whole list. */
    function ListAll(): (r: Response)
      reads this
      ensures r.status == 200 && r.payload == Many(confectionaries)
    {
      Response(200, Many(confectionaries))
    }

    /** `GET /confectionary/:id`: the first confectionary with that id, or 404. */
    function Get(id: string): (r: Response)
      reads this
      ensures r.status == 200 <==> exists i :: 0 <= i < |confectionaries| && confectionaries[i].id == id
      ensures r.status == 200 ==> r.payload.One? && r.payload.item in confectionaries && r.payload.item.id == id
      ensures r.status != 200 ==> r == Response(404, Message("Confectionary with id " + id + " not found"))
    {
      var k := IndexOf(confectionaries, id);
      if k != -1 then Response(200, One(confectionaries[k]))
      else Response(404, Message("Confectionary with id " + id + " not found"))
    }

    /** `createConfectionary`: validate, then append under the next id. */
    method Create(body: Body, now: int) returns (r: Response, notice: Option<Notice>)
      requires Valid()
      modifies this`confectionaries, this`lastId, this`numbers, this`lastNumber
      ensures Valid()
      ensures !Truthy(body.name) || body.inCluj.None? ==>
        && r == Response(400, Message("Missing name or inCluj flag")) && notice.None?
        && confectionaries == old(confectionaries) && lastId == old(lastId)
      ensures Truthy(body.name) && body.inCluj.Some? && RatingOutOfRange(body.rating) ==>
        && r == Response(400, Message("Rating need to be between 0 and 5")) && notice.None?
        && confectionaries == old(confectionaries) && lastId == old(lastId)
      ensures Truthy(body.name) && body.inCluj.Some? && !RatingOutOfRange(body.rating) ==>
        var item := Item(Decimal(old(lastNumber) + 1), body.name, now, body.inCluj, body.rating);
        && r == Response(201, One(item)) && notice == Some(Created(item))
        && confectionaries == old(confectionaries) + [item]
        && lastId == item.id
        && (forall i :: 0 <= i < |old(confectionaries)| ==> old(confectionaries)[i].id != item.id)
    {
      if !Truthy(body.name) || body.inCluj.None? {
        return Response(400, Message("Missing name or inCluj flag")), None;
      }
      if RatingOutOfRange(body.rating) {
        return Response(400, Message("Rating need to be between 0 and 5")), None;
      }
      ParseDecimal(lastNumber);
      NextIdFresh(confectionaries, numbers, lastNumber);
      var id := Decimal(ParseDigits(lastId) + 1);
      lastId := id;
      var item := Item(id, body.name, now, body.inCluj, body.rating);
      confectionaries := confectionaries + [item];
      numbers := numbers + [lastNumber + 1];
      lastNumber := lastNumber + 1;
      r, notice := Response(201, One(item)), Some(Created(item));
    }

    /** `PUT /confectionary/:id`: a body without an id creates; otherwise the stored
        confectionary with the path id is replaced by the body's fields. */
    method Put(id: string, body: Body, now: int) returns (r: Response, notice: Option<Notice>)
      requires Valid()
      modifies this`confectionaries, this`lastId, this`lastUpdated, this`numbers, this`lastNumber
      ensures Valid()
      ensures Truthy(body.id) && body.id.value != id ==>
        && r == Response(400, Message("Param id and body id should be the same")) && notice.None?
        && confectionaries == old(confectionaries) && lastId == old(lastId) && lastUpdated == old(lastUpdated)
      ensures !(Truthy(body.id) && body.id.value != id) && RatingOutOfRange(body.rating) ==>
        && r == Response(400, Message("Rating need to be between 0 and 5")) && notice.None?
        && confectionaries == old(confectionaries) && lastId == old(lastId) && lastUpdated == old(lastUpdated)
      ensures !Truthy(body.id) && !RatingOutOfRange(body.rating) ==>
        lastUpdated == old(lastUpdated) &&
        if !Truthy(body.name) || body.inCluj.None? then
          r == Response(400, Message("Missing name or inCluj flag")) && notice.None?
          && confectionaries == old(confectionaries) && lastId == old(lastId)
        else
          var item := Item(Decimal(old(lastNumber) + 1), body.name, now, body.inCluj, body.rating);
          && r == Response(201, One(item)) && notice == Some(Created(item))
          && confectionaries == old(confectionaries) + [item] && lastId == item.id
      ensures Truthy(body.id) && body.id.value == id && !RatingOutOfRange(body.rating) ==>
        var k := IndexOf(old(confectionaries), id);
        var updated := Item(id, body.name, now, body.inCluj, body.rating);
        && lastId == old(lastId)
        && if k == -1 then
             && r == Response(400, Message("Confectionary with id " + id + " not found")) && notice.None?
             && confectionaries == old(confectionaries) && lastUpdated == old(lastUpdated)
           else
             && r == Response(200, One(updated)) && notice == Some(Updated(updated))
             && confectionaries == old(confectionaries)[k := updated] && lastUpdated == now
    {
      if Truthy(body.id) && body.id.value != id {
        return Response(400, Message("Param id and body id should be the same")), None;
      }
      if RatingOutOfRange(body.rating) {
        return Response(400, Message("Rating need to be between 0 and 5")), None;
      }
      if !Truthy(body.id) {
        r, notice := Create(body, now);
        return;
      }
      var k := IndexOf(confectionaries, id);
      if k == -1 {
        return Response(400, Message("Confectionary with id " + id + " not found")), None;
      }
      var updated := Item(id, body.name, now, body.inCluj, body.rating);
      confectionaries := confectionaries[k := updated];
      lastUpdated := now;
      r, notice := Response(200, One(updated)), Some(Updated(updated));
    }

    /** `DELETE /confectionary/:id`: remove the confectionary with that id if there is one;
        the answer is 204 either way. */
    method Delete(id: string, now: int) returns (r: Response, notice: Option<Notice>)
      requires Valid()
      modifies this`confectionaries, this`lastUpdated, this`numbers
      ensures Valid()
      ensures r == Response(204, NoBody) && lastId == old(lastId)
      ensures var k := IndexOf(old(confectionaries), id);
        if k == -1 then
          confectionaries == old(confectionaries) && lastUpdated == old(lastUpdated) && notice.None?
        else
          && confectionaries == old(confectionaries)[..k] + old(confectionaries)[k + 1..]
          && lastUpdated == now && notice == Some(Deleted(old(confectionaries)[k]))
      ensures forall i :: 0 <= i < |confectionaries| ==> confectionaries[i].id != id
    {
      var k := IndexOf(confectionaries, id);
      if k != -1 {
        var item := confectionaries[k];
        forall j | k < j < |confectionaries| ensures confectionaries[j].id != id {
          NumberedIdsDistinct(confectionaries, numbers, lastNumber, k, j);
        }
        NumberedRemove(confectionaries, numbers, lastNumber, k);
        confectionaries := confectionaries[..k] + confectionaries[k + 1..];
        numbers := numbers[..k] + numbers[k + 1..];
        lastUpdated := now;
        r, notice := Response(204, NoBody), Some(Deleted(item));
      } else {
        r, notice := Response(204, NoBody), None;
      }
    }
  }
}
