/**
 * The confectionary list screen: the search box and the rating filter select the records to
 * show, and infinite scrolling reveals them four at a time.
 */
module ListView {
  import opened Common
  import opened Seqs
  import opened Reducer

  /** Records revealed per page. */
  const ItemsPerPage := 4

  /** The rating selector's value: unset ("All"), a number, or any other string. */
  datatype RatingFilter = NoFilter | Rating(n: int) | Label(text: string)

  /** `filter && typeof filter === "number"`: a number other than 0. */
  predicate FilterActive(f: RatingFilter) {
    f.Rating? && f.n != 0
  }

  /** The characters `String.prototype.trim` removes: ECMAScript WhiteSpace and LineTerminator. */
  predicate IsSpace(ch: char) {
    || ch == '\U{0009}' || ch == '\U{000A}' || ch == '\U{000B}' || ch == '\U{000C}' || ch == '\U{000D}'
    || ch == ' ' || ch == '\U{00A0}' || ch == '\U{1680}' || '\U{2000}' <= ch <= '\U{200A}'
    || ch == '\U{2028}' || ch == '\U{2029}' || ch == '\U{202F}' || ch == '\U{205F}' || ch == '\U{3000}'
    || ch == '\U{FEFF}'
  }

  /** `s.trim() === ""`: every character is whitespace. */
  predicate IsBlank(s: string) {
    forall i :: 0 <= i < |s| ==> IsSpace(s[i])
  }

  /** Lower-casing of one character (ASCII letters only). */
  function LowerChar(ch: char): (r: char)
    ensures 'A' <= ch <= 'Z' ==> 'a' <= r <= 'z' && r as int == ch as int + 32
    ensures !('A' <= ch <= 'Z') ==> r == ch
  {
    if 'A' <= ch <= 'Z' then (ch as int + 32) as char else ch
  }

  /** `s.toLowerCase()`, for ASCII letters. */
  function Lower(s: string): (r: string)
    ensures |r| == |s|
    ensures forall i :: 0 <= i < |s| ==> r[i] == LowerChar(s[i])
  {
    seq(|s|, i requires 0 <= i < |s| => LowerChar(s[i]))
  }

  /** `part` occurs in `s` starting at position `i`. */
  predicate OccursAt(s: string, part: string, i: nat) {
    i + |part| <= |s| && s[i..i + |part|] == part
  }

  /** `s.includes(part)`: `part` occurs in `s` at some position. */
  predicate Contains(s: string, part: string) {
    exists i: nat | i <= |s| :: OccursAt(s, part, i)
  }

  /** `c.name.toLowerCase().includes(search.toLowerCase())`. */
  predicate NameMatches(c: Confectionary, search: string) {
    Contains(Lower(c.name), Lower(search))
  }

  /** The records the screen pages through: a non-blank search (used untrimmed) wins over the
      rating filter; with neither, every record. */
  function Filtered(items: seq<Confectionary>, search: string, filter: RatingFilter): (r: seq<Confectionary>)
    ensures |r| <= |items|
    ensures forall c :: c in r ==> c in items
    ensures !IsBlank(search) ==> forall c :: c in r ==> NameMatches(c, search)
    ensures IsBlank(search) && FilterActive(filter) ==> forall c :: c in r ==> c.rating == filter.n
    ensures IsBlank(search) && !FilterActive(filter) ==> r == items
  {
    if !IsBlank(search) then Filter(items, (c: Confectionary) => NameMatches(c, search))
    else if FilterActive(filter) then Filter(items, (c: Confectionary) => c.rating == filter.n)
    else items
  }

  /** A record is listed exactly when it is in the store and passes the search, or, with a
      blank search, the active rating filter. */
  lemma FilteredMembers(items: seq<Confectionary>, search: string, filter: RatingFilter, c: Confectionary)
    ensures c in Filtered(items, search, filter) <==>
      c in items &&
      if !IsBlank(search) then NameMatches(c, search)
      else if FilterActive(filter) then c.rating == filter.n
      else true
  {
    if !IsBlank(search) {
      FilterMembers(items, (x: Confectionary) => NameMatches(x, search), c);
    } else if FilterActive(filter) {
      FilterMembers(items, (x: Confectionary) => x.rating == filter.n, c);
    }
  }

  /** A whitespace-only search does not search at all: the screen shows what it shows with an
      empty search box, the rating-filtered list or, with no rating chosen, every record. */
  lemma BlankSearchFallsBackToRating(items: seq<Confectionary>, search: string, filter: RatingFilter)
    requires IsBlank(search)
    ensures Filtered(items, search, filter) == Filtered(items, "", filter)
    ensures FilterActive(filter) ==> forall c :: c in Filtered(items, search, filter) <==> c in items && c.rating == filter.n
    ensures !FilterActive(filter) ==> Filtered(items, search, filter) == items
  {
    if FilterActive(filter) {
      forall c ensures c in Filtered(items, search, filter) <==> c in items && c.rating == filter.n {
        FilteredMembers(items, search, filter, c);
      }
    }
  }

  /** Matching ignores ASCII case: an upper-case query finds the same records as its lower-case form. */
  lemma {:induction false} SearchIgnoresCase(c: Confectionary, search: string)
    ensures NameMatches(c, search) <==> NameMatches(c, Lower(search))
  {
    assert Lower(Lower(search)) == Lower(search) by {
      forall i | 0 <= i < |search| ensures Lower(Lower(search))[i] == Lower(search)[i] {
        assert LowerChar(LowerChar(search[i])) == LowerChar(search[i]);
      }
    }
  }

  /** `s.slice(0, n)`. */
  function Take(s: seq<Confectionary>, n: nat): (r: seq<Confectionary>)
    ensures |r| == if n <= |s| then n else |s|
    ensures r <= s
  {
    if n <= |s| then s[..n] else s
  }

  /** `s.slice(start, end)` for non-negative bounds: clipped to the sequence, empty when the
      bounds cross. */
  function Slice(s: seq<Confectionary>, start: nat, end: nat): (r: seq<Confectionary>)
    ensures start <= end <= |s| ==> r == s[start..end]
    ensures |s| <= start ==> r == []
  {
    var a := if start <= |s| then start else |s|;
    var b := if end <= |s| then end else |s|;
    if a >= b then [] else s[a..b]
  }

  /** Appending the next page to the first `k` records gives the first `k + size` records. */
  lemma NextPageExtendsPrefix(s: seq<Confectionary>, k: nat, size: nat)
    ensures Take(s, k) + Slice(s, k, k + size) == Take(s, k + size)
  {
    if k + size <= |s| {
      assert s[..k] + s[k..k + size] == s[..k + size];
    } else if k <= |s| {
      assert s[..k] + s[k..] == s;
    }
  }

  /** The list screen's paging state. */
  class PagedList {
    /** `visibleItems`: the records rendered so far. */
    var visible: seq<Confectionary>
    /** `page`: the number of pages revealed. */
    var page: nat
    /** `disableInfiniteScroll`: no more pages are requested. */
    var disableInfiniteScroll: bool
    /** The search box text. */
    var search: string
    /** The rating selector. */
    var filter: RatingFilter

    /** The screen shows exactly the first `page` pages of `shown`, and scrolling is disabled
        exactly when all of `shown` is on screen. */
    ghost predicate Shows(shown: seq<Confectionary>)
      reads this
    {
      page >= 1 && visible == Take(shown, ItemsPerPage * page)
      && (disableInfiniteScroll <==> |shown| <= ItemsPerPage * page)
    }

    /** The first render: nothing visible, page 1, scrolling enabled, no search, no filter. */
    constructor ()
      ensures visible == [] && page == 1 && !disableInfiniteScroll
      ensures search == "" && filter == NoFilter
    {
      visible := [];
      page := 1;
      disableInfiniteScroll := false;
      search := "";
      filter := NoFilter;
    }

    /** The effect run when the store's list, the filter or the search change: with a
        non-empty list, show its first page; with no list or an empty one, keep the screen. */
    method Refresh(items: Option<seq<Confectionary>>)
      modifies this`visible, this`page, this`disableInfiniteScroll
      ensures items.Some? && items.value != [] ==>
        var shown := Filtered(items.value, search, filter);
        && visible == Take(shown, ItemsPerPage) && page == 1
        && disableInfiniteScroll == (|shown| <= ItemsPerPage)
        && Shows(shown)
      ensures items.None? || items.value == [] ==>
        visible == old(visible) && page == old(page) && disableInfiniteScroll == old(disableInfiniteScroll)
    {
      if items.Some? && |items.value| > 0 {
        var shown := Filtered(items.value, search, filter);
        visible := Take(shown, ItemsPerPage);
        page := 1;
        disableInfiniteScroll := |shown| <= ItemsPerPage;
      }
    }

    /** `searchNext`: append the next page of the current selection and advance the page;
        scrolling is disabled once the selection is exhausted, and never re-enabled here. */
    method SearchNext(items: Option<seq<Confectionary>>)
      modifies this`visible, this`page, this`disableInfiniteScroll
      ensures var shown := Filtered(OrEmpty(items), search, filter);
        && visible == old(visible) + Slice(shown, ItemsPerPage * old(page), ItemsPerPage * old(page) + ItemsPerPage)
        && page == old(page) + 1
        && disableInfiniteScroll == (old(disableInfiniteScroll) || |shown| <= ItemsPerPage * page)
      ensures old(Shows(Filtered(OrEmpty(items), search, filter))) ==> Shows(Filtered(OrEmpty(items), search, filter))
    {
      var shown := Filtered(OrEmpty(items), search, filter);
      var start := page * ItemsPerPage;
      var end := start + ItemsPerPage;
      NextPageExtendsPrefix(shown, start, ItemsPerPage);
      visible := visible + Slice(shown, start, end);
      page := page + 1;
      if end >= |shown| {
        disableInfiniteScroll := true;
      }
    }

    /** Typing in the search box clears the rating filter; the effect runs when either changed. */
    method OnSearchInput(text: string, items: Option<seq<Confectionary>>)
      modifies this
      ensures search == text && filter == NoFilter
      ensures old(search) == text && old(filter) == NoFilter ==>
        visible == old(visible) && page == old(page) && disableInfiniteScroll == old(disableInfiniteScroll)
      ensures (old(search) != text || old(filter) != NoFilter) && items.Some? && items.value != [] ==>
        var shown := Filtered(items.value, text, NoFilter);
        && visible == Take(shown, ItemsPerPage) && page == 1
        && disableInfiniteScroll == (|shown| <= ItemsPerPage)
        && Shows(shown)
      ensures items.None? || items.value == [] ==>
        visible == old(visible) && page == old(page) && disableInfiniteScroll == old(disableInfiniteScroll)
    {
      var changed := search != text || filter != NoFilter;
      search := text;
      filter := NoFilter;
      if changed {
        Refresh(items);
      }
    }

    /** Choosing a rating clears the search box; the effect runs when either changed. */
    method OnFilterChange(f: RatingFilter, items: Option<seq<Confectionary>>)
      modifies this
      ensures filter == f && search == ""
      ensures old(filter) == f && old(search) == "" ==>
        visible == old(visible) && page == old(page) && disableInfiniteScroll == old(disableInfiniteScroll)
      ensures (old(filter) != f || old(search) != "") && items.Some? && items.value != [] ==>
        var shown := Filtered(items.value, "", f);
        && visible == Take(shown, ItemsPerPage) && page == 1
        && disableInfiniteScroll == (|shown| <= ItemsPerPage)
        && Shows(shown)
      ensures items.None? || items.value == [] ==>
        visible == old(visible) && page == old(page) && disableInfiniteScroll == old(disableInfiniteScroll)
    {
      var changed := filter != f || search != "";
      filter := f;
      search := "";
      if changed {
        Refresh(items);
      }
    }
  }
}
