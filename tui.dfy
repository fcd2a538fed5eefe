/** The list navigation state of cli/src/tui.rs: the wrapping cursor of the selection menu and the
    pager of the kanji list, 450 kanji to a page. */
module Tui {
  import opened Types
  import opened Kanji

  /** Kanji shown on one page of the kanji list (15 columns of 30). */
  const PageSize: nat := 450

  /** The selection after `SelectionList::next`: nothing selected goes to the first item, the
      last item (or anything past it) wraps to the first, any other item moves down one. */
  function NextIndex(selected: Option<nat>, len: nat): nat
    requires selected.Some? ==> len > 0
  {
    match selected
    case None => 0
    case Some(i) => if i >= len - 1 then 0 else i + 1
  }

  /** The selection after `SelectionList::previous`: nothing selected goes to the first item, the
      first item wraps to the last, any other item moves up one. */
  function PreviousIndex(selected: Option<nat>, len: nat): nat
    requires selected == Some(0) ==> len > 0
  {
    match selected
    case None => 0
    case Some(i) => if i == 0 then len - 1 else i - 1
  }

  /** On a non-empty list both moves keep the selection inside the list. */
  lemma MovesStayInList(selected: Option<nat>, len: nat)
    requires len > 0
    requires selected.Some? ==> selected.value < len
    ensures NextIndex(selected, len) < len && PreviousIndex(selected, len) < len
  {
  }

  /** On a non-empty list `next` and `previous` undo each other. */
  lemma NextPreviousInverse(i: nat, len: nat)
    requires i < len
    ensures PreviousIndex(Some(NextIndex(Some(i), len)), len) == i
    ensures NextIndex(Some(PreviousIndex(Some(i), len)), len) == i
  {
  }

  /** The state of the selection menu. */
  class SelectionList {
    var items: seq<string>
    var selected: Option<nat>

    /** `SelectionList::new`: the items with nothing selected (`ListState::default`). */
    constructor (items: seq<string>)
      ensures this.items == items && selected == None
    {
      this.items := items;
      selected := None;
    }

    /** `next`; with a selection on an empty list `items.len() - 1` underflows. */
    method Next()
      requires selected.Some? ==> |items| > 0
      modifies this
      ensures items == old(items)
      ensures selected == Some(NextIndex(old(selected), |items|))
    {
      var i: nat;
      match selected {
        case Some(s) =>
          if s >= |items| - 1 {
            i := 0;
          } else {
            i := s + 1;
          }
        case None =>
          i := 0;
      }
      selected := Some(i);
    }

    /** `previous`; from the first item of an empty list `items.len() - 1` underflows. */
    method Previous()
      requires selected == Some(0) ==> |items| > 0
      modifies this
      ensures items == old(items)
      ensures selected == Some(PreviousIndex(old(selected), |items|))
    {
      var i: nat;
      match selected {
        case Some(s) =>
          if s == 0 {
            i := |items| - 1;
          } else {
            i := s - 1;
          }
        case None =>
          i := 0;
      }
      selected := Some(i);
    }

    /** `unselect`. */
    method Unselect()
      modifies this
      ensures items == old(items) && selected == None
    {
      selected := None;
    }
  }

  /** `round_up_to_nearest_10`, which rounds up to a multiple of 450 in `u16` arithmetic; the
      addition overflows past 65086. */
  function RoundUpToNearest10(n: u16): (r: u16)
    requires n <= 0xFFFF - 449
    ensures r % PageSize == 0 && n <= r < n + PageSize
  {
    (n + 449) / 450 * 450
  }

  /** Every multiple of 450 at or above `n` is at or above the rounded value: it is the least one. */
  lemma RoundUpIsLeast(n: u16, m: nat)
    requires n <= 0xFFFF - 449
    requires m % PageSize == 0 && n <= m
    ensures RoundUpToNearest10(n) <= m
  {
  }

  /** The page count `with_items` derives for `len` kanji. */
  function PageCount(len: nat): (r: u16)
    requires len <= 0xFFFF - 449
    ensures len == 0 <==> r == 0
    ensures (r - 1) * PageSize < len <= r * PageSize || len == 0
  {
    RoundUpToNearest10(len) / 450
  }

  /** The page after `StatefulList::next`: the following page while kanji remain, else the first. */
  function NextPage(page: nat, len: nat): nat
  {
    if page * PageSize < len then page + 1 else 1
  }

  /** The page after `StatefulList::previous`: the preceding page, or the last one from the first. */
  function PreviousPage(page: nat, pageCount: nat): nat
    requires page >= 1
  {
    if page == 1 then pageCount else page - 1
  }

  /** The bounds `[start, end)` of the shown slice for a page (lines 240 to 242): the subtraction
      needs `page >= 1` and the slice needs `start <= len`. */
  function PageBounds(page: nat, len: nat): (b: (nat, nat))
    requires page >= 1 && (page - 1) * PageSize <= len
    ensures b.0 <= b.1 <= len && b.1 - b.0 <= PageSize
  {
    var start := (page - 1) * PageSize;
    var end := if start + PageSize < len then start + PageSize else len;
    (start, end)
  }

  /** With at least one kanji, both page moves keep the page within `1..=page_count`, wrapping at
      both ends, and every such page shows between 1 and 450 kanji. */
  lemma PagesStayValid(page: nat, len: nat)
    requires 0 < len <= 0xFFFF - 449
    requires 1 <= page <= PageCount(len) as nat
    ensures 1 <= NextPage(page, len) <= PageCount(len) as nat
    ensures 1 <= PreviousPage(page, PageCount(len) as nat) <= PageCount(len) as nat
    ensures (page - 1) * PageSize < len
    ensures var b := PageBounds(page, len); 0 < b.1 - b.0 <= PageSize
  {
    var c := PageCount(len) as nat;
    assert (page - 1) * PageSize <= (c - 1) * PageSize;
    if page < c {
      assert page * PageSize <= (c - 1) * PageSize;
    }
  }

  /** `next` moves to the following page exactly when the current one is not the last. */
  lemma NextPageWraps(page: nat, len: nat)
    requires 0 < len <= 0xFFFF - 449
    requires 1 <= page <= PageCount(len) as nat
    ensures NextPage(page, len) == if page < PageCount(len) as nat then page + 1 else 1
  {
    var c := PageCount(len) as nat;
    if page < c {
      assert page * PageSize <= (c - 1) * PageSize;
    } else {
      assert page * PageSize >= len;
    }
  }

  /** With no kanji, `previous` on the first page moves to page 0, where the slice start
      `(page - 1) * 450` underflows. */
  lemma EmptyListPreviousUnderflows()
    ensures PageCount(0) == 0
    ensures PreviousPage(1, PageCount(0) as nat) == 0
  {
  }

  /** The evidently intended `previous`: the last page of an empty list is the first page. */
  function PreviousPageFixed(page: nat, pageCount: nat): nat
    requires page >= 1
  {
    if page == 1 then Max(pageCount, 1) else page - 1
  }

  /** With the corrected move the page stays within `1..=max(page_count, 1)` for every list,
      empty or not, so the slice bounds are always defined; on a non-empty list the move is the
      one the source makes. */
  lemma PreviousPageFixedStaysValid(page: nat, len: nat)
    requires len <= 0xFFFF - 449
    requires 1 <= page <= Max(PageCount(len) as nat, 1)
    ensures var p := PreviousPageFixed(page, PageCount(len) as nat);
      1 <= p <= Max(PageCount(len) as nat, 1) && (p - 1) * PageSize <= len
    ensures len > 0 ==> PreviousPageFixed(page, PageCount(len) as nat) == PreviousPage(page, PageCount(len) as nat)
  {
    var c := PageCount(len) as nat;
    var p := PreviousPageFixed(page, c);
    if c > 0 {
      assert (p - 1) * PageSize <= (c - 1) * PageSize;
    }
  }

  /** The pager state of the kanji list, with `previous` corrected so that the page never drops
      to 0. */
  class StatefulList {
    var items: seq<KanjiEntry>
    var page: nat
    var pageCount: u16

    /** The pager invariant: the page count matches the items and the page is a real page (page
        1 when there are no kanji). */
    ghost predicate Valid()
      reads this
    {
      && |items| <= 0xFFFF - 449
      && pageCount == PageCount(|items|)
      && 1 <= page <= Max(pageCount as nat, 1)
    }

    /** `with_items`; more than 65086 kanji overflow the `u16` arithmetic. */
    constructor WithItems(items: seq<KanjiEntry>)
      requires |items| <= 0xFFFF - 449
      ensures Valid()
      ensures this.items == items && page == 1 && pageCount == RoundUpToNearest10(|items|) / 450
    {
      this.items := items;
      page := 1;
      pageCount := RoundUpToNearest10(|items|) / 450;
    }

    /** `next`. */
    method Next()
      requires Valid()
      modifies this
      ensures Valid()
      ensures items == old(items) && pageCount == old(pageCount)
      ensures page == NextPage(old(page), |items|)
    {
      if |items| > 0 {
        PagesStayValid(page, |items|);
      }
      if page * 450 < |items| {
        page := page + 1;
      } else {
        page := 1;
      }
    }

    /** `previous`, corrected: from the first page of an empty list it stays on page 1. */
    method Previous()
      requires Valid()
      modifies this
      ensures Valid()
      ensures items == old(items) && pageCount == old(pageCount)
      ensures page == PreviousPageFixed(old(page), pageCount as nat)
      ensures |items| > 0 ==> page == PreviousPage(old(page), pageCount as nat)
    {
      PreviousPageFixedStaysValid(page, |items|);
      if page == 1 {
        page := Max(pageCount as nat, 1);
      } else {
        page := page - 1;
      }
    }

    /** The kanji shown for the current page. */
    function Shown(): (s: seq<KanjiEntry>)
      reads this
      requires Valid()
      ensures |s| <= PageSize
      ensures (page - 1) * PageSize + |s| <= |items| && s == items[(page - 1) * PageSize..(page - 1) * PageSize + |s|]
      ensures (page - 1) * PageSize + |s| == |items| || |s| == PageSize
      ensures |items| > 0 ==> |s| > 0
    {
      assert (page - 1) * PageSize <= |items| && (|items| > 0 ==> (page - 1) * PageSize < |items|) by {
        if |items| > 0 {
          PagesStayValid(page, |items|);
        }
      }
      var b := PageBounds(page, |items|);
      items[b.0..b.1]
    }
  }
}
