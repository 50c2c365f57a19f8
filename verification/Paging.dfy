/** Keyset paging over the documents a filter selects, newest first, while the table may change between pages. */
module Paging {
  import opened Wrappers
  import opened Sequences

  /** A listed document; the cursor of a page is its last entry. */
  datatype Entry = Entry(createdAt: int, id: nat)

  predicate Newer(a: Entry, b: Entry) {
    a.createdAt > b.createdAt || (a.createdAt == b.createdAt && a.id > b.id)
  }

  predicate Past(cursor: Option<Entry>, e: Entry) {
    cursor.None? || Newer(cursor.value, e)
  }

  /** The filtered documents strictly after a cursor. */
  function Below(table: set<Entry>, cursor: Option<Entry>): set<Entry> {
    set e | e in table && Past(cursor, e)
  }

  predicate Descends(s: seq<Entry>) {
    forall i, j :: 0 <= i < j < |s| ==> Newer(s[i], s[j])
  }

  function NewestFirst(): (Entry, Entry) -> bool {
    (a, b) => a == b || Newer(a, b)
  }

  /** `order_by(created_at desc, id desc)` */
  ghost function Descending(table: set<Entry>): (s: seq<Entry>)
    ensures |s| == |table|
    ensures forall e :: e in s <==> e in table
    ensures Descends(s)
    decreases |table|
  {
    if table == {} then []
    else
      FirstExists(table, NewestFirst());
      var newest :| IsFirst(table, NewestFirst(), newest);
      [newest] + Descending(table - {newest})
  }

  /** There is only one way to list a set in descending order. */
  lemma {:induction false} DescendingIsUnique(s: seq<Entry>, t: seq<Entry>)
    requires Descends(s) && Descends(t) && forall e :: e in s <==> e in t
    ensures s == t
  {
    if s == [] {
      assert forall i :: 0 <= i < |t| ==> t[i] in t;
    } else {
      assert s[0] in t && t != [] && t[0] in s;
      assert s[0] == t[0];
      forall e ensures e in s[1..] <==> e in t[1..] {
        assert e in s[1..] <==> e in s && e != s[0];
        assert e in t[1..] <==> e in t && e != t[0];
      }
      DescendingIsUnique(s[1..], t[1..]);
    }
  }

  // ---------- one page ----------

  datatype Page = Page(items: seq<Entry>, next: Option<Entry>)

  /** A page of a listing: its first `limit` entries, with a cursor exactly when there are more. */
  function FirstOf(all: seq<Entry>, limit: nat): Page
    requires limit >= 1
  {
    if |all| > limit then Page(all[..limit], Some(all[limit - 1])) else Page(all, None)
  }

  /** The first `limit` documents past the cursor. */
  ghost function PageOf(table: set<Entry>, cursor: Option<Entry>, limit: nat): (page: Page)
    requires limit >= 1
    ensures Descends(page.items) && |page.items| <= limit
    ensures forall e :: e in page.items ==> e in Below(table, cursor)
    ensures page.next.Some? ==> page.items != [] && page.next.value == page.items[|page.items| - 1]
  {
    FirstOf(Descending(Below(table, cursor)), limit)
  }

  /** One row more than the limit is fetched; it only tells whether there is a next page. */
  method ListDocuments(ghost all: seq<Entry>, fetched: seq<Entry>, limit: nat) returns (page: Page)
    requires limit >= 1 && fetched == if |all| > limit + 1 then all[..limit + 1] else all
    ensures page == FirstOf(all, limit)
    ensures page.items <= all && |page.items| == (if |all| > limit then limit else |all|)
    ensures page.next == if |all| > limit then Some(page.items[limit - 1]) else None
  {
    var hasMore := |fetched| > limit;
    var items := if hasMore then fetched[..limit] else fetched;
    return Page(items, if hasMore then Some(items[|items| - 1]) else None);
  }

  /** A page is full unless it is the last, and holds the newest documents past its cursor. */
  lemma PagesAreFull(table: set<Entry>, cursor: Option<Entry>, limit: nat)
    requires limit >= 1
    ensures var page := PageOf(table, cursor, limit);
            && (page.next.None? <==> |Below(table, cursor)| <= limit)
            && |page.items| == (if page.next.Some? then limit else |Below(table, cursor)|)
            && forall e, listed :: e in Below(table, cursor) && listed in page.items && Newer(e, listed) ==> e in page.items
  {
    NewestComeFirst(Descending(Below(table, cursor)), |PageOf(table, cursor, limit).items|);
  }

  lemma NewestComeFirst(all: seq<Entry>, n: nat)
    requires Descends(all) && n <= |all|
    ensures forall e, listed :: e in all && listed in all[..n] && Newer(e, listed) ==> e in all[..n]
  {
    forall e, listed | e in all && listed in all[..n] && Newer(e, listed) ensures e in all[..n] {
      var i :| 0 <= i < |all| && all[i] == e;
      var k :| 0 <= k < n && all[k] == listed;
      assert i < k && all[..n][i] == e;
    }
  }

  lemma PastAnIndex(all: seq<Entry>, k: nat)
    requires Descends(all) && 1 <= k < |all|
    ensures forall e :: e in all[k..] <==> e in all && Newer(all[k - 1], e)
  {
    forall e | e in all && Newer(all[k - 1], e) ensures e in all[k..] {
      var i :| 0 <= i < |all| && all[i] == e;
      assert all[k..][i - k] == e;
    }
  }

  /** Past an entry of the listing are exactly the entries that follow it. */
  lemma PastIsTail(table: set<Entry>, cursor: Option<Entry>, all: seq<Entry>, k: nat)
    requires all == Descending(Below(table, cursor)) && 1 <= k < |all|
    ensures Descending(Below(table, Some(all[k - 1]))) == all[k..]
  {
    var rest := Below(table, Some(all[k - 1]));
    PastAnIndex(all, k);
    assert all[k - 1] in Below(table, cursor);
    forall e ensures e in all[k..] <==> e in rest {
      assert e in all <==> e in Below(table, cursor);
    }
    DescendingIsUnique(Descending(rest), all[k..]);
  }

  /** What a page leaves for later is exactly what is past its cursor. */
  lemma NextPageContinues(table: set<Entry>, cursor: Option<Entry>, limit: nat)
    requires limit >= 1
    ensures var page := PageOf(table, cursor, limit);
            && (page.next.None? ==> page.items == Descending(Below(table, cursor)))
            && (page.next.Some? ==>
                  page.items + Descending(Below(table, page.next)) == Descending(Below(table, cursor)))
  {
    var all := Descending(Below(table, cursor));
    if |all| > limit {
      PastIsTail(table, cursor, all, limit);
      assert all == all[..limit] + all[limit..];
    }
  }

  // ---------- following the cursors ----------

  /** All pages of a table at rest. */
  ghost function Listing(table: set<Entry>, cursor: Option<Entry>, limit: nat): (items: seq<Entry>)
    requires limit >= 1
    decreases |Below(table, cursor)|
  {
    var page := PageOf(table, cursor, limit);
    if page.next.None? then page.items
    else
      PagesShrink(table, cursor, limit);
      page.items + Listing(table, page.next, limit)
  }

  lemma PagesShrink(table: set<Entry>, cursor: Option<Entry>, limit: nat)
    requires limit >= 1 && PageOf(table, cursor, limit).next.Some?
    ensures |Below(table, PageOf(table, cursor, limit).next)| < |Below(table, cursor)|
  {
    NextPageContinues(table, cursor, limit);
  }

  /** From any cursor, following `next` ends, and the pages together are the filtered documents, newest first, each once. */
  lemma {:induction false} ListingIsComplete(table: set<Entry>, cursor: Option<Entry>, limit: nat)
    requires limit >= 1
    ensures Listing(table, cursor, limit) == Descending(Below(table, cursor))
    ensures cursor.None? ==> forall e :: e in Listing(table, cursor, limit) <==> e in table
    ensures var items := Listing(table, cursor, limit);
            forall i, j :: 0 <= i < j < |items| ==>
              || items[j].createdAt < items[i].createdAt
              || (items[j].createdAt == items[i].createdAt && items[j].id < items[i].id)
    decreases |Below(table, cursor)|
  {
    NextPageContinues(table, cursor, limit);
    var page := PageOf(table, cursor, limit);
    if page.next.Some? {
      PagesShrink(table, cursor, limit);
      ListingIsComplete(table, page.next, limit);
    }
  }

  /** The pages read from a table that may be a different one at every request, until the first without a cursor. */
  ghost function Walk(tables: seq<set<Entry>>, cursor: Option<Entry>, limit: nat): seq<Page>
    requires limit >= 1
    decreases |tables|
  {
    if tables == [] then []
    else
      var page := PageOf(tables[0], cursor, limit);
      if page.next.None? then [page] else [page] + Walk(tables[1..], page.next, limit)
  }

  ghost function Items(pages: seq<Page>): seq<Entry> {
    if pages == [] then [] else pages[0].items + Items(pages[1..])
  }

  ghost predicate Finished(pages: seq<Page>) {
    pages != [] && pages[|pages| - 1].next.None?
  }

  /**
   However the table changes between requests, a walk lists strictly descending entries past its cursor, each from the
   table of its page; a finished walk misses nothing that was there throughout. So newer documents, inserted while
   the walk is under way, make it neither skip nor repeat.
   */
  lemma {:induction false} WalkNeitherSkipsNorRepeats(tables: seq<set<Entry>>, cursor: Option<Entry>, limit: nat)
    requires limit >= 1
    ensures var pages := Walk(tables, cursor, limit);
            && |pages| <= |tables|
            && Descends(Items(pages))
            && (forall e :: e in Items(pages) ==> Past(cursor, e))
            && (forall k, e :: 0 <= k < |pages| && e in pages[k].items ==> e in tables[k])
            && (Finished(pages) ==>
                  forall e :: Past(cursor, e) && (forall k :: 0 <= k < |pages| ==> e in tables[k]) ==> e in Items(pages))
    decreases |tables|
  {
    if tables != [] {
      var page := PageOf(tables[0], cursor, limit);
      NextPageContinues(tables[0], cursor, limit);
      if page.next.None? {
        assert Items([page]) == page.items;
      } else {
        var rest := Walk(tables[1..], page.next, limit);
        WalkNeitherSkipsNorRepeats(tables[1..], page.next, limit);
        WalkStep(tables, cursor, limit, page, rest);
      }
    }
  }

  lemma ItemsDescend(cursor: Option<Entry>, table: set<Entry>, page: Page, rest: seq<Entry>)
    requires page.next.Some? && page.items != [] && page.next.value == page.items[|page.items| - 1]
    requires Descends(page.items) && forall e :: e in page.items ==> e in Below(table, cursor)
    requires Descends(rest) && forall e :: e in rest ==> Past(page.next, e)
    ensures Descends(page.items + rest) && forall e :: e in page.items + rest ==> Past(cursor, e)
  {
    var all, last := page.items + rest, page.next.value;
    assert last in page.items;
    forall e | e in rest ensures Past(cursor, e) {
      assert Past(page.next, e) && Past(cursor, last);
    }
    forall i, j | 0 <= i < j < |all| ensures Newer(all[i], all[j]) {
      if i < |page.items| <= j {
        assert all[i] == page.items[i] && rest[j - |page.items|] in rest;
        assert i == |page.items| - 1 || Newer(page.items[i], last);
      }
    }
  }

  lemma ItemsComplete(cursor: Option<Entry>, table: set<Entry>, page: Page, limit: nat, e: Entry)
    requires limit >= 1 && page == PageOf(table, cursor, limit) && page.next.Some?
    requires e in table && Past(cursor, e) && !Past(page.next, e)
    ensures e in page.items
  {
    NextPageContinues(table, cursor, limit);
    assert e in Descending(Below(table, cursor));
  }

  lemma WalkStep(tables: seq<set<Entry>>, cursor: Option<Entry>, limit: nat, page: Page, rest: seq<Page>)
    requires limit >= 1 && tables != [] && page == PageOf(tables[0], cursor, limit) && page.next.Some?
    requires |rest| <= |tables| - 1 && Descends(Items(rest)) && forall e :: e in Items(rest) ==> Past(page.next, e)
    requires forall k, e :: 0 <= k < |rest| && e in rest[k].items ==> e in tables[1..][k]
    requires Finished(rest) ==>
               forall e :: Past(page.next, e) && (forall k :: 0 <= k < |rest| ==> e in tables[1..][k]) ==> e in Items(rest)
    ensures var pages := [page] + rest;
            && Descends(Items(pages))
            && (forall e :: e in Items(pages) ==> Past(cursor, e))
            && (forall k, e :: 0 <= k < |pages| && e in pages[k].items ==> e in tables[k])
            && (Finished(pages) ==>
                  forall e :: Past(cursor, e) && (forall k :: 0 <= k < |pages| ==> e in tables[k]) ==> e in Items(pages))
  {
    var pages := [page] + rest;
    assert pages[1..] == rest;
    assert Items(pages) == page.items + Items(rest);
    ItemsDescend(cursor, tables[0], page, Items(rest));
    forall k, e | 0 <= k < |pages| && e in pages[k].items ensures e in tables[k] {
      if k > 0 {
        assert pages[k] == rest[k - 1] && tables[k] == tables[1..][k - 1];
      }
    }
    if Finished(pages) {
      assert rest != [] && pages[|pages| - 1] == rest[|rest| - 1];
      forall e | Past(cursor, e) && (forall k :: 0 <= k < |pages| ==> e in tables[k]) ensures e in Items(pages) {
        if !Past(page.next, e) {
          ItemsComplete(cursor, tables[0], page, limit, e);
        } else {
          forall k | 0 <= k < |rest| ensures e in tables[1..][k] {
            assert tables[1..][k] == tables[k + 1];
          }
        }
      }
    }
  }
}
