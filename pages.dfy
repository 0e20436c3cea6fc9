/**
 * Concatenation of the pages of a paginated listing, in page order and then in
 * order within a page, with duplicates kept.
 */
module Pages {

  function Flatten<T>(pages: seq<seq<T>>): seq<T>
  {
    if pages == [] then [] else pages[0] + Flatten(pages[1..])
  }

  /** The number of items on all pages together. */
  function TotalSize<T>(pages: seq<seq<T>>): nat
  {
    if pages == [] then 0 else |pages[0]| + TotalSize(pages[1..])
  }

  /** Appending a page appends its items. */
  lemma {:induction false} FlattenAppend<T>(pages: seq<seq<T>>, page: seq<T>)
    ensures Flatten(pages + [page]) == Flatten(pages) + page
  {
    if pages != [] {
      assert (pages + [page])[1..] == pages[1..] + [page];
      FlattenAppend(pages[1..], page);
    }
  }

  /** Every item of every page is kept, duplicates included. */
  lemma {:induction false} FlattenLength<T>(pages: seq<seq<T>>)
    ensures |Flatten(pages)| == TotalSize(pages)
  {
    if pages != [] {
      FlattenLength(pages[1..]);
    }
  }

  /** An item is in the concatenation exactly when it is on some page. */
  lemma {:induction false} FlattenContains<T>(pages: seq<seq<T>>, x: T)
    ensures x in Flatten(pages) <==> exists k :: 0 <= k < |pages| && x in pages[k]
  {
    if pages != [] {
      FlattenContains(pages[1..], x);
      if x in Flatten(pages[1..]) {
        var k :| 0 <= k < |pages[1..]| && x in pages[1..][k];
        assert x in pages[k + 1];
      }
      if exists k :: 0 <= k < |pages| && x in pages[k] {
        var k :| 0 <= k < |pages| && x in pages[k];
        if k > 0 {
          assert x in pages[1..][k - 1];
        }
      }
    }
  }

  /** Item i of page k sits right after the items of the pages before it. */
  lemma {:induction false} FlattenIndex<T>(pages: seq<seq<T>>, k: nat, i: nat)
    requires k < |pages| && i < |pages[k]|
    ensures TotalSize(pages[..k]) + i < |Flatten(pages)|
    ensures Flatten(pages)[TotalSize(pages[..k]) + i] == pages[k][i]
  {
    if k == 0 {
      assert pages[..0] == [];
    } else {
      assert pages[..k][1..] == pages[1..][..k - 1];
      FlattenIndex(pages[1..], k - 1, i);
    }
  }
}
