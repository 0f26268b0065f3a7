/** The bounded walk over a partition (internal/controlplane/bounded_query.go). */
module PartitionWalk {
  import opened Base

  /** What a page query answers: an error, items without paging data, or items with it; the next cursor is only ever
      used with its surrounding white space removed, and is given so here. */
  datatype Answer<T> = Failed | Bare(items: seq<T>) | Paged(items: seq<T>, hasMore: bool, next: string)

  predicate Ends<T>(a: Answer<T>) { a.Bare? || (a.Paged? && (!a.hasMore || a.next == "")) }

  predicate Continues<T>(a: Answer<T>, cursor: string) { a.Paged? && a.hasMore && cursor == a.next && cursor != "" }

  /** The walk read these cursors one after the other. */
  predicate Follows<T>(query: string -> Answer<T>, cursors: seq<string>) {
    && (cursors != [] ==> cursors[0] == "")
    && forall i :: 0 <= i < |cursors| - 1 ==> Continues(query(cursors[i]), cursors[i + 1])
  }

  /** All items read from these cursors, in order. */
  function Items<T>(query: string -> Answer<T>, cursors: seq<string>): seq<T> {
    if cursors == [] then []
    else
      var a := query(cursors[|cursors| - 1]);
      Items(query, cursors[..|cursors| - 1]) + if a.Failed? then [] else a.items
  }

  /** The walk follows the cursors. It returns every item it read if the last page ended the walk, and an error if the
      last query failed or the page limit was used up. */
  predicate Outcome<T(==)>(query: string -> Answer<T>, maxPages: int, read: seq<string>, r: Option<seq<T>>) {
    && Follows(query, read) && (read == [] || |read| <= maxPages)
    && match r
       case Some(out) => read != [] && Ends(query(read[|read| - 1])) && out == Items(query, read)
       case None =>
         || (|read| >= maxPages && (read == [] || !Ends(query(read[|read| - 1]))))
         || (read != [] && query(read[|read| - 1]).Failed?)
  }

  method CollectPartitionAll<T(==)>(query: string -> Answer<T>, maxPages: int) returns (r: Option<seq<T>>)
    ensures exists read :: Outcome(query, maxPages, read, r)
  {
    var out, cursor, page := [], "", 0;
    ghost var read: seq<string> := [];
    while true
      invariant page == |read| && (read == [] || page <= maxPages)
      invariant Follows(query, read + [cursor])
      invariant out == Items(query, read)
      invariant read == [] || !Ends(query(read[|read| - 1]))
      decreases maxPages - page
    {
      if page >= maxPages {
        assert Follows(query, read) by { assert read == (read + [cursor])[..page]; }
        assert Outcome(query, maxPages, read, None);
        return None;
      }
      var paged := query(cursor);
      ghost var was := read;
      read := read + [cursor];
      assert read[..|read| - 1] == was;
      if paged.Failed? {
        assert Outcome(query, maxPages, read, None);
        return None;
      }
      out := out + paged.items;
      if paged.Bare? || !paged.hasMore || paged.next == "" {
        assert Outcome(query, maxPages, read, Some(out));
        return Some(out);
      }
      cursor := paged.next;
      assert Follows(query, read + [cursor]);
      page := page + 1;
    }
  }

  lemma {:induction false} SameCursors<T>(query: string -> Answer<T>, a: seq<string>, b: seq<string>, i: nat)
    requires Follows(query, a) && Follows(query, b) && i < |a| && i < |b|
    ensures a[i] == b[i]
  {
    if i > 0 {
      SameCursors(query, a, b, i - 1);
      assert Continues(query(a[i - 1]), a[i]) && Continues(query(b[i - 1]), b[i]);
    }
  }

  lemma LongerContinues<T>(query: string -> Answer<T>, a: seq<string>, b: seq<string>)
    requires Follows(query, a) && Follows(query, b) && 0 < |a| < |b|
    ensures Continues(query(a[|a| - 1]), b[|a|])
  {
    var last := |a| - 1;
    SameCursors(query, a, b, last);
    assert Continues(query(b[last]), b[last + 1]);
  }

  lemma NoLongerWalk<T>(query: string -> Answer<T>, maxPages: int, a: seq<string>, r: Option<seq<T>>, b: seq<string>)
    requires Outcome(query, maxPages, a, r) && Follows(query, b) && (b == [] || |b| <= maxPages)
    ensures |b| <= |a|
  {
    if |b| > |a| > 0 {
      LongerContinues(query, a, b);
    }
  }

  /** The query and the page limit determine the outcome. */
  lemma OutcomeIsUnique<T>(query: string -> Answer<T>, maxPages: int, a: seq<string>, r: Option<seq<T>>,
                           b: seq<string>, q: Option<seq<T>>)
    requires Outcome(query, maxPages, a, r) && Outcome(query, maxPages, b, q)
    ensures a == b && r == q
  {
    NoLongerWalk(query, maxPages, a, r, b);
    NoLongerWalk(query, maxPages, b, q, a);
    forall i | 0 <= i < |a| ensures a[i] == b[i] {
      SameCursors(query, a, b, i);
    }
  }

  // ---------------------------------------------------------------- a partition cut into pages

  /** The number of pages up to the first blank cursor, or all of them. */
  function Reach(cursors: seq<string>, i: nat): (n: nat)
    requires 0 < i <= |cursors|
    ensures i <= n <= |cursors| && (forall j :: i <= j < n ==> cursors[j] != "") && (n < |cursors| ==> cursors[n] == "")
    decreases |cursors| - i
  {
    if i == |cursors| || cursors[i] == "" then i else Reach(cursors, i + 1)
  }

  /** The answer for page i: its items, whether more pages follow, and the cursor of the next one, which may be blank.
      */
  predicate Answers<T(==)>(a: Answer<T>, pages: seq<seq<T>>, cursors: seq<string>, i: nat)
    requires i < |pages| == |cursors|
  {
    && a.Paged? && a.items == pages[i]
    && (a.hasMore <==> i + 1 < |pages|)
    && (i + 1 < |pages| ==> a.next == cursors[i + 1])
  }

  /** The query serves a partition of these pages; pages behind a blank cursor exist but cannot be asked for. */
  predicate Serves<T(==)>(query: string -> Answer<T>, pages: seq<seq<T>>, cursors: seq<string>) {
    && |pages| == |cursors| > 0 && cursors[0] == ""
    && forall i :: 0 <= i < Reach(cursors, 1) ==> Answers(query(cursors[i]), pages, cursors, i)
  }

  function Flatten<T>(pages: seq<seq<T>>): seq<T> {
    if pages == [] then [] else Flatten(pages[..|pages| - 1]) + pages[|pages| - 1]
  }

  lemma {:induction false} ItemsAreFlattened<T>(query: string -> Answer<T>, pages: seq<seq<T>>, cursors: seq<string>,
                                                n: nat)
    requires Serves(query, pages, cursors) && n <= Reach(cursors, 1)
    ensures Items(query, cursors[..n]) == Flatten(pages[..n])
  {
    if n > 0 {
      assert cursors[..n][..n - 1] == cursors[..n - 1] && pages[..n][..n - 1] == pages[..n - 1];
      ItemsAreFlattened(query, pages, cursors, n - 1);
      assert Answers(query(cursors[n - 1]), pages, cursors, n - 1);
    }
  }

  /** Where two walks agree on the pages, they read the same cursors. */
  lemma {:induction false} ReadsThePages<T>(query: string -> Answer<T>, pages: seq<seq<T>>, cursors: seq<string>,
                                            read: seq<string>, i: nat)
    requires Serves(query, pages, cursors) && Follows(query, read) && i < |read|
    ensures i < Reach(cursors, 1) && read[i] == cursors[i]
  {
    if i > 0 {
      ReadsThePages(query, pages, cursors, read, i - 1);
      assert Continues(query(read[i - 1]), read[i]);
      assert Answers(query(cursors[i - 1]), pages, cursors, i - 1);
    }
  }

  /** The walk over a served partition succeeds exactly when the pages up to the first blank cursor fit into the limit,
      and then returns exactly their items; it never reads more pages than the limit. */
  lemma WalkServed<T>(query: string -> Answer<T>, maxPages: int, pages: seq<seq<T>>, cursors: seq<string>,
                      read: seq<string>, r: Option<seq<T>>)
    requires Serves(query, pages, cursors) && Outcome(query, maxPages, read, r)
    ensures r == if Reach(cursors, 1) <= maxPages then Some(Flatten(pages[..Reach(cursors, 1)])) else None
    ensures read == [] || |read| <= maxPages
  {
    var n := Reach(cursors, 1);
    if read != [] {
      var last := |read| - 1;
      forall i | 0 <= i < |read| ensures i < n && read[i] == cursors[i] {
        ReadsThePages(query, pages, cursors, read, i);
      }
      assert read == cursors[..|read|];
      ItemsAreFlattened(query, pages, cursors, |read|);
      assert Answers(query(cursors[last]), pages, cursors, last);
      assert Ends(query(read[last])) <==> |read| == n;
    }
  }

  /** Success means the whole partition if and only if no page that holds items lies behind a blank cursor. */
  lemma CompleteIff<T>(query: string -> Answer<T>, maxPages: int, pages: seq<seq<T>>, cursors: seq<string>,
                       read: seq<string>, r: Option<seq<T>>)
    requires Serves(query, pages, cursors) && Outcome(query, maxPages, read, r) && r.Some?
    ensures r.value == Flatten(pages) <==> forall i :: Reach(cursors, 1) <= i < |pages| ==> pages[i] == []
  {
    var n := Reach(cursors, 1);
    WalkServed(query, maxPages, pages, cursors, read, r);
    FlattenSize(pages, n);
    assert pages[..|pages|] == pages;
  }

  lemma {:induction false} FlattenSize<T>(pages: seq<seq<T>>, n: nat)
    requires n <= |pages|
    ensures |Flatten(pages[..n])| <= |Flatten(pages)|
    ensures Flatten(pages[..n]) == Flatten(pages) <==> forall i :: n <= i < |pages| ==> pages[i] == []
  {
    if n == |pages| {
      assert pages[..n] == pages;
    } else {
      var init := pages[..|pages| - 1];
      FlattenSize(init, n);
      assert init[..n] == pages[..n];
      assert |Flatten(pages)| == |Flatten(init)| + |pages[|pages| - 1]|;
      assert forall i :: n <= i < |init| ==> init[i] == pages[i];
    }
  }

  /** As long as every page but the last hands out a cursor, the walk returns every item in order or an error,
      and it succeeds exactly when the partition fits into the page limit. */
  lemma NeverTruncates<T>(query: string -> Answer<T>, maxPages: int, pages: seq<seq<T>>, cursors: seq<string>,
                          read: seq<string>, r: Option<seq<T>>)
    requires Serves(query, pages, cursors) && Outcome(query, maxPages, read, r)
    requires forall i :: 0 < i < |cursors| ==> cursors[i] != ""
    ensures r == if |pages| <= maxPages then Some(Flatten(pages)) else None
  {
    WalkServed(query, maxPages, pages, cursors, read, r);
    assert pages[..|pages|] == pages;
  }

  /** Two pages of which the first claims more and hands out a blank cursor. */
  function Unresumable(cursor: string): Answer<int> { Paged([1], true, "") }

  /** The walk then succeeds with the first page alone. */
  lemma BlankCursorTruncates(maxPages: int, read: seq<string>, r: Option<seq<int>>)
    requires maxPages >= 1 && Outcome(Unresumable, maxPages, read, r)
    ensures Serves(Unresumable, [[1], [2]], ["", ""]) && r == Some([1]) && Flatten([[1], [2]]) == [1, 2]
  {
    var pages, cursors := [[1], [2]], ["", ""];
    assert Reach(cursors, 1) == 1;
    assert Serves(Unresumable, pages, cursors);
    WalkServed(Unresumable, maxPages, pages, cursors, read, r);
    assert pages[..1] == [[1]] && [[1]][..0] == [];
    assert Flatten([[1]]) == [1];
  }
}
