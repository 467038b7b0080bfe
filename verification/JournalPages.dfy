/** Fetching the journal page by page (agent_journal.py, `build_reply`). */
module JournalPages {
  import opened Wrappers

  /** A journal row: its time and the length of its JSON text. */
  datatype Entry = Entry(ts: int, size: nat)

  type Rows = map<nat, Entry>

  const MAX_REPLY_BYTES := 16000
  const MAX_ROWS := 500
  const ENVELOPE := 400
  const PER_ENTRY := 40

  // ------------------------------------------------------------------
  // One page
  // ------------------------------------------------------------------

  /** Every row number in (from, upper], in order. */
  function Numbers(rows: Rows, from: nat, upper: nat): seq<nat>
    decreases upper - from
  {
    if from >= upper then []
    else (if from + 1 in rows then [from + 1] else []) + Numbers(rows, from + 1, upper)
  }

  /** The highest row number, 0 if there are no rows. */
  function Newest(rows: Rows): nat {
    if rows.Keys == {} then 0 else Highest(rows.Keys)
  }

  function Highest(s: set<nat>): (m: nat)
    requires s != {}
    ensures m in s && forall x :: x in s ==> x <= m
  {
    HasHighest(s);
    var m :| m in s && AtMost(s, m);
    m
  }

  predicate AtMost(s: set<nat>, m: nat) { forall x :: x in s ==> x <= m }

  lemma {:induction false} HasHighest(s: set<nat>)
    requires s != {}
    ensures exists m :: m in s && AtMost(s, m)
  {
    var y :| y in s;
    var rest := s - {y};
    assert forall x :: x in s ==> x == y || x in rest;
    if rest == {} {
      assert AtMost(s, y);
    } else {
      HasHighest(rest);
      var m :| m in rest && AtMost(rest, m);
      HigherOf(s, y, m);
    }
  }

  lemma HigherOf(s: set<nat>, y: nat, m: nat)
    requires y in s && m in s && AtMost(s - {y}, m)
    ensures exists top :: top in s && AtMost(s, top)
  {
    var top := if y > m then y else m;
    assert forall x :: x in s ==> x == y || x in s - {y};
    assert top in s && AtMost(s, top);
  }

  function Upper(rows: Rows, to: Option<nat>): nat {
    if to.None? || to.value > Newest(rows) then Newest(rows) else to.value
  }

  function Select(rows: Rows, from: nat, upper: nat): seq<nat> {
    var all := Numbers(rows, from, upper);
    if |all| <= MAX_ROWS then all else all[..MAX_ROWS]
  }

  predicate AllIn(numbers: seq<nat>, rows: Rows) { forall i :: 0 <= i < |numbers| ==> numbers[i] in rows }

  /** The size estimate of a reply holding these rows. */
  function Estimate(numbers: seq<nat>, rows: Rows): nat
    requires AllIn(numbers, rows)
  {
    if numbers == [] then ENVELOPE
    else Estimate(numbers[..|numbers| - 1], rows) + rows[numbers[|numbers| - 1]].size + PER_ENTRY
  }

  datatype Page = Page(entries: seq<nat>, more: bool)

  /** The rows a page takes of those selected: as many as the size allows, and at least one if there is any. */
  ghost predicate Fills(entries: seq<nat>, selected: seq<nat>, rows: Rows, maxBytes: nat)
    requires AllIn(selected, rows)
  {
    && entries <= selected && AllIn(entries, rows)
    && (entries == [] ==> selected == [])
    && (|entries| <= 1 || Estimate(entries, rows) <= maxBytes)
    && (0 < |entries| < |selected| ==> Estimate(selected[..|entries| + 1], rows) > maxBytes)
  }

  /** What the two queries behind a page see: the highest number is asked first, then the rows; a record or a prune
      may fall between them. */
  datatype Seen = Seen(counted: Rows, rows: Rows)

  /** A page of a journal: consecutive rows after `from`, and whether rows up to the range's end may be left. */
  ghost predicate PageOf(page: Page, j: Seen, from: nat, to: Option<nat>, maxBytes: nat) {
    var upper := Upper(j.counted, to);
    var selected := Select(j.rows, from, upper);
    && AllIn(selected, j.rows) && Fills(page.entries, selected, j.rows, maxBytes)
    && (page.more <==> page.entries != [] && page.entries[|page.entries| - 1] < upper)
  }

  predicate Ascending(s: seq<nat>, from: nat, upper: nat) {
    && (forall i :: 0 <= i < |s| ==> from < s[i] <= upper)
    && (forall i, j :: 0 <= i < j < |s| ==> s[i] < s[j])
  }

  lemma AscendingConcat(a: seq<nat>, b: seq<nat>, from: nat, mid: nat, upper: nat)
    requires Ascending(a, from, mid) && Ascending(b, mid, upper) && from <= mid <= upper
    ensures Ascending(a + b, from, upper)
  {
  }

  predicate AllOf(r: seq<nat>, rows: Rows, from: nat, upper: nat) {
    Ascending(r, from, upper) && AllIn(r, rows) && forall s :: s in rows && from < s <= upper ==> s in r
  }

  lemma AllOfCons(rest: seq<nat>, rows: Rows, from: nat, upper: nat)
    requires from < upper && AllOf(rest, rows, from + 1, upper)
    ensures from + 1 in rows ==> AllOf([from + 1] + rest, rows, from, upper)
    ensures from + 1 !in rows ==> AllOf(rest, rows, from, upper)
  {
  }

  lemma {:induction false} NumbersAre(rows: Rows, from: nat, upper: nat)
    ensures AllOf(Numbers(rows, from, upper), rows, from, upper)
    decreases upper - from
  {
    if from < upper {
      NumbersAre(rows, from + 1, upper);
      AllOfCons(Numbers(rows, from + 1, upper), rows, from, upper);
      assert [] + Numbers(rows, from + 1, upper) == Numbers(rows, from + 1, upper);
    }
  }

  /** One row more than the first `i`. */
  lemma EstimateStep(selected: seq<nat>, rows: Rows, i: nat)
    requires AllIn(selected, rows) && i < |selected|
    ensures selected[..i] + [selected[i]] == selected[..i + 1]
    ensures AllIn(selected[..i], rows) && AllIn(selected[..i + 1], rows)
    ensures Estimate(selected[..i + 1], rows) == Estimate(selected[..i], rows) + rows[selected[i]].size + PER_ENTRY
  {
    assert selected[..i + 1][..i] == selected[..i];
  }

  method FillPage(selected: seq<nat>, rows: Rows, maxBytes: nat) returns (entries: seq<nat>)
    requires AllIn(selected, rows)
    ensures Fills(entries, selected, rows, maxBytes)
  {
    entries := [];
    var size := ENVELOPE;
    for i := 0 to |selected|
      invariant entries == selected[..i]
      invariant AllIn(entries, rows)
      invariant size == Estimate(entries, rows)
      invariant |entries| <= 1 || size <= maxBytes
    {
      var length := rows[selected[i]].size + PER_ENTRY;
      EstimateStep(selected, rows, i);
      if entries != [] && size + length > maxBytes {
        return;
      }
      entries, size := entries + [selected[i]], size + length;
    }
  }

  method BuildReply(j: Seen, from: nat, to: Option<nat>, maxBytes: nat := MAX_REPLY_BYTES) returns (page: Page)
    ensures PageOf(page, j, from, to, maxBytes)
  {
    var upper := Upper(j.counted, to);
    var selected := Select(j.rows, from, upper);
    NumbersAre(j.rows, from, upper);
    SelectIn(j.rows, from, upper);
    var entries := FillPage(selected, j.rows, maxBytes);
    var lastSent := if entries != [] then entries[|entries| - 1] else upper;
    return Page(entries, lastSent < upper);
  }

  lemma SelectIn(rows: Rows, from: nat, upper: nat)
    requires AllIn(Numbers(rows, from, upper), rows)
    ensures AllIn(Select(rows, from, upper), rows)
  {
  }

  /** A number the request reaches to: up to `to` if given, and not above the highest one counted. */
  ghost predicate Reaches(counted: Rows, to: Option<nat>, s: nat) {
    (to.Some? ==> s <= to.value) && exists t :: t in counted && s <= t
  }

  ghost predicate AskedFor(j: Seen, from: nat, to: Option<nat>, s: nat) {
    s in j.rows && from < s && Reaches(j.counted, to, s)
  }

  lemma UpperMeans(counted: Rows, to: Option<nat>, s: nat)
    requires s > 0
    ensures s <= Upper(counted, to) <==> Reaches(counted, to, s)
  {
    if counted.Keys != {} {
      assert Newest(counted) in counted && forall t :: t in counted ==> t <= Newest(counted);
    }
  }

  function SizeSum(numbers: seq<nat>, rows: Rows): nat
    requires AllIn(numbers, rows)
  {
    if numbers == [] then 0
    else SizeSum(numbers[..|numbers| - 1], rows) + rows[numbers[|numbers| - 1]].size
  }

  lemma {:induction false} EstimateIs(numbers: seq<nat>, rows: Rows)
    requires AllIn(numbers, rows)
    ensures Estimate(numbers, rows) == 400 + SizeSum(numbers, rows) + 40 * |numbers|
  {
    if numbers != [] {
      EstimateIs(numbers[..|numbers| - 1], rows);
    }
  }

  /** What is selected for a page: rows asked for, in order, at most 500, and none before another is left out. */
  lemma SelectedAre(j: Seen, from: nat, to: Option<nat>)
    ensures var selected := Select(j.rows, from, Upper(j.counted, to));
            && AllIn(selected, j.rows) && |selected| <= 500
            && (forall i, k :: 0 <= i < k < |selected| ==> selected[i] < selected[k])
            && (forall s :: s in selected ==> AskedFor(j, from, to, s))
            && (forall s, e :: AskedFor(j, from, to, s) && e in selected && s <= e ==> s in selected)
            && (forall s :: AskedFor(j, from, to, s) && s !in selected ==> |selected| == 500)
  {
    var upper := Upper(j.counted, to);
    var all := Numbers(j.rows, from, upper);
    var selected := Select(j.rows, from, upper);
    NumbersAre(j.rows, from, upper);
    forall s: nat ensures s in all <==> AskedFor(j, from, to, s) {
      if s > 0 {
        UpperMeans(j.counted, to, s);
      }
    }
    PrefixRises(selected, all);
  }

  lemma PrefixRises(a: seq<nat>, all: seq<nat>)
    requires a <= all && forall i, k :: 0 <= i < k < |all| ==> all[i] < all[k]
    ensures forall i, k :: 0 <= i < k < |a| ==> a[i] < a[k]
    ensures forall s :: s in a ==> s in all
    ensures forall s, e :: s in all && e in a && s <= e ==> s in a
  {
    forall s, e | s in all && e in a && s <= e ensures s in a {
      var i :| 0 <= i < |all| && all[i] == s;
      var k :| 0 <= k < |a| && a[k] == e;
      assert i <= k && a[i] == s;
    }
  }

  /** A page in the request's own terms: rows asked for, in order and none before another left out; at most 500; it says
      that there may be more exactly if numbers beyond its last row are asked for. */
  lemma PageMeans(page: Page, j: Seen, from: nat, to: Option<nat>, maxBytes: nat)
    requires PageOf(page, j, from, to, maxBytes)
    ensures |page.entries| <= 500 && forall i, k :: 0 <= i < k < |page.entries| ==> page.entries[i] < page.entries[k]
    ensures forall s :: s in page.entries ==> AskedFor(j, from, to, s)
    ensures forall s, e :: AskedFor(j, from, to, s) && e in page.entries && s <= e ==> s in page.entries
    ensures page.more <==> page.entries != [] && Reaches(j.counted, to, page.entries[|page.entries| - 1] + 1)
  {
    SelectedAre(j, from, to);
    PrefixRises(page.entries, Select(j.rows, from, Upper(j.counted, to)));
    if page.entries != [] {
      UpperMeans(j.counted, to, page.entries[|page.entries| - 1] + 1);
    }
  }

  /** One row more, `next`, and the reply would be too long. */
  ghost predicate TooLong(entries: seq<nat>, rows: Rows, next: nat, maxBytes: nat) {
    && AllIn(entries, rows) && next in rows
    && 400 + SizeSum(entries, rows) + rows[next].size + 40 * (|entries| + 1) > maxBytes
  }

  /** And why it ends before a row asked for: it has 500 rows, or the next row would make it too long; one it always
      holds. */
  lemma PageEnds(page: Page, j: Seen, from: nat, to: Option<nat>, maxBytes: nat, s: nat)
    requires PageOf(page, j, from, to, maxBytes) && AskedFor(j, from, to, s) && s !in page.entries
    ensures page.entries != []
    ensures |page.entries| == 500
            || exists next: nat :: AskedFor(j, from, to, next) && next !in page.entries
                                   && TooLong(page.entries, j.rows, next, maxBytes)
  {
    var selected := Select(j.rows, from, Upper(j.counted, to));
    SelectedAre(j, from, to);
    var n := |page.entries|;
    if n < |selected| {
      PageOverflows(page.entries, selected, j.rows, maxBytes);
      NotYet(page.entries, selected);
      assert selected[n] in selected;
    }
  }

  lemma NotYet(a: seq<nat>, all: seq<nat>)
    requires a <= all && |a| < |all| && forall i, k :: 0 <= i < k < |all| ==> all[i] < all[k]
    ensures all[|a|] !in a
  {
  }

  lemma PageOverflows(entries: seq<nat>, selected: seq<nat>, rows: Rows, maxBytes: nat)
    requires AllIn(selected, rows) && Fills(entries, selected, rows, maxBytes) && |entries| < |selected|
    ensures entries != [] && TooLong(entries, rows, selected[|entries|], maxBytes)
  {
    EstimateStep(selected, rows, |entries|);
    EstimateIs(entries, rows);
    assert entries == selected[..|entries|];
  }

  // ------------------------------------------------------------------
  // Following `more`
  // ------------------------------------------------------------------

  function Last(s: seq<nat>): nat
    requires s != []
  {
    s[|s| - 1]
  }

  /** Pages fetched one after the other, each from where the last one ended; `journals[i]` is what the journal held
      when page i was built. The client stops at the first page without `more`. */
  ghost predicate Followed(pages: seq<Page>, journals: seq<Seen>, from: nat, to: nat, maxBytes: nat)
    decreases pages
  {
    pages != [] ==>
      && journals != [] && PageOf(pages[0], journals[0], from, Some(to), maxBytes)
      && if !pages[0].more then |pages| == 1
         else Followed(pages[1..], journals[1..], Last(pages[0].entries), to, maxBytes)
  }

  function Entries(pages: seq<Page>): seq<nat> {
    if pages == [] then [] else pages[0].entries + Entries(pages[1..])
  }

  predicate Complete(pages: seq<Page>) { pages != [] && !pages[|pages| - 1].more }

  /** Row `s` is seen by both queries of each of the first `n` pages. */
  predicate Throughout(journals: seq<Seen>, n: nat, s: nat)
    requires n <= |journals|
  {
    n == 0 || (s in journals[0].counted && s in journals[0].rows && Throughout(journals[1..], n - 1, s))
  }

  /** Where the next page starts, and that no row of the range is skipped. */
  ghost predicate Moves(page: Page, j: Seen, from: nat, to: nat) {
    && Ascending(page.entries, from, to)
    && (page.more ==> page.entries != [] && from < Last(page.entries) <= to
                      && Ascending(page.entries, from, Last(page.entries)))
    && (forall s :: s in j.counted && s in j.rows && from < s <= to && s !in page.entries ==>
          page.more && Last(page.entries) < s)
  }

  lemma EntriesPrefix(page: Page, j: Seen, from: nat, to: nat, maxBytes: nat)
    requires PageOf(page, j, from, Some(to), maxBytes)
    ensures var all := Numbers(j.rows, from, Upper(j.counted, Some(to)));
            page.entries <= all && (page.entries == [] ==> all == [])
  {
  }

  lemma PageMoves(page: Page, j: Seen, from: nat, to: nat, maxBytes: nat)
    requires PageOf(page, j, from, Some(to), maxBytes)
    ensures Moves(page, j, from, to)
  {
    var upper := Upper(j.counted, Some(to));
    NumbersAre(j.rows, from, upper);
    EntriesPrefix(page, j, from, to, maxBytes);
    PrefixMoves(page, Numbers(j.rows, from, upper), j, from, upper, to);
  }

  lemma PrefixMoves(page: Page, all: seq<nat>, j: Seen, from: nat, upper: nat, to: nat)
    requires AllOf(all, j.rows, from, upper) && page.entries <= all && (page.entries == [] ==> all == [])
    requires page.more <==> page.entries != [] && Last(page.entries) < upper
    requires upper <= to && forall s :: s in j.counted && s <= to ==> s <= upper
    ensures Moves(page, j, from, to)
  {
    PrefixAscending(page.entries, all, from, upper);
    forall s | s in j.counted && s in j.rows && from < s <= to && s !in page.entries
      ensures page.more && Last(page.entries) < s
    {
      assert s in all;
      LaterThanPrefix(page.entries, all, s);
    }
  }

  lemma PrefixAscending(r: seq<nat>, all: seq<nat>, from: nat, upper: nat)
    requires r <= all && Ascending(all, from, upper)
    ensures Ascending(r, from, upper) && (r != [] ==> from < Last(r) <= upper && Ascending(r, from, Last(r)))
  {
  }

  lemma LaterThanPrefix(r: seq<nat>, all: seq<nat>, s: nat)
    requires r <= all && s in all && s !in r && r != []
    requires forall i, j :: 0 <= i < j < |all| ==> all[i] < all[j]
    ensures Last(r) < s
  {
  }

  /** Every row of the range that was there throughout is among `e`. */
  ghost predicate Covers(e: seq<nat>, journals: seq<Seen>, n: nat, from: nat, to: nat)
    requires n <= |journals|
  {
    forall s :: from < s <= to && Throughout(journals, n, s) ==> s in e
  }

  lemma LastPageCovers(page: Page, journals: seq<Seen>, n: nat, from: nat, to: nat)
    requires 0 < n <= |journals| && Moves(page, journals[0], from, to) && !page.more
    ensures Covers(page.entries, journals, n, from, to)
  {
  }

  lemma PageCovers(page: Page, rest: seq<nat>, journals: seq<Seen>, n: nat, from: nat, to: nat)
    requires 0 < n <= |journals| && Moves(page, journals[0], from, to) && page.more
    requires Covers(rest, journals[1..], n - 1, Last(page.entries), to)
    ensures Covers(page.entries + rest, journals, n, from, to)
  {
    forall s | from < s <= to && Throughout(journals, n, s) ensures s in page.entries || s in rest {
      assert Throughout(journals[1..], n - 1, s);
    }
  }

  /** Whatever is recorded or pruned between the pages, and between the two queries of a page: nothing repeats or
      comes out of order, and a complete fetch holds every row of the range that was there throughout. */
  lemma {:induction false} FetchesInOrder(pages: seq<Page>, journals: seq<Seen>, from: nat, to: nat, maxBytes: nat)
    requires Followed(pages, journals, from, to, maxBytes) && |journals| >= |pages| && from <= to
    ensures Ascending(Entries(pages), from, to)
    ensures Complete(pages) ==> Covers(Entries(pages), journals, |pages|, from, to)
    decreases pages
  {
    if pages != [] {
      var page := pages[0];
      PageMoves(page, journals[0], from, to, maxBytes);
      if page.more {
        var last, rest := Last(page.entries), Entries(pages[1..]);
        FetchesInOrder(pages[1..], journals[1..], last, to, maxBytes);
        AscendingConcat(page.entries, rest, from, last, to);
        if Complete(pages) {
          PageCovers(page, rest, journals, |pages|, from, to);
        }
      } else {
        assert Entries(pages) == page.entries;
        LastPageCovers(page, journals, |pages|, from, to);
      }
    }
  }

  /** Every fetched row was in the journal of the page that brought it. */
  lemma {:induction false} FetchedWereThere(pages: seq<Page>, journals: seq<Seen>, from: nat, to: nat, maxBytes: nat)
    requires Followed(pages, journals, from, to, maxBytes) && |journals| >= |pages|
    ensures forall k :: 0 <= k < |pages| ==> AllIn(pages[k].entries, journals[k].rows)
    decreases pages
  {
    if pages != [] && pages[0].more {
      FetchedWereThere(pages[1..], journals[1..], Last(pages[0].entries), to, maxBytes);
      forall k | 0 < k < |pages| ensures AllIn(pages[k].entries, journals[k].rows) {
        assert pages[k] == pages[1..][k - 1] && journals[k] == journals[1..][k - 1];
      }
    }
  }

  /** Each page with `more` moves on: a fetch of (from, to] is complete after at most to - from pages. */
  lemma {:induction false} FetchEnds(pages: seq<Page>, journals: seq<Seen>, from: nat, to: nat, maxBytes: nat)
    requires Followed(pages, journals, from, to, maxBytes) && pages != [] && from <= to
    ensures !Complete(pages) ==> |pages| < to - from
    decreases pages
  {
    PageGoesOn(pages[0], journals[0], from, to, maxBytes);
    if pages[0].more && |pages| > 1 {
      FetchEnds(pages[1..], journals[1..], Last(pages[0].entries), to, maxBytes);
    }
  }

  lemma PageGoesOn(page: Page, j: Seen, from: nat, to: nat, maxBytes: nat)
    requires PageOf(page, j, from, Some(to), maxBytes)
    ensures page.more ==> page.entries != [] && from < Last(page.entries) < to
  {
    PageMoves(page, j, from, to, maxBytes);
  }

  lemma {:induction false} SameThroughout(journals: seq<Seen>, n: nat, rows: Rows, s: nat)
    requires n <= |journals| && (forall i :: 0 <= i < |journals| ==> journals[i] == Seen(rows, rows)) && s in rows
    ensures Throughout(journals, n, s)
    decreases n
  {
    if n > 0 {
      SameThroughout(journals[1..], n - 1, rows, s);
    }
  }

  /** From a journal nothing touches, a complete fetch is exactly the rows of the range, once each and in order. */
  lemma FetchesExactly(pages: seq<Page>, journals: seq<Seen>, rows: Rows, from: nat, to: nat, maxBytes: nat)
    requires Followed(pages, journals, from, to, maxBytes) && |journals| >= |pages| && from <= to
    requires (forall i :: 0 <= i < |journals| ==> journals[i] == Seen(rows, rows)) && Complete(pages)
    ensures Entries(pages) == Numbers(rows, from, to)
  {
    FetchesInOrder(pages, journals, from, to, maxBytes);
    FetchedWereThere(pages, journals, from, to, maxBytes);
    NumbersAre(rows, from, to);
    var got, all := Entries(pages), Numbers(rows, from, to);
    forall s ensures s in got <==> s in all {
      if s in got {
        EntryOfPage(pages, s);
        var k :| 0 <= k < |pages| && s in pages[k].entries;
        assert journals[k].rows == rows;
      }
      if s in all {
        SameThroughout(journals, |pages|, rows, s);
      }
    }
    SameAscending(got, all, from, to);
  }

  lemma {:induction false} EntryOfPage(pages: seq<Page>, s: nat)
    requires s in Entries(pages)
    ensures exists k :: 0 <= k < |pages| && s in pages[k].entries
  {
    if s !in pages[0].entries {
      EntryOfPage(pages[1..], s);
      var k :| 0 <= k < |pages| - 1 && s in pages[1..][k].entries;
      assert s in pages[k + 1].entries;
    }
  }

  /** Two ascending sequences of the same members are the same. */
  lemma {:induction false} SameAscending(a: seq<nat>, b: seq<nat>, from: nat, upper: nat)
    requires Ascending(a, from, upper) && Ascending(b, from, upper) && forall s :: s in a <==> s in b
    ensures a == b
    decreases a
  {
    if a == [] {
      assert forall i :: 0 <= i < |b| ==> b[i] in b;
    } else {
      assert a[0] in a && a[0] in b && b[0] in b && b[0] in a;
      var i :| 0 <= i < |a| && a[i] == b[0];
      var j :| 0 <= j < |b| && b[j] == a[0];
      assert a[0] == b[0];
      forall s ensures s in a[1..] <==> s in b[1..] {
        assert s in a[1..] ==> s in a && s > a[0];
        assert s in b[1..] ==> s in b && s > b[0];
      }
      SameAscending(a[1..], b[1..], a[0], upper);
    }
  }
}
