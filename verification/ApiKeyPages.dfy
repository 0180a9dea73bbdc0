/** Paging through the API key index, `query_api_key_page` of `src/admin/api_keys.rs`. */
module ApiKeyPages {
  import opened Collections
  import opened ByteOrder
  import opened ApiKeyIndex

  const MAX_API_KEY_SEARCH_SCAN: nat := 100_000
  const BATCH: nat := 256

  datatype Generation = Absent | Number(value: int) | Malformed

  datatype Record = Record(createdAt: Bytes, id: Bytes, name: string, requestCount: int, countGeneration: Generation)

  /** One index entry and the record it points at, if that exists. */
  datatype Entry = Entry(key: Bytes, record: Option<Record>)

  type Index = seq<Entry>

  type Filter = Record -> bool

  predicate Sorted(index: Index) {
    forall i, j :: 0 <= i < j < |index| ==> Less(index[i].key, index[j].key)
  }

  /** Every entry is filed under the key of its own record. */
  predicate Filed(index: Index) {
    forall i :: 0 <= i < |index| && index[i].record.Some? ==>
      var r := index[i].record.value;
      NulFree(r.createdAt) && NulFree(r.id) && IndexKey(r.createdAt, r.id) == Some(index[i].key)
      && Representable(Cursor(r.createdAt, r.id))
  }

  /** Entries that make the query fail. */
  predicate Faulty(e: Entry, matches: Filter) {
    e.record.None? || (matches(e.record.value) && e.record.value.countGeneration.Malformed?)
  }

  predicate Hit(e: Entry, matches: Filter) {
    e.record.Some? && matches(e.record.value)
  }

  /** Counts of an older statistics generation are shown as zero. */
  function Shown(r: Record, generation: int): Record {
    r.(requestCount := if r.countGeneration == Number(generation) then r.requestCount else 0)
  }

  /** The matching records of the entries from `from` up to `upto`, in index order. */
  function Found(index: Index, matches: Filter, generation: int, from: nat, upto: nat): seq<Record>
    requires from <= upto <= |index|
    decreases upto
  {
    if from == upto then []
    else
      Found(index, matches, generation, from, upto - 1)
      + if Hit(index[upto - 1], matches) then [Shown(index[upto - 1].record.value, generation)] else []
  }

  function SeekAfter(index: Index, after: Option<Bytes>): (i: nat)
    ensures i <= |index|
  {
    if after.None? || index == [] || Less(after.value, index[0].key) then 0
    else 1 + SeekAfter(index[1..], after)
  }

  lemma {:induction false} SeekAfterEntry(index: Index, k: nat)
    requires Sorted(index) && k < |index|
    ensures SeekAfter(index, Some(index[k].key)) == k + 1
    decreases |index|
  {
    if k == 0 {
      Irreflexive(index[0].key);
      if |index| > 1 {
        assert index[1..][0] == index[1];
      }
    } else {
      Asymmetric(index[0].key, index[k].key);
      SeekAfterEntry(index[1..], k - 1);
    }
  }

  lemma {:induction false} FoundGrows(index: Index, matches: Filter, generation: int, from: nat, mid: nat, upto: nat)
    requires from <= mid <= upto <= |index|
    ensures Found(index, matches, generation, from, upto)
         == Found(index, matches, generation, from, mid) + Found(index, matches, generation, mid, upto)
    decreases upto
  {
    if mid < upto {
      FoundGrows(index, matches, generation, from, mid, upto - 1);
    }
  }

  datatype Error = Invalid | Busy

  datatype Page = Page(rows: seq<Record>, next: Option<Cursor>) | Failed(error: Error)

  /** A clean stretch of the index: no entry of it makes the query fail. */
  predicate Clean(index: Index, matches: Filter, from: nat) {
    forall k :: from <= k < |index| ==> !Faulty(index[k], matches)
  }

  /** The state of the scan: `rows` are the hits between `start` and `at`, one more than `limit` at most. */
  ghost predicate Scanned(index: Index, matches: Filter, generation: int, start: nat, at: nat, rows: seq<Record>, limit: nat) {
    start <= at <= |index| && rows == Found(index, matches, generation, start, at) && |rows| <= limit + 1
    && (|rows| == limit + 1 ==> at > start && Hit(index[at - 1], matches))
    && (forall k :: start <= k < at ==> !Faulty(index[k], matches))
  }

  /** The query reads entry `k`: it is within the scan, and not more rows than the limit were found before it. */
  ghost predicate Reads(index: Index, matches: Filter, generation: int, start: nat, limit: nat, k: nat)
    requires start <= |index|
  {
    start <= k < |index| && k - start < MAX_API_KEY_SEARCH_SCAN && |Found(index, matches, generation, start, k)| <= limit
  }

  /** An entry that is read makes the query fail. */
  ghost predicate Spoilt(index: Index, matches: Filter, generation: int, start: nat, limit: nat)
    requires start <= |index|
  {
    exists k :: 0 <= k < |index| && Reads(index, matches, generation, start, limit, k) && Faulty(index[k], matches)
  }

  /** One batch: reads on from `at` until its end, or until more rows than the limit are there. */
  method ScanBatch(index: Index, matches: Filter, generation: int, ghost start: nat, at: nat, end: nat, rows: seq<Record>, limit: nat)
    returns (at': nat, rows': seq<Record>, failed: bool)
    requires at < end <= |index| && Scanned(index, matches, generation, start, at, rows, limit) && |rows| <= limit
    ensures Scanned(index, matches, generation, start, at', rows', limit)
    ensures failed ==> at' < end && |rows'| <= limit && Faulty(index[at'], matches)
    ensures !failed ==> at < at' <= end
    ensures !failed && |rows'| <= limit ==> at' == end
  {
    at', rows', failed := at, rows, false;
    while at' < end && |rows'| <= limit
      invariant at <= at' <= end && Scanned(index, matches, generation, start, at', rows', limit)
      invariant |rows'| > limit ==> at < at'
    {
      var record := index[at'].record;
      if record.None? {
        assert Faulty(index[at'], matches);
        return at', rows', true;
      }
      if matches(record.value) {
        if record.value.countGeneration.Malformed? {
          assert Faulty(index[at'], matches);
          return at', rows', true;
        }
        rows' := rows' + [Shown(record.value, generation)];
      }
      at' := at' + 1;
    }
  }

  /** Enough matches within the first 100,000 entries, or fewer entries than that. */
  predicate WithinScan(index: Index, matches: Filter, generation: int, start: nat, limit: nat)
    requires start <= |index|
  {
    |index| - start < MAX_API_KEY_SEARCH_SCAN
    || |Found(index, matches, generation, start, start + MAX_API_KEY_SEARCH_SCAN)| > limit
  }

  /** The first `limit` matches after `start`, and a cursor at the last of them when there are more. */
  ghost predicate IsPage(index: Index, matches: Filter, generation: int, start: nat, limit: nat, page: Page)
    requires start <= |index|
  {
    var all := Found(index, matches, generation, start, |index|);
    page.Page? &&
    if |all| <= limit then page.rows == all && page.next.None?
    else page.rows == all[..limit] && page.next == if limit == 0 then None else Some(Cursor(all[limit - 1].createdAt, all[limit - 1].id))
  }

  /** Where the page begins: just after the cursor. */
  function StartOf(index: Index, cursor: Option<Cursor>): (start: Option<nat>)
    requires cursor.Some? ==> IsText(cursor.value.createdAt) && IsText(cursor.value.id)
    ensures start.Some? ==> start.value <= |index|
  {
    if cursor.None? then Some(0)
    else
      var after := IndexKey(cursor.value.createdAt, cursor.value.id);
      if after.None? then None else Some(SeekAfter(index, after))
  }

  /** What the query returns for a page that begins at `start`. */
  ghost predicate Answers(index: Index, matches: Filter, generation: int, start: nat, limit: nat, page: Page)
    requires start <= |index|
  {
    && (page == Failed(Invalid) <==> Spoilt(index, matches, generation, start, limit))
    && (!Spoilt(index, matches, generation, start, limit) ==>
          if WithinScan(index, matches, generation, start, limit) then IsPage(index, matches, generation, start, limit, page)
          else page == Failed(Busy))
  }

  lemma NothingSpoilt(index: Index, matches: Filter, generation: int, start: nat, at: nat, rows: seq<Record>, limit: nat)
    requires Scanned(index, matches, generation, start, at, rows, limit)
    requires |rows| <= limit ==> at == |index| || at - start >= MAX_API_KEY_SEARCH_SCAN
    ensures !Spoilt(index, matches, generation, start, limit)
  {
    forall k | start <= k < |index| && Reads(index, matches, generation, start, limit, k) ensures !Faulty(index[k], matches) {
      if k >= at {
        FoundGrows(index, matches, generation, start, at, k);
      }
    }
  }

  lemma EnoughRows(index: Index, matches: Filter, generation: int, start: nat, at: nat, limit: nat)
    requires start <= at <= |index| && at - start <= MAX_API_KEY_SEARCH_SCAN
    requires |Found(index, matches, generation, start, at)| > limit
    ensures WithinScan(index, matches, generation, start, limit)
  {
    if |index| - start >= MAX_API_KEY_SEARCH_SCAN {
      FoundGrows(index, matches, generation, start, at, start + MAX_API_KEY_SEARCH_SCAN);
    }
  }

  method QueryPage(index: Index, matches: Filter, generation: int, cursor: Option<Cursor>, limit: nat) returns (page: Page)
    requires Sorted(index) && (cursor.Some? ==> IsText(cursor.value.createdAt) && IsText(cursor.value.id))
    ensures StartOf(index, cursor).None? ==> page == Failed(Invalid)
    ensures StartOf(index, cursor).Some? ==> Answers(index, matches, generation, StartOf(index, cursor).value, limit, page)
  {
    var start := StartOf(index, cursor);
    if start.None? {
      return Failed(Invalid);
    }
    page := QueryFrom(index, matches, generation, start.value, limit);
  }

  /** The scanning loop, in batches of 256 entries. */
  method QueryFrom(index: Index, matches: Filter, generation: int, start: nat, limit: nat) returns (page: Page)
    requires start <= |index|
    ensures Answers(index, matches, generation, start, limit, page)
  {
    var at, rows, exhausted := start, [], false;
    while |rows| <= limit && !exhausted
      invariant Scanned(index, matches, generation, start, at, rows, limit)
      invariant at - start <= MAX_API_KEY_SEARCH_SCAN
      invariant exhausted && |rows| <= limit ==> at == |index|
      invariant |rows| <= limit ==> at - start < MAX_API_KEY_SEARCH_SCAN
      decreases |index| - at, if exhausted then 0 else 1
    {
      var remaining := MAX_API_KEY_SEARCH_SCAN - (at - start);
      var pageLimit := if remaining < BATCH then remaining else BATCH;
      var end := if |index| - at < pageLimit then |index| else at + pageLimit;
      var pageLen := end - at;
      if pageLen == 0 {
        break;
      }
      var failed;
      at, rows, failed := ScanBatch(index, matches, generation, start, at, end, rows, limit);
      if failed {
        assert Reads(index, matches, generation, start, limit, at);
        return Failed(Invalid);
      }
      if pageLen < pageLimit {
        exhausted := true;
      }
      if at - start >= MAX_API_KEY_SEARCH_SCAN && |rows| <= limit {
        NothingSpoilt(index, matches, generation, start, at, rows, limit);
        return Failed(Busy);
      }
    }
    if |rows| > limit {
      EnoughRows(index, matches, generation, start, at, limit);
    }
    NothingSpoilt(index, matches, generation, start, at, rows, limit);
    page := Cut(index, matches, generation, start, at, rows, limit);
  }

  /** Truncates the rows and derives the cursor. */
  method Cut(index: Index, matches: Filter, generation: int, start: nat, at: nat, rows: seq<Record>, limit: nat) returns (page: Page)
    requires Scanned(index, matches, generation, start, at, rows, limit)
    requires |rows| <= limit ==> at == |index|
    ensures IsPage(index, matches, generation, start, limit, page)
  {
    FoundGrows(index, matches, generation, start, at, |index|);
    if |rows| <= limit {
      return Page(rows, None);
    }
    var kept := rows[..limit];
    return Page(kept, if kept == [] then None else Some(Cursor(kept[limit - 1].createdAt, kept[limit - 1].id)));
  }

  // ----- following the cursors -----------------------------------------------------------

  /** The entry behind the n-th match. */
  lemma {:induction false} EntryOfMatch(index: Index, matches: Filter, generation: int, start: nat, end: nat, n: nat)
    returns (k: nat)
    requires start <= end <= |index| && 1 <= n <= |Found(index, matches, generation, start, end)|
    ensures start <= k < end && Hit(index[k], matches)
    ensures Found(index, matches, generation, start, k + 1) == Found(index, matches, generation, start, end)[..n]
    ensures Found(index, matches, generation, start, end)[n - 1] == Shown(index[k].record.value, generation)
    decreases end
  {
    if n <= |Found(index, matches, generation, start, end - 1)| {
      k := EntryOfMatch(index, matches, generation, start, end - 1, n);
    } else {
      k := end - 1;
    }
  }

  /** A cursor made from an entry, sent to the client and back, resumes right after that entry. */
  lemma CursorResumes(index: Index, k: nat)
    requires Sorted(index) && Filed(index) && k < |index| && index[k].record.Some?
    ensures var r := index[k].record.value;
      var cursor := DecodeCursor(EncodeCursor(Cursor(r.createdAt, r.id)));
      cursor == Some(Cursor(r.createdAt, r.id)) && IsText(r.createdAt) && IsText(r.id)
      && StartOf(index, cursor) == Some(k + 1)
  {
    var r := index[k].record.value;
    CursorRoundTripIff(Cursor(r.createdAt, r.id));
    SeekAfterEntry(index, k);
  }

  /** One page of a clean index: the matches up to `end`, and a cursor that resumes there unless that was all. */
  method FollowCursor(index: Index, matches: Filter, generation: int, cursor: Option<Cursor>, limit: nat, ghost start: nat)
    returns (page: Page, ghost end: nat)
    requires Sorted(index) && Filed(index) && Clean(index, matches, 0)
    requires |index| < MAX_API_KEY_SEARCH_SCAN && limit >= 1
    requires cursor.Some? ==> IsText(cursor.value.createdAt) && IsText(cursor.value.id)
    requires StartOf(index, cursor) == Some(start)
    ensures start <= end <= |index| && page.Page? && page.rows == Found(index, matches, generation, start, end)
    ensures page.next.None? ==> end == |index|
    ensures page.next.Some? ==> Resumes(index, DecodeCursor(EncodeCursor(page.next.value)), end) && start < end
  {
    page := QueryPage(index, matches, generation, cursor, limit);
    end := PageEnd(index, matches, generation, start, limit, page);
  }

  /** Where a page ends in the index. */
  lemma PageEnd(index: Index, matches: Filter, generation: int, start: nat, limit: nat, page: Page) returns (end: nat)
    requires Sorted(index) && Filed(index) && limit >= 1 && start <= |index|
    requires IsPage(index, matches, generation, start, limit, page)
    ensures start <= end <= |index| && page.rows == Found(index, matches, generation, start, end)
    ensures page.next.None? ==> end == |index|
    ensures page.next.Some? ==> Resumes(index, DecodeCursor(EncodeCursor(page.next.value)), end) && start < end
  {
    end := |index|;
    if page.next.Some? {
      var k := EntryOfMatch(index, matches, generation, start, |index|, limit);
      CursorResumes(index, k);
      end := k + 1;
    }
  }

  ghost predicate Resumes(index: Index, cursor: Option<Cursor>, at: nat) {
    cursor.Some? && IsText(cursor.value.createdAt) && IsText(cursor.value.id) && StartOf(index, cursor) == Some(at)
  }

  /** A client that follows `next_cursor` until there is none has read every match, each once, in index order. */
  method ListAll(index: Index, matches: Filter, generation: int, limit: nat) returns (rows: seq<Record>)
    requires Sorted(index) && Filed(index) && Clean(index, matches, 0)
    requires |index| < MAX_API_KEY_SEARCH_SCAN && limit >= 1
    ensures rows == Found(index, matches, generation, 0, |index|)
  {
    rows := [];
    var cursor: Option<Cursor> := None;
    ghost var start := 0;
    while true
      invariant start <= |index| && rows == Found(index, matches, generation, 0, start)
      invariant cursor.Some? ==> IsText(cursor.value.createdAt) && IsText(cursor.value.id)
      invariant StartOf(index, cursor) == Some(start)
      decreases |index| - start
    {
      var page, end := FollowCursor(index, matches, generation, cursor, limit, start);
      FoundGrows(index, matches, generation, 0, start, end);
      rows := rows + page.rows;
      if page.next.None? {
        break;
      }
      cursor := DecodeCursor(EncodeCursor(page.next.value));
      start := end;
    }
  }

  /** The listing is in strictly descending (created_at, id) order, so no key is listed twice. */
  lemma ListedNewestFirst(index: Index, matches: Filter, generation: int, i: nat, j: nat)
    requires Sorted(index) && Filed(index)
    requires i < j < |Found(index, matches, generation, 0, |index|)|
    ensures var rows := Found(index, matches, generation, 0, |index|);
      Earlier(rows[j].createdAt, rows[j].id, rows[i].createdAt, rows[i].id)
  {
    var n := EntryOfMatch(index, matches, generation, 0, |index|, j + 1);
    var rows := Found(index, matches, generation, 0, |index|);
    assert Found(index, matches, generation, 0, n + 1) == Found(index, matches, generation, 0, n) + [Shown(index[n].record.value, generation)];
    assert rows[i] == Found(index, matches, generation, 0, n)[i];
    var m := EntryOfMatch(index, matches, generation, 0, n, i + 1);
    var older, newer := index[n].record.value, index[m].record.value;
    IndexOrderIff(older.createdAt, older.id, newer.createdAt, newer.id);
  }

  /** A record is listed exactly when some entry points at it and it matches. */
  lemma {:induction false} ListedIff(index: Index, matches: Filter, generation: int, end: nat, r: Record)
    requires end <= |index|
    ensures r in Found(index, matches, generation, 0, end)
       <==> exists k :: 0 <= k < end && Hit(index[k], matches) && r == Shown(index[k].record.value, generation)
  {
    if end == 0 {
    } else {
      ListedIff(index, matches, generation, end - 1, r);
    }
  }

  /** Every row is the record of an entry, with the count of the current statistics generation or zero. */
  lemma ListedCounts(index: Index, matches: Filter, generation: int, n: nat) returns (k: nat)
    requires n < |Found(index, matches, generation, 0, |index|)|
    ensures k < |index| && Hit(index[k], matches)
    ensures var row, r := Found(index, matches, generation, 0, |index|)[n], index[k].record.value;
      && row.createdAt == r.createdAt && row.id == r.id && row.name == r.name
      && (r.countGeneration == Number(generation) ==> row.requestCount == r.requestCount)
      && (r.countGeneration != Number(generation) ==> row.requestCount == 0)
  {
    k := EntryOfMatch(index, matches, generation, 0, |index|, n + 1);
  }
}
