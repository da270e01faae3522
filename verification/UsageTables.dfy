/** The generated usage index: generate_cpp_usage_tables.py flattens the usage pages into two sorted
    tables, and usage_data.cpp finds names in them by two binary searches. For every list of pages
    with unique ids this is the plain lookup. */
module UsageTables {
  import opened Integers

  datatype UsageDef = UsageDef(id: uint16, name: string, kinds: seq<string>)

  datatype PageDef = PageDef(id: uint16, name: string, usages: seq<UsageDef>)

  datatype UsageRecord = UsageRecord(id: uint16, name: string, kinds: string)

  datatype PageRecord = PageRecord(id: uint16, name: string, first: nat, count: nat)

  datatype Tables = Tables(usages: seq<UsageRecord>, pages: seq<PageRecord>)

  // ---------- sorting by id ----------

  /** Insertion behind the rows with the same key: a stable sort, row by row. */
  function Insert<T>(key: T -> int, rows: seq<T>, row: T): seq<T> {
    if rows == [] || key(row) < key(rows[0]) then [row] + rows else [rows[0]] + Insert(key, rows[1..], row)
  }

  function Sorted<T>(key: T -> int, rows: seq<T>): seq<T> {
    if rows == [] then [] else Insert(key, Sorted(key, rows[..|rows| - 1]), rows[|rows| - 1])
  }

  ghost predicate Ascending<T>(key: T -> int, rows: seq<T>) {
    forall i, j | 0 <= i < j < |rows| :: key(rows[i]) < key(rows[j])
  }

  ghost predicate Unique<T>(key: T -> int, rows: seq<T>) {
    forall i, j | 0 <= i < j < |rows| :: key(rows[i]) != key(rows[j])
  }

  ghost predicate SameRows<T(!new)>(a: seq<T>, b: seq<T>) {
    |a| == |b| && forall row :: row in a <==> row in b
  }

  lemma {:induction false} InsertHolds<T(!new)>(key: T -> int, rows: seq<T>, row: T)
    ensures |Insert(key, rows, row)| == |rows| + 1
    ensures forall other :: other in Insert(key, rows, row) <==> other == row || other in rows
  {
    if rows != [] && key(row) >= key(rows[0]) {
      InsertHolds(key, rows[1..], row);
      assert rows == [rows[0]] + rows[1..];
    }
  }

  lemma {:induction false} InsertAscends<T(!new)>(key: T -> int, rows: seq<T>, row: T)
    requires Ascending(key, rows) && forall i | 0 <= i < |rows| :: key(rows[i]) != key(row)
    ensures Ascending(key, Insert(key, rows, row))
  {
    if rows != [] && key(row) >= key(rows[0]) {
      var tail := rows[1..];
      InsertAscends(key, tail, row);
      InsertHolds(key, tail, row);
      var inserted := Insert(key, tail, row);
      forall j | 0 <= j < |inserted|
        ensures key(rows[0]) < key(inserted[j])
      {
        assert inserted[j] in inserted;
      }
    }
  }

  /** Rows with unique ids come out with strictly ascending ids, all of them and no others. */
  lemma {:induction false} SortedIsAscending<T(!new)>(key: T -> int, rows: seq<T>)
    requires Unique(key, rows)
    ensures Ascending(key, Sorted(key, rows)) && SameRows(Sorted(key, rows), rows)
  {
    hide Insert;
    if rows != [] {
      var init, last := rows[..|rows| - 1], rows[|rows| - 1];
      SortedIsAscending(key, init);
      var before := Sorted(key, init);
      forall i | 0 <= i < |before|
        ensures key(before[i]) != key(last)
      {
        assert before[i] in init;
      }
      InsertAscends(key, before, last);
      InsertHolds(key, before, last);
      assert rows == init + [last];
    }
  }

  lemma OneRowPerId<T>(key: T -> int, rows: seq<T>, a: T, b: T)
    requires Unique(key, rows) && a in rows && b in rows && key(a) == key(b)
    ensures a == b
  {
  }

  // ---------- the generator ----------

  function UsageKey(usage: UsageDef): int { usage.id }

  function PageKey(page: PageDef): int { page.id }

  function Joined(kinds: seq<string>): string {
    if kinds == [] then "" else if |kinds| == 1 then kinds[0]
      else Joined(kinds[..|kinds| - 1]) + "|" + kinds[|kinds| - 1]
  }

  /** The parts of a text between its separators. */
  function Parts(text: string): (parts: seq<string>)
    ensures parts != []
  {
    if text == "" then [""]
    else
      var before, last := Parts(text[..|text| - 1]), text[|text| - 1];
      if last == '|' then before + [""] else before[|before| - 1 := before[|before| - 1] + [last]]
  }

  lemma {:induction false} PartsBehind(text: string, kind: string)
    requires '|' !in kind
    ensures Parts(text + kind)
      == Parts(text)[|Parts(text)| - 1 := Parts(text)[|Parts(text)| - 1] + kind]
  {
    var last := |Parts(text)| - 1;
    if kind == "" {
      assert text + kind == text && Parts(text)[last] + kind == Parts(text)[last];
    } else {
      var init := kind[..|kind| - 1];
      PartsBehind(text, init);
      assert text + kind == text + init + [kind[|kind| - 1]];
      assert (text + kind)[..|text + kind| - 1] == text + init;
      assert kind == init + [kind[|kind| - 1]];
      assert Parts(text)[last] + init + [kind[|kind| - 1]] == Parts(text)[last] + kind;
    }
  }

  /** The kinds of a usage can be read back from the text that the table holds: nothing is lost or
      reordered. */
  lemma {:induction false} JoinedSplits(kinds: seq<string>)
    requires kinds != [] && forall i | 0 <= i < |kinds| :: '|' !in kinds[i]
    ensures Parts(Joined(kinds)) == kinds
  {
    var init, last := kinds[..|kinds| - 1], kinds[|kinds| - 1];
    if init == [] {
      PartsBehind("", last);
      assert "" + last == last;
    } else {
      JoinedSplits(init);
      var text := Joined(init) + "|";
      assert text[..|text| - 1] == Joined(init);
      assert Parts(text) == init + [""];
      PartsBehind(text, last);
      assert [""][0] + last == last;
      assert (init + [""])[|init| := last] == init + [last];
    }
  }

  function Record(usage: UsageDef): UsageRecord {
    UsageRecord(usage.id, usage.name, Joined(usage.kinds))
  }

  function Records(usages: seq<UsageDef>): (records: seq<UsageRecord>)
    ensures |records| == |usages|
  {
    seq(|usages|, i requires 0 <= i < |usages| => Record(usages[i]))
  }

  /** The usage rows of the first `n` pages. */
  function UsageRows(pages: seq<PageDef>, n: nat): seq<UsageRecord>
    requires n <= |pages|
  {
    if n == 0 then [] else UsageRows(pages, n - 1) + Records(Sorted(UsageKey, pages[n - 1].usages))
  }

  function PageRow(pages: seq<PageDef>, n: nat): PageRecord
    requires n < |pages|
  {
    PageRecord(pages[n].id, pages[n].name, |UsageRows(pages, n)|, |Sorted(UsageKey, pages[n].usages)|)
  }

  function PageRows(pages: seq<PageDef>): (rows: seq<PageRecord>)
    ensures |rows| == |pages|
  {
    seq(|pages|, i requires 0 <= i < |pages| => PageRow(pages, i))
  }

  function Generated(pages: seq<PageDef>): Tables {
    var sorted := Sorted(PageKey, pages);
    Tables(UsageRows(sorted, |sorted|), PageRows(sorted))
  }

  /** `main`: nested loops with a running start. */
  method Generate(pages: seq<PageDef>) returns (tables: Tables)
    ensures tables == Generated(pages)
  {
    var sorted := Sorted(PageKey, pages);
    var usageRows: seq<UsageRecord>, pageRows: seq<PageRecord> := [], [];
    for i := 0 to |sorted|
      invariant usageRows == UsageRows(sorted, i)
      invariant pageRows == PageRows(sorted)[..i]
    {
      var start := |usageRows|;
      var usages := Sorted(UsageKey, sorted[i].usages);
      for k := 0 to |usages|
        invariant usageRows == UsageRows(sorted, i) + Records(usages)[..k]
      {
        usageRows := usageRows + [Record(usages[k])];
      }
      assert Records(usages)[..|usages|] == Records(usages);
      pageRows := pageRows + [PageRecord(sorted[i].id, sorted[i].name, start, |usages|)];
    }
    assert PageRows(sorted)[..|sorted|] == PageRows(sorted);
    tables := Tables(usageRows, pageRows);
  }

  // ---------- the search ----------

  /** `binary_find`: in a range with ascending ids, the row with the id, if there is one. */
  method BinaryFind<T>(rows: seq<T>, first: nat, last: nat, id: int, getId: T -> int) returns (found: Option<nat>)
    requires first <= last <= |rows| && Ascending(getId, rows[first..last])
    ensures found.Some? ==> first <= found.value < last && getId(rows[found.value]) == id
    ensures found.None? ==> forall i | first <= i < last :: getId(rows[i]) != id
  {
    var begin, end := first, last;
    while begin < end
      invariant first <= begin <= end <= last
      invariant forall i | first <= i < begin :: getId(rows[i]) < id
      invariant forall i | end <= i < last :: getId(rows[i]) > id
    {
      var middle := begin + (end - begin) / 2;
      var current := getId(rows[middle]);
      assert rows[first..last][middle - first] == rows[middle];
      if current < id {
        forall i | begin <= i <= middle
          ensures getId(rows[i]) < id
        {
          assert rows[first..last][i - first] == rows[i];
        }
        begin := middle + 1;
      } else if current > id {
        forall i | middle <= i < end
          ensures getId(rows[i]) > id
        {
          assert rows[first..last][i - first] == rows[i];
        }
        end := middle;
      } else {
        return Some(middle);
      }
    }
    found := None;
  }

  function PageRecordKey(record: PageRecord): int { record.id }

  function UsageRecordKey(record: UsageRecord): int { record.id }

  ghost predicate UniqueIds(pages: seq<PageDef>) {
    Unique(PageKey, pages) && forall i | 0 <= i < |pages| :: Unique(UsageKey, pages[i].usages)
  }

  /** The usages that a page id names: those of the first page with the id. */
  function UsagesOf(pages: seq<PageDef>, page: uint16): seq<UsageDef> {
    if pages == [] then [] else if pages[0].id == page then pages[0].usages else UsagesOf(pages[1..], page)
  }

  function UsageIn(usages: seq<UsageDef>, usage: uint16): Option<UsageDef> {
    if usages == [] then None else if usages[0].id == usage then Some(usages[0]) else UsageIn(usages[1..], usage)
  }

  /** The plain lookup in the unsorted, nested definition. */
  function PlainLookup(pages: seq<PageDef>, page: uint16, usage: uint16): Option<UsageDef> {
    UsageIn(UsagesOf(pages, page), usage)
  }

  lemma {:induction false} UsagesOfPage(pages: seq<PageDef>, page: uint16)
    ensures (exists p :: p in pages && p.id == page && p.usages == UsagesOf(pages, page))
      || ((forall i | 0 <= i < |pages| :: pages[i].id != page) && UsagesOf(pages, page) == [])
  {
    if pages != [] && pages[0].id != page {
      UsagesOfPage(pages[1..], page);
      if exists p :: p in pages[1..] && p.id == page && p.usages == UsagesOf(pages[1..], page) {
        var p :| p in pages[1..] && p.id == page && p.usages == UsagesOf(pages[1..], page);
        assert p in pages;
      } else {
        forall i | 0 <= i < |pages|
          ensures pages[i].id != page
        {
          if i > 0 {
            assert pages[1..][i - 1] == pages[i];
          }
        }
      }
    } else if pages != [] {
      assert pages[0] in pages;
    }
  }

  lemma {:induction false} UsageInFinds(usages: seq<UsageDef>, usage: uint16)
    ensures match UsageIn(usages, usage)
      case Some(u) => u in usages && u.id == usage
      case None => forall i | 0 <= i < |usages| :: usages[i].id != usage
  {
    if usages != [] && usages[0].id != usage {
      UsageInFinds(usages[1..], usage);
      forall i | 0 <= i < |usages| && UsageIn(usages, usage).None?
        ensures usages[i].id != usage
      {
        if i > 0 {
          assert usages[1..][i - 1] == usages[i];
        }
      }
    }
  }

  /** The plain lookup finds exactly the usage with the id in the page with the id. */
  lemma PlainLookupMeans(pages: seq<PageDef>, page: uint16, usage: uint16, p: PageDef, u: UsageDef)
    requires UniqueIds(pages) && p in pages && p.id == page
    ensures PlainLookup(pages, page, usage) == Some(u) <==> u in p.usages && u.id == usage
  {
    UsagesOfPage(pages, page);
    var q :| q in pages && q.id == page && q.usages == UsagesOf(pages, page);
    OneRowPerId(PageKey, pages, p, q);
    UsageInFinds(p.usages, usage);
    var k :| 0 <= k < |pages| && pages[k] == p;
    if u in p.usages && u.id == usage {
      OneRowPerId(UsageKey, p.usages, u, UsageIn(p.usages, usage).value);
    }
  }

  lemma NoPageNoUsage(pages: seq<PageDef>, page: uint16, usage: uint16)
    requires forall p | p in pages :: p.id != page
    ensures PlainLookup(pages, page, usage) == None
  {
    UsagesOfPage(pages, page);
  }

  lemma {:induction false} UsageRowsPrefix(pages: seq<PageDef>, m: nat, n: nat)
    requires m <= n <= |pages|
    ensures UsageRows(pages, m) <= UsageRows(pages, n)
    decreases n
  {
    if m < n {
      UsageRowsPrefix(pages, m, n - 1);
    }
  }

  /** The range of a page holds the page's sorted usages. */
  lemma SegmentOfPage(pages: seq<PageDef>, k: nat)
    requires k < |pages|
    ensures var rows, row := UsageRows(pages, |pages|), PageRow(pages, k);
      row.first + row.count <= |rows|
        && rows[row.first..row.first + row.count] == Records(Sorted(UsageKey, pages[k].usages))
  {
    hide Records, Sorted;
    var records := Records(Sorted(UsageKey, pages[k].usages));
    UsageRowsPrefix(pages, k + 1, |pages|);
    assert UsageRows(pages, k + 1) == UsageRows(pages, k) + records;
  }

  lemma RecordsAscend(usages: seq<UsageDef>)
    requires Unique(UsageKey, usages)
    ensures Ascending(UsageRecordKey, Records(Sorted(UsageKey, usages)))
  {
    SortedIsAscending(UsageKey, usages);
    var sorted := Sorted(UsageKey, usages);
    var records := Records(sorted);
    forall i, j | 0 <= i < j < |records|
      ensures UsageRecordKey(records[i]) < UsageRecordKey(records[j])
    {
      assert UsageKey(sorted[i]) < UsageKey(sorted[j]);
    }
  }

  lemma PagesAscend(pages: seq<PageDef>)
    requires Unique(PageKey, pages)
    ensures Ascending(PageRecordKey, PageRows(Sorted(PageKey, pages)))
  {
    hide Sorted, UsageRows;
    SortedIsAscending(PageKey, pages);
    var sorted := Sorted(PageKey, pages);
    var rows := PageRows(sorted);
    forall i, j | 0 <= i < j < |rows|
      ensures PageRecordKey(rows[i]) < PageRecordKey(rows[j])
    {
      assert PageKey(sorted[i]) < PageKey(sorted[j]);
    }
  }

  /** `find_page` and the search in its range: the record of the plain lookup. */
  method FindUsage(tables: Tables, page: uint16, usage: uint16, ghost pages: seq<PageDef>)
    returns (record: Option<UsageRecord>)
    requires UniqueIds(pages) && tables == Generated(pages)
    ensures record == (match PlainLookup(pages, page, usage) case None => None case Some(u) => Some(Record(u)))
  {
    hide Sorted, UsageRows, Records, Record;
    ghost var sorted := Sorted(PageKey, pages);
    PagesAscend(pages);
    SortedIsAscending(PageKey, pages);
    UsagesOfPage(pages, page);
    assert tables.pages[0..|tables.pages|] == tables.pages;
    var entry := BinaryFind(tables.pages, 0, |tables.pages|, page, PageRecordKey);
    if entry.None? {
      NoSuchPage(pages, sorted, page);
      return None;
    }
    var row := tables.pages[entry.value];
    ghost var usages := sorted[entry.value].usages;
    PageFound(pages, sorted, entry.value, page);
    SegmentOfPage(sorted, entry.value);
    UsageInFinds(usages, usage);
    if row.count == 0 {
      EmptyPage(usages);
      return None;
    }
    RecordsAscend(usages);
    SortedIsAscending(UsageKey, usages);
    var found := BinaryFind(tables.usages, row.first, row.first + row.count, usage, UsageRecordKey);
    if found.None? {
      NoSuchUsage(tables, row, usages, usage);
      return None;
    }
    UsageFound(tables, row, usages, found.value, usage);
    record := Some(tables.usages[found.value]);
  }

  lemma NoSuchPage(pages: seq<PageDef>, sorted: seq<PageDef>, page: uint16)
    requires SameRows(sorted, pages)
    requires forall i | 0 <= i < |sorted| :: PageRecordKey(PageRows(sorted)[i]) != page
    ensures UsagesOf(pages, page) == []
  {
    hide UsageRows, Sorted;
    UsagesOfPage(pages, page);
    forall p | p in pages
      ensures p.id != page
    {
      assert p in sorted;
      var i :| 0 <= i < |sorted| && sorted[i] == p;
      assert PageRecordKey(PageRows(sorted)[i]) == p.id;
    }
  }

  lemma PageFound(pages: seq<PageDef>, sorted: seq<PageDef>, k: nat, page: uint16)
    requires UniqueIds(pages) && SameRows(sorted, pages) && k < |sorted| && sorted[k].id == page
    ensures UsagesOf(pages, page) == sorted[k].usages && Unique(UsageKey, sorted[k].usages)
  {
    assert sorted[k] in pages;
    UsagesOfPage(pages, page);
    var p :| p in pages && p.id == page && p.usages == UsagesOf(pages, page);
    OneRowPerId(PageKey, pages, p, sorted[k]);
  }

  lemma EmptyPage(usages: seq<UsageDef>)
    requires Unique(UsageKey, usages) && |Sorted(UsageKey, usages)| == 0
    ensures usages == []
  {
    SortedIsAscending(UsageKey, usages);
  }

  lemma NoSuchUsage(tables: Tables, row: PageRecord, usages: seq<UsageDef>, usage: uint16)
    requires row.first + row.count <= |tables.usages| && SameRows(Sorted(UsageKey, usages), usages)
    requires tables.usages[row.first..row.first + row.count] == Records(Sorted(UsageKey, usages))
    requires forall i | row.first <= i < row.first + row.count :: UsageRecordKey(tables.usages[i]) != usage
    ensures UsageIn(usages, usage).None?
  {
    hide Sorted;
    UsageInFinds(usages, usage);
    var sorted := Sorted(UsageKey, usages);
    forall u | u in usages
      ensures u.id != usage
    {
      assert u in sorted;
      var i :| 0 <= i < |sorted| && sorted[i] == u;
      assert tables.usages[row.first..row.first + row.count][i] == tables.usages[row.first + i];
    }
  }

  lemma UsageFound(tables: Tables, row: PageRecord, usages: seq<UsageDef>, k: nat, usage: uint16)
    requires row.first <= k < row.first + row.count <= |tables.usages|
    requires Unique(UsageKey, usages) && SameRows(Sorted(UsageKey, usages), usages)
    requires tables.usages[row.first..row.first + row.count] == Records(Sorted(UsageKey, usages))
    requires UsageRecordKey(tables.usages[k]) == usage
    ensures UsageIn(usages, usage).Some? && tables.usages[k] == Record(UsageIn(usages, usage).value)
  {
    hide Sorted;
    var sorted := Sorted(UsageKey, usages);
    assert tables.usages[row.first..row.first + row.count][k - row.first] == tables.usages[k];
    var u := sorted[k - row.first];
    assert u in usages;
    UsageInFinds(usages, usage);
    OneRowPerId(UsageKey, usages, u, UsageIn(usages, usage).value);
  }

  /** `lookup_usage_name`. */
  method LookupUsageName(tables: Tables, page: uint16, usage: uint16, ghost pages: seq<PageDef>)
    returns (name: Option<string>)
    requires UniqueIds(pages) && tables == Generated(pages)
    ensures name == (match PlainLookup(pages, page, usage) case None => None case Some(u) => Some(u.name))
  {
    hide Generated, PlainLookup;
    var record := FindUsage(tables, page, usage, pages);
    name := match record case None => None case Some(r) => Some(r.name);
  }

  /** `lookup_usage_kinds`: no kinds and no usage look the same. */
  method LookupUsageKinds(tables: Tables, page: uint16, usage: uint16, ghost pages: seq<PageDef>)
    returns (kinds: Option<string>)
    requires UniqueIds(pages) && tables == Generated(pages)
    ensures kinds == (match PlainLookup(pages, page, usage)
                      case None => None
                      case Some(u) => if Joined(u.kinds) == "" then None else Some(Joined(u.kinds)))
  {
    hide Generated, PlainLookup;
    var record := FindUsage(tables, page, usage, pages);
    kinds := match record case None => None case Some(r) => if r.kinds == "" then None else Some(r.kinds);
  }
}
