/** The threshold exporter of the Compacter: when the trade collection has
    grown past `export_limit` documents, the oldest documents of the trade and
    wallet collections are written as two CSV tables into one zip archive,
    stored, and then deleted from their collections. */
module Exporting {
  import opened Wrappers
  import opened Dicts
  import opened Json
  import Flattening

  // ---------------------------------------------------------------------
  // CSV tables (CSVExporter.export_to_csv_in_memory)
  // ---------------------------------------------------------------------

  /** A CSV table before it is rendered as text: the header's column set and
      the flattened rows in order. */
  datatype Table = Table(columns: set<string>, rows: seq<Dict<Json>>)

  /** The columns of a batch of rows: every key of every row. */
  function ColumnSet(rows: seq<Dict<Json>>): (cols: set<string>)
    ensures forall c :: c in cols <==> exists i :: 0 <= i < |rows| && c in Keys(rows[i])
  {
    set i, k | 0 <= i < |rows| && k in Keys(rows[i]) :: k
  }

  /** The table of a batch: each record flattened, in order, under the
      union of their keys. */
  function CsvTable(data: seq<Json>): (t: Table)
    ensures |t.rows| == |data|
    ensures forall i :: 0 <= i < |data| ==> t.rows[i] == Flattening.Flatten(data[i])
    ensures forall i :: 0 <= i < |t.rows| ==> (set k | k in Keys(t.rows[i])) <= t.columns
  {
    var rows := seq(|data|, i requires 0 <= i < |data| => Flattening.Flatten(data[i]));
    Table(ColumnSet(rows), rows)
  }

  /** `export_to_csv_in_memory`: flattens the records, then grows the header's
      field set record by record. */
  method ExportToCsvInMemory(data: seq<Json>) returns (t: Table)
    ensures t == CsvTable(data)
  {
    var flatData := seq(|data|, i requires 0 <= i < |data| => Flattening.Flatten(data[i]));
    var fieldnames: set<string> := {};
    var n := 0;
    while n < |flatData|
      invariant 0 <= n <= |flatData|
      invariant forall c :: c in fieldnames <==> exists i :: 0 <= i < n && c in Keys(flatData[i])
    {
      fieldnames := fieldnames + set k | k in Keys(flatData[n]);
      n := n + 1;
    }
    t := Table(fieldnames, flatData);
    assert t.columns == ColumnSet(flatData);
  }

  // ---------------------------------------------------------------------
  // Documents and the store's queries (MongoDBHandler.read_data and
  // delete_documents)
  // ---------------------------------------------------------------------

  /** A stored document: its `_id`, its `timestamp` and the whole record. */
  datatype Doc = Doc(id: string, timestamp: int, body: Json)

  /** The store's `_id` index: no two documents of a collection share an id. */
  predicate DistinctIds(c: seq<Doc>) {
    forall i, j :: 0 <= i < j < |c| ==> c[i].id != c[j].id
  }

  predicate SortedByTime(s: seq<Doc>) {
    forall i, j :: 0 <= i < j < |s| ==> s[i].timestamp <= s[j].timestamp
  }

  /** Places `d` before the first document that is not older. */
  function InsertByTime(d: Doc, s: seq<Doc>): (r: seq<Doc>)
    ensures multiset(r) == multiset(s) + multiset{d}
  {
    if s == [] then [d]
    else if d.timestamp <= s[0].timestamp then [d] + s
    else
      assert s == [s[0]] + s[1..];
      [s[0]] + InsertByTime(d, s[1..])
  }

  /** Inserting adds `d` and nothing else. */
  lemma InsertByTimeMembers(d: Doc, s: seq<Doc>)
    ensures forall x :: x in InsertByTime(d, s) ==> x == d || x in s
  {
    var r := InsertByTime(d, s);
    forall x | x in r
      ensures x == d || x in s
    {
      assert x in multiset(r);
    }
  }

  /** The head of a sorted sequence is its oldest document, and its tail is
      sorted. */
  lemma SortedHead(s: seq<Doc>)
    requires s != [] && SortedByTime(s)
    ensures SortedByTime(s[1..])
    ensures forall x :: x in s[1..] ==> s[0].timestamp <= x.timestamp
  {
    forall x | x in s[1..]
      ensures s[0].timestamp <= x.timestamp
    {
      var j :| 0 <= j < |s[1..]| && s[1..][j] == x;
      assert s[j + 1] == x;
    }
  }

  /** A document no newer than a sorted sequence's members can head it. */
  lemma SortedCons(h: Doc, rest: seq<Doc>)
    requires SortedByTime(rest)
    requires forall x :: x in rest ==> h.timestamp <= x.timestamp
    ensures SortedByTime([h] + rest)
  {
    var r := [h] + rest;
    forall i, j | 0 <= i < j < |r|
      ensures r[i].timestamp <= r[j].timestamp
    {
      assert r[j] == rest[j - 1];
      if i == 0 {
        assert rest[j - 1] in rest;
      } else {
        assert r[i] == rest[i - 1];
      }
    }
  }

  /** Inserting into a sorted sequence keeps it sorted. */
  lemma {:induction false} InsertByTimeSorted(d: Doc, s: seq<Doc>)
    requires SortedByTime(s)
    ensures SortedByTime(InsertByTime(d, s))
  {
    if s == [] {
    } else if d.timestamp <= s[0].timestamp {
      SortedHead([d] + s);
      assert ([d] + s)[1..] == s;
      SortedCons(d, s);
    } else {
      SortedHead(s);
      InsertByTimeSorted(d, s[1..]);
      InsertByTimeMembers(d, s[1..]);
      SortedCons(s[0], InsertByTime(d, s[1..]));
    }
  }

  /** `sort('timestamp', 1)`: ascending timestamps.  The database fixes no
      order among documents with equal timestamps; this definition keeps
      them in stored order, which is one of the orders it may return. */
  function SortByTime(c: seq<Doc>): (r: seq<Doc>)
    ensures multiset(r) == multiset(c)
    ensures SortedByTime(r)
  {
    if c == [] then []
    else
      assert c == [c[0]] + c[1..];
      var rest := SortByTime(c[1..]);
      InsertByTimeSorted(c[0], rest);
      InsertByTime(c[0], rest)
  }

  /** `limit(n)`: a limit of 0 means no limit; a negative limit is taken by
      its magnitude. */
  function Limit(s: seq<Doc>, n: int): (r: seq<Doc>)
    ensures r <= s
    ensures n != 0 ==> |r| <= if n < 0 then -n else n
    ensures n == 0 ==> r == s
  {
    var m := if n < 0 then -n else n;
    if n == 0 || |s| <= m then s else s[..m]
  }

  /** `read_data(collection, limit)`: the oldest documents, at most `limit` of them. */
  function Oldest(c: seq<Doc>, limit: int): (r: seq<Doc>)
    ensures multiset(r) <= multiset(c)
    ensures SortedByTime(r)
    ensures limit != 0 ==> |r| <= if limit < 0 then -limit else limit
    ensures limit == 0 ==> multiset(r) == multiset(c)
  {
    var s := SortByTime(c);
    var r := Limit(s, limit);
    assert s == r + s[|r|..];
    assert multiset(s) == multiset(r) + multiset(s[|r|..]);
    r
  }

  function Ids(docs: seq<Doc>): set<string> {
    set d | d in docs :: d.id
  }

  /** `delete_many({'_id': {'$in': ids}})`: the documents whose id is not
      among the given documents' ids, in stored order. */
  function Without(c: seq<Doc>, ids: set<string>): (r: seq<Doc>)
    ensures forall d :: d in r <==> d in c && d.id !in ids
  {
    if c == [] then []
    else
      assert c == [c[0]] + c[1..];
      (if c[0].id in ids then [] else [c[0]]) + Without(c[1..], ids)
  }

  lemma {:induction false} WithoutCount(c: seq<Doc>, ids: set<string>, x: Doc)
    ensures multiset(Without(c, ids))[x] == if x.id in ids then 0 else multiset(c)[x]
  {
    if c != [] {
      assert c == [c[0]] + c[1..];
      WithoutCount(c[1..], ids, x);
    }
  }

  lemma {:induction false} DistinctIdsCountAtMostOne(c: seq<Doc>, x: Doc)
    requires DistinctIds(c)
    ensures multiset(c)[x] <= 1
  {
    if c != [] {
      assert c == [c[0]] + c[1..];
      DistinctIdsCountAtMostOne(c[1..], x);
      if c[0] == x {
        assert x !in c[1..] by {
          forall j | 0 <= j < |c[1..]| ensures c[1..][j] != x {
            assert c[j + 1].id != c[0].id;
          }
        }
      }
    }
  }

  /** Deleting by the ids of documents taken from a collection with distinct
      ids removes exactly those documents. */
  lemma DeleteRemovesExactly(c: seq<Doc>, read: seq<Doc>)
    requires DistinctIds(c) && multiset(read) <= multiset(c)
    ensures multiset(Without(c, Ids(read))) + multiset(read) == multiset(c)
  {
    var ids := Ids(read);
    var kept := Without(c, ids);
    forall x ensures multiset(kept)[x] + multiset(read)[x] == multiset(c)[x] {
      WithoutCount(c, ids, x);
      DistinctIdsCountAtMostOne(c, x);
      if x.id in ids {
        var y :| y in read && y.id == x.id;
        assert y in multiset(c);
        if x in c {
          var i :| 0 <= i < |c| && c[i] == x;
          var j :| 0 <= j < |c| && c[j] == y;
          assert x == y;
        }
      } else {
        assert x !in read;
      }
    }
  }

  /** What `read_data` returns is never newer than what it leaves behind. */
  lemma OldestFirst(c: seq<Doc>, limit: int, d: Doc, e: Doc)
    requires d in Oldest(c, limit) && e in Without(c, Ids(Oldest(c, limit)))
    ensures d.timestamp <= e.timestamp
  {
    var s := SortByTime(c);
    var read := Oldest(c, limit);
    assert read == Limit(s, limit);
    assert read == s[..|read|];
    assert e in c && e.id !in Ids(read);
    assert e !in read;
    assert e in multiset(s);
    var j :| 0 <= j < |s| && s[j] == e;
    var i :| 0 <= i < |read| && read[i] == d;
    assert j >= |read|;
    assert s[i] == d;
  }

  /** `export_data`'s read-then-delete removes exactly the documents read: the
      rest of the collection is kept, nothing read survives, the oldest go
      first. */
  lemma ReadThenDelete(c: seq<Doc>, limit: int)
    requires DistinctIds(c)
    ensures var read := Oldest(c, limit);
            var kept := Without(c, Ids(read));
            && multiset(kept) + multiset(read) == multiset(c)
            && |kept| == |c| - |read|
            && (limit == 0 ==> kept == [])
            && forall d, e :: d in read && e in kept ==> d.timestamp <= e.timestamp
  {
    var read := Oldest(c, limit);
    var kept := Without(c, Ids(read));
    DeleteRemovesExactly(c, read);
    assert |multiset(kept)| + |multiset(read)| == |multiset(c)|;
    forall d, e | d in read && e in kept ensures d.timestamp <= e.timestamp {
      OldestFirst(c, limit, d, e);
    }
  }

  // ---------------------------------------------------------------------
  // The store and the exporter
  // ---------------------------------------------------------------------

  /** A zip archive: its members by file name, in writing order. */
  datatype Archive = Archive(members: seq<(string, Table)>)

  /** An entry of the `file_storage` collection. */
  datatype StoredFile = StoredFile(collectionName: string, fileType: string, fileData: Archive, fileName: string)

  /** The document store: named collections of documents, and the stored files. */
  class MongoDBHandler {
    var collections: map<string, seq<Doc>>
    var fileStorage: seq<StoredFile>

    ghost predicate Valid()
      reads this
    {
      forall name :: name in collections ==> DistinctIds(collections[name])
    }

    /** `db[name]`: a collection never written to is empty. */
    function Collection(name: string): seq<Doc>
      reads this
    {
      Named(collections, name)
    }

    constructor (initial: map<string, seq<Doc>>)
      requires forall name :: name in initial ==> DistinctIds(initial[name])
      ensures Valid() && collections == initial && fileStorage == []
    {
      collections := initial;
      fileStorage := [];
    }

    method CountDocuments(name: string) returns (n: nat)
      ensures n == |Collection(name)|
    {
      n := |Collection(name)|;
    }

    method ReadData(name: string, limit: int) returns (docs: seq<Doc>)
      ensures docs == Oldest(Collection(name), limit)
    {
      docs := Oldest(Collection(name), limit);
    }

    method DeleteDocuments(name: string, documents: seq<Doc>)
      requires Valid()
      modifies this
      ensures Valid()
      ensures collections == Deleted(old(collections), name, Ids(documents))
      ensures fileStorage == old(fileStorage)
    {
      var ids := set d | d in documents :: d.id;
      if name in collections {
        var kept := Without(collections[name], ids);
        WithoutDistinct(collections[name], ids);
        collections := collections[name := kept];
      }
    }

    method StoreFile(file: StoredFile)
      modifies this
      ensures fileStorage == old(fileStorage) + [file]
      ensures collections == old(collections)
    {
      fileStorage := fileStorage + [file];
    }
  }

  /** The collections after `delete_many` on collection `name`. */
  function Deleted(collections: map<string, seq<Doc>>, name: string, ids: set<string>): map<string, seq<Doc>> {
    if name in collections then collections[name := Without(collections[name], ids)] else collections
  }

  /** `db[name]`: a collection never written to is empty. */
  function Named(collections: map<string, seq<Doc>>, name: string): seq<Doc> {
    if name in collections then collections[name] else []
  }

  /** Deleting from collection `name` removes the documents with the given
      ids from it and leaves every other collection as it was. */
  lemma DeletedCollections(collections: map<string, seq<Doc>>, name: string, ids: set<string>, other: string)
    ensures Named(Deleted(collections, name, ids), other) ==
              if other == name then Without(Named(collections, name), ids) else Named(collections, other)
  {
  }

  /** After an export, the trade and wallet collections have lost the
      documents read from them, and every other collection is unchanged. */
  lemma ExportedCollections(collections: map<string, seq<Doc>>, limit: int, other: string)
    ensures var trades := Oldest(Named(collections, "trades"), limit);
            var wallets := Oldest(Named(collections, "wallets"), limit);
            var after := Deleted(Deleted(collections, "trades", Ids(trades)), "wallets", Ids(wallets));
            && Named(after, "trades") == Without(Named(collections, "trades"), Ids(trades))
            && Named(after, "wallets") == Without(Named(collections, "wallets"), Ids(wallets))
            && (other != "trades" && other != "wallets" ==> Named(after, other) == Named(collections, other))
  {
    var trades := Oldest(Named(collections, "trades"), limit);
    var wallets := Oldest(Named(collections, "wallets"), limit);
    var mid := Deleted(collections, "trades", Ids(trades));
    assert "trades" != "wallets";
    DeletedCollections(collections, "trades", Ids(trades), "trades");
    DeletedCollections(collections, "trades", Ids(trades), "wallets");
    DeletedCollections(collections, "trades", Ids(trades), other);
    DeletedCollections(mid, "wallets", Ids(wallets), "trades");
    DeletedCollections(mid, "wallets", Ids(wallets), "wallets");
    DeletedCollections(mid, "wallets", Ids(wallets), other);
  }

  lemma {:induction false} WithoutDistinct(c: seq<Doc>, ids: set<string>)
    requires DistinctIds(c)
    ensures DistinctIds(Without(c, ids))
  {
    if c != [] {
      assert c == [c[0]] + c[1..];
      WithoutDistinct(c[1..], ids);
      var rest := Without(c[1..], ids);
      forall x | x in rest ensures x.id != c[0].id {
        var j :| 0 <= j < |c[1..]| && c[1..][j] == x;
        assert c[j + 1] == x;
      }
    }
  }

  class DataExporter {
    const mongoHandler: MongoDBHandler

    constructor (handler: MongoDBHandler)
      ensures mongoHandler == handler
    {
      mongoHandler := handler;
    }

    /** `export_data(export_limit)`.  The two date texts are the clock's
        `%Y-%m-%d` and `%Y-%m` renderings. */
    method ExportData(exportLimit: int, dateId: string, dateMonth: string)
      requires mongoHandler.Valid()
      modifies mongoHandler
      ensures mongoHandler.Valid()
      ensures |old(mongoHandler.Collection("trades"))| <= exportLimit ==>
                mongoHandler.collections == old(mongoHandler.collections)
                && mongoHandler.fileStorage == old(mongoHandler.fileStorage)
      ensures |old(mongoHandler.Collection("trades"))| > exportLimit ==>
                var trades := Oldest(old(mongoHandler.Collection("trades")), exportLimit);
                var wallets := Oldest(old(mongoHandler.Collection("wallets")), exportLimit);
                && mongoHandler.collections == Deleted(Deleted(old(mongoHandler.collections), "trades", Ids(trades)), "wallets", Ids(wallets))
                && mongoHandler.fileStorage == old(mongoHandler.fileStorage) + [ExportFile(trades, wallets, dateId, dateMonth)]
    {
      var count := mongoHandler.CountDocuments("trades");
      if count > exportLimit {
        var tradeData := mongoHandler.ReadData("trades", exportLimit);
        var walletData := mongoHandler.ReadData("wallets", exportLimit);
        var tradeCsv := ExportToCsvInMemory(Bodies(tradeData));
        var walletCsv := ExportToCsvInMemory(Bodies(walletData));
        var zipFile := Archive([("trade.csv", tradeCsv), ("wallet.csv", walletCsv)]);
        mongoHandler.StoreFile(StoredFile(dateMonth, "zip", zipFile, "trades_" + dateId));
        assert mongoHandler.fileStorage == old(mongoHandler.fileStorage) + [ExportFile(tradeData, walletData, dateId, dateMonth)];
        mongoHandler.DeleteDocuments("trades", tradeData);
        mongoHandler.DeleteDocuments("wallets", walletData);
      }
    }
  }

  /** The archive `export_data` stores: the two tables, named by the day. */
  function ExportFile(trades: seq<Doc>, wallets: seq<Doc>, dateId: string, dateMonth: string): StoredFile {
    StoredFile(dateMonth, "zip",
               Archive([("trade.csv", CsvTable(Bodies(trades))), ("wallet.csv", CsvTable(Bodies(wallets)))]),
               "trades_" + dateId)
  }

  function Bodies(docs: seq<Doc>): (r: seq<Json>)
    ensures |r| == |docs| && forall i :: 0 <= i < |docs| ==> r[i] == docs[i].body
  {
    seq(|docs|, i requires 0 <= i < |docs| => docs[i].body)
  }
}
