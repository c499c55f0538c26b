/**
 * The generated-album table behind `AiAlbumDao`, and the repository that
 * forwards to it. The table keeps its rows in insertion order and, as a
 * table with an AUTOINCREMENT key does, the largest id it has ever held.
 */
module AiAlbumTable {
  import opened Outcomes
  import opened Text
  import opened Collections
  import opened AiAlbums

  datatype Table = Table(rows: seq<AiAlbumEntity>, lastId: int)

  predicate HasId(rows: seq<AiAlbumEntity>, id: int) {
    exists i :: 0 <= i < |rows| && rows[i].id == id
  }

  /** Ids are distinct (the primary key) and none is above the largest id ever used. */
  predicate WellFormed(t: Table) {
    && (forall i :: 0 <= i < |t.rows| ==> t.rows[i].id <= t.lastId)
    && (forall i, j :: 0 <= i < j < |t.rows| ==> t.rows[i].id != t.rows[j].id)
  }

  /** A freshly created table. */
  function EmptyTable(): (t: Table)
    ensures WellFormed(t) && t.rows == []
    ensures t.lastId == 0
  {
    Table([], 0)
  }

  /** What `insert` did: stored the row under `id`, or raised (a taken id, or no id left). */
  datatype InsertOutcome = Inserted(id: int, table: Table) | Aborted

  /**
   * `@Insert` with the default `ABORT` conflict strategy. An id of 0 asks
   * for a new one, one above every id the table has ever held; a table whose
   * largest id is the largest `Long` has none left. Any other id is stored
   * as given, unless a row already has it.
   */
  function InsertRow(t: Table, e: AiAlbumEntity): (o: InsertOutcome)
    requires WellFormed(t)
    ensures o.Inserted? ==> WellFormed(o.table)
    ensures o.Inserted? ==> o.table.rows == t.rows + [e.(id := o.id)]
    ensures o.Inserted? ==> !HasId(t.rows, o.id)
    ensures e.id != 0 ==> (o.Inserted? <==> !HasId(t.rows, e.id))
    ensures e.id != 0 && o.Inserted? ==> o.id == e.id
    ensures e.id == 0 ==> (o.Inserted? <==> t.lastId < LongMax)
    ensures e.id == 0 && o.Inserted? ==> o.id == t.lastId + 1
    ensures o.Inserted? ==> o.table.lastId == (if o.id > t.lastId then o.id else t.lastId)
  {
    if e.id == 0 then
      if t.lastId >= LongMax then Aborted
      else
        var id := t.lastId + 1;
        Inserted(id, Table(t.rows + [e.(id := id)], id))
    else if HasId(t.rows, e.id) then Aborted
    else Inserted(e.id, Table(t.rows + [e], if e.id > t.lastId then e.id else t.lastId))
  }

  // ------------------------------------------------- ORDER BY generated_at DESC

  predicate NewestFirst(s: seq<AiAlbumEntity>) {
    forall i, j :: 0 <= i < j < |s| ==> s[i].generatedAt >= s[j].generatedAt
  }

  /** Puts `x` into a newest-first list, after the rows exactly as new. */
  function PlaceByTime(x: AiAlbumEntity, s: seq<AiAlbumEntity>): (r: seq<AiAlbumEntity>)
    ensures multiset(r) == multiset(s) + multiset{x}
  {
    if |s| == 0 || x.generatedAt > s[0].generatedAt then [x] + s
    else
      assert s == [s[0]] + s[1..];
      [s[0]] + PlaceByTime(x, s[1..])
  }

  lemma {:induction false} PlaceKeepsNewestFirst(x: AiAlbumEntity, s: seq<AiAlbumEntity>)
    requires NewestFirst(s)
    ensures NewestFirst(PlaceByTime(x, s))
  {
    if |s| == 0 || x.generatedAt > s[0].generatedAt {
      ConsNewestFirst(x, s);
    } else {
      var rest := PlaceByTime(x, s[1..]);
      PlaceKeepsNewestFirst(x, s[1..]);
      forall k | 0 <= k < |rest| ensures rest[k].generatedAt <= s[0].generatedAt {
        assert rest[k] in multiset(rest);
        assert rest[k] == x || rest[k] in s[1..];
      }
      ConsNewestFirst(s[0], rest);
    }
  }

  /** A row no older than every row of a newest-first list can go in front of it. */
  lemma ConsNewestFirst(y: AiAlbumEntity, s: seq<AiAlbumEntity>)
    requires NewestFirst(s)
    requires forall k :: 0 <= k < |s| ==> s[k].generatedAt <= y.generatedAt
    ensures NewestFirst([y] + s)
  {
    var r := [y] + s;
    forall i, j | 0 <= i < j < |r| ensures r[i].generatedAt >= r[j].generatedAt {
      assert r[j] == s[j - 1];
      if i > 0 {
        assert r[i] == s[i - 1];
      }
    }
  }

  /** The rows, newest first; rows generated at the same moment keep their insertion order. */
  function ByNewest(rows: seq<AiAlbumEntity>): (r: seq<AiAlbumEntity>)
    ensures multiset(r) == multiset(rows)
    ensures NewestFirst(r)
  {
    if |rows| == 0 then []
    else
      assert rows == rows[..|rows| - 1] + [rows[|rows| - 1]];
      var sorted := ByNewest(rows[..|rows| - 1]);
      PlaceKeepsNewestFirst(rows[|rows| - 1], sorted);
      PlaceByTime(rows[|rows| - 1], sorted)
  }

  /** `SELECT * … ORDER BY generated_at DESC LIMIT :limit`; a negative limit is no limit in SQLite. */
  function Recent(rows: seq<AiAlbumEntity>, limit: Int32): (r: seq<AiAlbumEntity>)
    ensures |r| == (if 0 <= limit < |rows| then limit else |rows|)
    ensures r == ByNewest(rows)[..|r|]
  {
    assert |multiset(ByNewest(rows))| == |multiset(rows)|;
    if limit < 0 then ByNewest(rows) else Take(ByNewest(rows), limit)
  }

  /**
   * The recent albums: `limit` of them (or all, when there are fewer or the
   * limit is negative), newest first, each one of the stored rows, and no
   * row left out newer than any row returned.
   */
  lemma RecentIsNewestFirst(rows: seq<AiAlbumEntity>, limit: Int32)
    ensures var r := Recent(rows, limit);
      && |r| == (if 0 <= limit < |rows| then limit else |rows|)
      && NewestFirst(r)
      && multiset(r) <= multiset(rows)
      && forall x, y :: x in multiset(rows) - multiset(r) && y in r ==> x.generatedAt <= y.generatedAt
  {
    var sorted := ByNewest(rows);
    var n := |Recent(rows, limit)|;
    assert Recent(rows, limit) == sorted[..n];
    PrefixOfNewestFirst(sorted, n);
  }

  /** A prefix of a newest-first list is newest first, and nothing after it is newer than anything in it. */
  lemma PrefixOfNewestFirst(sorted: seq<AiAlbumEntity>, n: nat)
    requires NewestFirst(sorted) && n <= |sorted|
    ensures NewestFirst(sorted[..n])
    ensures multiset(sorted[..n]) <= multiset(sorted)
    ensures forall x, y :: x in multiset(sorted) - multiset(sorted[..n]) && y in sorted[..n] ==> x.generatedAt <= y.generatedAt
  {
    assert sorted == sorted[..n] + sorted[n..];
    assert multiset(sorted) - multiset(sorted[..n]) == multiset(sorted[n..]);
    SuffixNoNewer(sorted, n);
  }

  lemma SuffixNoNewer(sorted: seq<AiAlbumEntity>, n: nat)
    requires NewestFirst(sorted) && n <= |sorted|
    ensures forall x, y :: x in sorted[n..] && y in sorted[..n] ==> x.generatedAt <= y.generatedAt
  {
    forall x, y | x in sorted[n..] && y in sorted[..n] ensures x.generatedAt <= y.generatedAt {
      var j :| 0 <= j < |sorted[n..]| && sorted[n..][j] == x;
      var i :| 0 <= i < n && sorted[..n][i] == y;
      assert sorted[i] == y && sorted[n + j] == x;
    }
  }

  // --------------------------------------------- DELETE … WHERE generated_at < t

  /** The rows that survive `deleteOlderThan(beforeTs)`, in their order. */
  function KeepNewer(rows: seq<AiAlbumEntity>, beforeTs: int): (r: seq<AiAlbumEntity>)
    ensures forall x :: x in r <==> x in rows && x.generatedAt >= beforeTs
    ensures |r| <= |rows|
  {
    if |rows| == 0 then []
    else
      var rest := KeepNewer(rows[1..], beforeTs);
      assert rows == [rows[0]] + rows[1..];
      if rows[0].generatedAt >= beforeTs then [rows[0]] + rest else rest
  }

  lemma {:induction false} KeepNewerIdempotent(rows: seq<AiAlbumEntity>, beforeTs: int)
    ensures KeepNewer(KeepNewer(rows, beforeTs), beforeTs) == KeepNewer(rows, beforeTs)
  {
    if |rows| > 0 {
      KeepNewerIdempotent(rows[1..], beforeTs);
      var rest := KeepNewer(rows[1..], beforeTs);
      if rows[0].generatedAt >= beforeTs {
        assert ([rows[0]] + rest)[1..] == rest;
      }
    }
  }

  lemma {:induction false} KeepNewerNoMatch(rows: seq<AiAlbumEntity>, beforeTs: int)
    requires forall k :: 0 <= k < |rows| ==> rows[k].generatedAt >= beforeTs
    ensures KeepNewer(rows, beforeTs) == rows
  {
    if |rows| > 0 {
      KeepNewerNoMatch(rows[1..], beforeTs);
      assert rows == [rows[0]] + rows[1..];
    }
  }

  /** What is left is part of what was there, in the same order: ids and fields unchanged. */
  predicate Subsequence(r: seq<AiAlbumEntity>, rows: seq<AiAlbumEntity>) {
    |r| == 0 || (|rows| > 0 && ((r[0] == rows[0] && Subsequence(r[1..], rows[1..])) || Subsequence(r, rows[1..])))
  }

  lemma {:induction false} KeepNewerIsSubsequence(rows: seq<AiAlbumEntity>, beforeTs: int)
    ensures Subsequence(KeepNewer(rows, beforeTs), rows)
  {
    if |rows| > 0 {
      KeepNewerIsSubsequence(rows[1..], beforeTs);
      var rest := KeepNewer(rows[1..], beforeTs);
      if rows[0].generatedAt >= beforeTs {
        assert ([rows[0]] + rest)[1..] == rest;
      }
    }
  }

  lemma {:induction false} KeepNewerKeepsWellFormed(t: Table, beforeTs: int)
    requires WellFormed(t)
    ensures WellFormed(Table(KeepNewer(t.rows, beforeTs), t.lastId))
    decreases |t.rows|
  {
    if |t.rows| > 0 {
      var rows := t.rows;
      KeepNewerKeepsWellFormed(Table(rows[1..], t.lastId), beforeTs);
      var rest := KeepNewer(rows[1..], beforeTs);
      if rows[0].generatedAt >= beforeTs {
        forall k | 0 <= k < |rest| ensures rest[k].id != rows[0].id {
          assert rest[k] in rows[1..];
          var q :| 0 <= q < |rows[1..]| && rows[1..][q] == rest[k];
          assert rows[q + 1] == rest[k];
        }
        ConsKeepsWellFormed(rows[0], Table(rest, t.lastId));
      }
    }
  }

  /** A row whose id no other row has and is within the largest id keeps a table well formed. */
  lemma ConsKeepsWellFormed(y: AiAlbumEntity, t: Table)
    requires WellFormed(t) && y.id <= t.lastId
    requires forall k :: 0 <= k < |t.rows| ==> t.rows[k].id != y.id
    ensures WellFormed(Table([y] + t.rows, t.lastId))
  {
    var r := [y] + t.rows;
    forall i, j | 0 <= i < j < |r| ensures r[i].id != r[j].id {
      assert r[j] == t.rows[j - 1];
      if i > 0 {
        assert r[i] == t.rows[i - 1];
      }
    }
  }

  /** `deleteOlderThan(beforeTs)`: the largest id ever used is remembered, so deleted ids are not handed out again. */
  function DeleteOlder(t: Table, beforeTs: int): (t': Table)
    requires WellFormed(t)
    ensures WellFormed(t')
    ensures t'.lastId == t.lastId
    ensures forall x :: x in t'.rows <==> x in t.rows && x.generatedAt >= beforeTs
  {
    KeepNewerKeepsWellFormed(t, beforeTs);
    Table(KeepNewer(t.rows, beforeTs), t.lastId)
  }

  /** The id `insert` hands back, or `None` when it raised. */
  function InsertedId(o: InsertOutcome): Option<int> {
    if o.Inserted? then Some(o.id) else None
  }

  /** The table after `insert`: a raising insert changes nothing. */
  function AfterInsert(t: Table, o: InsertOutcome): Table {
    if o.Inserted? then o.table else t
  }

  /** With id 0 the row gets an id no row of the table has, and it is the one row added. */
  lemma FreshIdOnInsert(t: Table, e: AiAlbumEntity)
    requires WellFormed(t) && e.id == 0 && t.lastId < LongMax
    ensures var o := InsertRow(t, e);
      && o.Inserted?
      && forall i :: 0 <= i < |t.rows| ==> t.rows[i].id != o.id
    ensures |InsertRow(t, e).table.rows| == |t.rows| + 1
  {
  }

  /**
   * AUTOINCREMENT never hands out an id again: after old rows are deleted,
   * the next generated id is above every id the table held before.
   */
  lemma NoIdReuseAfterDelete(t: Table, beforeTs: int, e: AiAlbumEntity)
    requires WellFormed(t) && e.id == 0 && t.lastId < LongMax
    ensures var o := InsertRow(DeleteOlder(t, beforeTs), e);
      && o.Inserted?
      && forall i :: 0 <= i < |t.rows| ==> t.rows[i].id < o.id
  {
  }

  class AiAlbumDao {
    var table: Table

    ghost predicate Valid()
      reads this
    {
      WellFormed(table)
    }

    constructor()
      ensures Valid() && table == EmptyTable()
    {
      table := EmptyTable();
    }

    /** `insert(aiAlbumEntity)`: the new row's id, or `None` when the insert raised. */
    method Insert(e: AiAlbumEntity) returns (id: Option<int>)
      requires Valid()
      modifies this
      ensures Valid()
      ensures id == InsertedId(InsertRow(old(table), e))
      ensures table == AfterInsert(old(table), InsertRow(old(table), e))
    {
      var o := InsertRow(table, e);
      id := InsertedId(o);
      table := AfterInsert(table, o);
    }

    /** `recentAiAlbums(limit = 10)`. */
    function RecentAiAlbums(limit: Int32 := 10): seq<AiAlbumEntity>
      reads this
    {
      Recent(table.rows, limit)
    }

    /** `deleteOlderThan(beforeTs)`. */
    method DeleteOlderThan(beforeTs: int)
      requires Valid()
      modifies this
      ensures Valid()
      ensures table == DeleteOlder(old(table), beforeTs)
    {
      table := DeleteOlder(table, beforeTs);
    }
  }

  // ------------------------------------------------------- the repository

  /** The calls `AiAlbumRepository` offers; there is no update and no single-row delete. */
  datatype RepositoryCall = SaveCall(entity: AiAlbumEntity) | RecentCall(limit: Int32) | DeleteCall(beforeTs: int)

  function Perform(t: Table, call: RepositoryCall): (t': Table)
    requires WellFormed(t)
    ensures WellFormed(t')
  {
    match call
    case SaveCall(e) => AfterInsert(t, InsertRow(t, e))
    case RecentCall(_) => t
    case DeleteCall(beforeTs) => DeleteOlder(t, beforeTs)
  }

  function PerformAll(t: Table, calls: seq<RepositoryCall>): (t': Table)
    requires WellFormed(t)
    ensures WellFormed(t')
    decreases |calls|
  {
    if |calls| == 0 then t else PerformAll(Perform(t, calls[0]), calls[1..])
  }

  /** No cutoff in `calls` reaches past this row's time. */
  predicate OutlivesCutoffs(x: AiAlbumEntity, calls: seq<RepositoryCall>) {
    forall k :: 0 <= k < |calls| && calls[k].DeleteCall? ==> x.generatedAt >= calls[k].beforeTs
  }

  /**
   * A saved row leaves the table only by being older than a cutoff: through
   * any run of repository calls whose cutoffs it outlives, it stays, with
   * its id and every field unchanged.
   */
  lemma {:induction false} RowsLeaveOnlyByAge(t: Table, calls: seq<RepositoryCall>, x: AiAlbumEntity)
    requires WellFormed(t) && x in t.rows
    requires OutlivesCutoffs(x, calls)
    ensures x in PerformAll(t, calls).rows
    decreases |calls|
  {
    if |calls| > 0 {
      var t1 := Perform(t, calls[0]);
      assert x in t1.rows;
      assert OutlivesCutoffs(x, calls[1..]) by {
        forall k | 0 <= k < |calls[1..]| && calls[1..][k].DeleteCall? ensures x.generatedAt >= calls[1..][k].beforeTs {
          assert calls[1..][k] == calls[k + 1];
        }
      }
      RowsLeaveOnlyByAge(t1, calls[1..], x);
    }
  }

  /** `RealAiAlbumRepository`: each call goes to the DAO as it is. */
  class RealAiAlbumRepository {
    const aiAlbumDao: AiAlbumDao

    constructor(aiAlbumDao: AiAlbumDao)
      ensures this.aiAlbumDao == aiAlbumDao
    {
      this.aiAlbumDao := aiAlbumDao;
    }

    /** `saveAlbum(aiAlbumEntity)`: the DAO's id, as it is. */
    method SaveAlbum(e: AiAlbumEntity) returns (id: Option<int>)
      requires aiAlbumDao.Valid()
      modifies aiAlbumDao
      ensures aiAlbumDao.Valid()
      ensures id == InsertedId(InsertRow(old(aiAlbumDao.table), e))
      ensures aiAlbumDao.table == Perform(old(aiAlbumDao.table), SaveCall(e))
    {
      id := aiAlbumDao.Insert(e);
    }

    /** `recentAiAlbums(limit)`, whose default is 10 in the interface. */
    function RecentAiAlbums(limit: Int32 := 10): (r: seq<AiAlbumEntity>)
      reads aiAlbumDao
    {
      aiAlbumDao.RecentAiAlbums(limit)
    }

    method DeleteOlderThan(beforeTs: int)
      requires aiAlbumDao.Valid()
      modifies aiAlbumDao
      ensures aiAlbumDao.Valid()
      ensures aiAlbumDao.table == Perform(old(aiAlbumDao.table), DeleteCall(beforeTs))
    {
      aiAlbumDao.DeleteOlderThan(beforeTs);
    }
  }
}
