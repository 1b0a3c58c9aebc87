/** The query the file lister runs on `cached_files`:
    `.eq("user_id", uid).order("last_accessed_at", { ascending: false }).limit(20)`.
    The database leaves the order of rows with equal access times open; the
    model fixes one, table order, by sorting stably. */
module CachedOrder {
  import opened SupabaseStore

  const Limit := 20

  /** The rows of one user, in table order: each of them as often as the
      table holds it, and no other row. */
  function OfUser(table: seq<CachedFile>, uid: string): (rows: seq<CachedFile>)
    ensures forall x :: x in rows ==> x.userId == uid
    ensures forall x :: multiset(rows)[x] == if x.userId == uid then multiset(table)[x] else 0
  {
    if table == [] then []
    else
      var rest := OfUser(table[1..], uid);
      assert table == [table[0]] + table[1..];
      if table[0].userId == uid then [table[0]] + rest else rest
  }

  /** Most recently accessed first. */
  ghost predicate ByRecency(rows: seq<CachedFile>) {
    forall i, j :: 0 <= i < j < |rows| ==> rows[i].lastAccessedAt >= rows[j].lastAccessedAt
  }

  function Insert(x: CachedFile, rows: seq<CachedFile>): (r: seq<CachedFile>)
    requires ByRecency(rows)
    ensures ByRecency(r) && multiset(r) == multiset(rows) + multiset{x}
    ensures r[0] == x || (rows != [] && r[0] == rows[0])
  {
    if rows == [] || x.lastAccessedAt >= rows[0].lastAccessedAt then
      PrependOrdered(x, rows);
      [x] + rows
    else
      var rest := Insert(x, rows[1..]);
      assert rows == [rows[0]] + rows[1..];
      PrependOrdered(rows[0], rest);
      [rows[0]] + rest
  }

  /** A row no older than the head of an ordered list can go in front of it. */
  lemma PrependOrdered(x: CachedFile, rows: seq<CachedFile>)
    requires ByRecency(rows) && (rows != [] ==> x.lastAccessedAt >= rows[0].lastAccessedAt)
    ensures ByRecency([x] + rows)
  {
    forall i, j | 0 <= i < j < |[x] + rows|
      ensures ([x] + rows)[i].lastAccessedAt >= ([x] + rows)[j].lastAccessedAt
    {
      if i == 0 && j > 1 {
        assert rows[0].lastAccessedAt >= rows[j - 1].lastAccessedAt;
      }
    }
  }

  function SortByRecency(rows: seq<CachedFile>): (r: seq<CachedFile>)
    ensures ByRecency(r) && multiset(r) == multiset(rows)
  {
    if rows == [] then []
    else
      assert rows == [rows[0]] + rows[1..];
      Insert(rows[0], SortByRecency(rows[1..]))
  }

  /** The rows the query returns: at most 20 of the user's rows, most recent
      first, and none left out that is more recent than the last one kept. */
  function Recent(table: seq<CachedFile>, uid: string): (r: seq<CachedFile>)
    ensures |r| <= Limit
    ensures |r| == if |OfUser(table, uid)| < Limit then |OfUser(table, uid)| else Limit
    ensures forall k :: 0 <= k < |r| ==> r[k].userId == uid
    ensures ByRecency(r)
    ensures multiset(r) <= multiset(OfUser(table, uid))
    ensures forall x :: x in multiset(OfUser(table, uid)) - multiset(r) ==>
                          |r| == Limit && x.lastAccessedAt <= r[Limit - 1].lastAccessedAt
  {
    var sorted := SortByRecency(OfUser(table, uid));
    var n := if |sorted| < Limit then |sorted| else Limit;
    var r := sorted[..n];
    TakeMostRecent(sorted, n);
    SameOwner(OfUser(table, uid), sorted, n, uid);
    assert forall x :: x in multiset(OfUser(table, uid)) - multiset(r) ==> x in multiset(sorted[n..]);
    r
  }

  /** Cutting a list sorted by recency after `n` rows keeps it sorted and
      leaves out only rows no more recent than the last one kept. */
  lemma TakeMostRecent(sorted: seq<CachedFile>, n: nat)
    requires ByRecency(sorted) && n <= |sorted|
    ensures ByRecency(sorted[..n])
    ensures multiset(sorted) == multiset(sorted[..n]) + multiset(sorted[n..])
    ensures forall x :: x in multiset(sorted[n..]) ==>
                          n < |sorted| && (0 < n ==> x.lastAccessedAt <= sorted[n - 1].lastAccessedAt)
  {
    assert sorted == sorted[..n] + sorted[n..];
    forall x | x in multiset(sorted[n..])
      ensures n < |sorted| && (0 < n ==> x.lastAccessedAt <= sorted[n - 1].lastAccessedAt)
    {
      assert x in sorted[n..];
      var j :| 0 <= j < |sorted[n..]| && sorted[n..][j] == x;
      assert sorted[n + j] == x;
    }
  }

  /** Rows drawn from one user's rows belong to that user. */
  lemma SameOwner(rows: seq<CachedFile>, sorted: seq<CachedFile>, n: nat, uid: string)
    requires forall x :: x in rows ==> x.userId == uid
    requires multiset(sorted) == multiset(rows) && n <= |sorted|
    ensures forall k :: 0 <= k < n ==> sorted[..n][k].userId == uid
  {
    forall k | 0 <= k < n
      ensures sorted[..n][k].userId == uid
    {
      assert sorted[k] in multiset(rows);
    }
  }
}
