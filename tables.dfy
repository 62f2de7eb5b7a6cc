/** A database table as the handlers use it through SQLAlchemy: rows keyed
    by an auto-increment integer primary key. `Query.get(id)` is a map
    lookup, `Query.all()` lists rows in ascending id order, `filter_by(...)
    .first()` takes the matching row with the smallest id. */
module Tables {
  import opened Json

  datatype Table<R> = Table(rows: map<int, R>, nextId: int) {

    /** Every stored id was handed out by an earlier insert. */
    predicate Valid() {
      nextId >= 1 && forall k :: k in rows ==> 1 <= k < nextId
    }

    /** `db.session.add(row)` then commit: the row gets a fresh id. */
    function Insert(r: R): (t: Table<R>)
      requires Valid()
      ensures t.Valid()
      ensures nextId !in rows && t.rows.Keys == rows.Keys + {nextId} && |t.rows| == |rows| + 1
      ensures t.rows[nextId] == r
      ensures forall k :: k in rows ==> t.rows[k] == rows[k]
    {
      Table(rows[nextId := r], nextId + 1)
    }

    /** Assignments to a stored row's attributes, then commit. */
    function Put(id: int, r: R): (t: Table<R>)
      requires Valid() && id in rows
      ensures t.Valid() && t.nextId == nextId && t.rows.Keys == rows.Keys
      ensures t.rows[id] == r && forall k :: k in rows && k != id ==> t.rows[k] == rows[k]
    {
      Table(rows[id := r], nextId)
    }

    /** `db.session.delete(row)` then commit. */
    function Remove(id: int): (t: Table<R>)
      requires Valid()
      ensures t.Valid() && t.nextId == nextId
      ensures t.rows.Keys == rows.Keys - {id}
      ensures forall k :: k in t.rows ==> t.rows[k] == rows[k]
    {
      Table(rows - {id}, nextId)
    }

    /** `Query.all()`: the rows with their ids, in ascending id order. */
    function All(): (s: seq<(int, R)>)
      requires Valid()
      ensures |s| == |rows|
      ensures forall i :: 0 <= i < |s| ==> s[i].0 in rows && rows[s[i].0] == s[i].1
      ensures forall i, j :: 0 <= i < j < |s| ==> s[i].0 < s[j].0
      ensures forall k :: k in rows ==> (k, rows[k]) in s
    {
      var ids := IdsFrom(rows, 1, nextId);
      AllIdsListed(rows, nextId);
      PairsComplete(rows, ids);
      Pairs(rows, ids)
    }

    /** `Query.filter_by(...).first()`: the smallest id whose row satisfies `p`. */
    function FirstWhere(p: R -> bool): (o: Option<int>)
      requires Valid()
      ensures o.Some? ==> o.value in rows && p(rows[o.value])
      ensures o.Some? ==> forall k :: k in rows && k < o.value ==> !p(rows[k])
      ensures o.None? ==> forall k :: k in rows ==> !p(rows[k])
    {
      FirstFrom(rows, p, 1, nextId)
    }
  }

  function Empty<R>(): (t: Table<R>)
    ensures t.Valid() && t.rows == map[] && t.nextId == 1 && t.All() == []
  {
    Table(map[], 1)
  }

  /** The ids of `m` in `[lo, hi)`. */
  function KeysIn<R>(m: map<int, R>, lo: int, hi: int): set<int> {
    set k | k in m && lo <= k < hi
  }

  /** The ids of `m` in `[lo, hi)`, ascending. */
  function IdsFrom<R>(m: map<int, R>, lo: int, hi: int): (s: seq<int>)
    ensures forall i :: 0 <= i < |s| ==> lo <= s[i] < hi && s[i] in m
    ensures forall i, j :: 0 <= i < j < |s| ==> s[i] < s[j]
    ensures forall k :: k in m && lo <= k < hi ==> k in s
    decreases hi - lo
  {
    if lo >= hi then []
    else if lo in m then [lo] + IdsFrom(m, lo + 1, hi)
    else IdsFrom(m, lo + 1, hi)
  }

  /** IdsFrom lists each id in range exactly once. */
  lemma {:induction false} IdsCount<R>(m: map<int, R>, lo: int, hi: int)
    ensures |IdsFrom(m, lo, hi)| == |KeysIn(m, lo, hi)|
    decreases hi - lo
  {
    if lo >= hi {
      assert KeysIn(m, lo, hi) == {};
    } else {
      IdsCount(m, lo + 1, hi);
      var rest := KeysIn(m, lo + 1, hi);
      if lo in m {
        assert KeysIn(m, lo, hi) == {lo} + rest;
        assert lo !in rest;
      } else {
        assert KeysIn(m, lo, hi) == rest;
      }
    }
  }

  /** Below a table's next id, IdsFrom lists every stored id once. */
  lemma AllIdsListed<R>(m: map<int, R>, nextId: int)
    requires forall k :: k in m ==> 1 <= k < nextId
    ensures |IdsFrom(m, 1, nextId)| == |m|
  {
    IdsCount(m, 1, nextId);
    assert KeysIn(m, 1, nextId) == m.Keys;
  }

  /** Each listed id with its row. */
  function Pairs<R>(m: map<int, R>, ids: seq<int>): (s: seq<(int, R)>)
    requires forall i :: 0 <= i < |ids| ==> ids[i] in m
    ensures |s| == |ids|
    ensures forall i :: 0 <= i < |s| ==> s[i] == (ids[i], m[ids[i]])
  {
    seq(|ids|, i requires 0 <= i < |ids| => (ids[i], m[ids[i]]))
  }

  lemma PairsComplete<R>(m: map<int, R>, ids: seq<int>)
    requires forall i :: 0 <= i < |ids| ==> ids[i] in m
    ensures forall k :: k in ids ==> (k, m[k]) in Pairs(m, ids)
  {
    var s := Pairs(m, ids);
    forall k | k in ids ensures (k, m[k]) in s {
      var i :| 0 <= i < |ids| && ids[i] == k;
      assert s[i] == (k, m[k]);
    }
  }

  /** The smallest id in `[lo, hi)` whose row satisfies `p`. */
  function FirstFrom<R>(m: map<int, R>, p: R -> bool, lo: int, hi: int): (o: Option<int>)
    ensures o.Some? ==> lo <= o.value < hi && o.value in m && p(m[o.value])
    ensures o.Some? ==> forall k :: k in m && lo <= k < o.value ==> !p(m[k])
    ensures o.None? ==> forall k :: k in m && lo <= k < hi ==> !p(m[k])
    decreases hi - lo
  {
    if lo >= hi then None
    else if lo in m && p(m[lo]) then Some(lo)
    else FirstFrom(m, p, lo + 1, hi)
  }

  /** The rows whose id-and-value pair satisfies `p`, order kept: `filter_by(...).all()`. */
  function Where<R>(s: seq<(int, R)>, p: (int, R) -> bool): (r: seq<(int, R)>)
    ensures |r| <= |s|
    ensures forall x :: x in r ==> x in s && p(x.0, x.1)
    ensures forall x :: x in s && p(x.0, x.1) ==> x in r
    ensures forall x :: x in s && !p(x.0, x.1) ==> x !in r
  {
    if s == [] then []
    else (if p(s[0].0, s[0].1) then [s[0]] else []) + Where(s[1..], p)
  }

  /** Ids strictly increase along `s`. */
  predicate Ascending<R>(s: seq<(int, R)>) {
    forall i, j :: 0 <= i < j < |s| ==> s[i].0 < s[j].0
  }

  /** Filtering keeps the ascending id order of `Query.all()`. */
  lemma {:induction false} WhereAscending<R>(s: seq<(int, R)>, p: (int, R) -> bool)
    requires Ascending(s)
    ensures Ascending(Where(s, p))
  {
    if s != [] {
      WhereAscending(s[1..], p);
      var rest := Where(s[1..], p);
      forall j | 0 <= j < |rest| ensures s[0].0 < rest[j].0 {
        assert rest[j] in s[1..];
      }
      assert Where(s, p) == (if p(s[0].0, s[0].1) then [s[0]] else []) + rest;
    }
  }

  /** A filter every row passes keeps the whole list. */
  lemma {:induction false} WhereAll<R>(s: seq<(int, R)>, p: (int, R) -> bool)
    requires forall i :: 0 <= i < |s| ==> p(s[i].0, s[i].1)
    ensures Where(s, p) == s
  {
    if s != [] {
      WhereAll(s[1..], p);
    }
  }

  /** `|set k | k in rows && p(rows[k])|`: how many rows satisfy `p`. */
  function CountWhere<R>(m: map<int, R>, p: R -> bool): nat {
    |set k | k in m && p(m[k])|
  }

  /** Writing a row back unchanged leaves the table as it was. */
  lemma PutSame<R>(t: Table<R>, id: int)
    requires t.Valid() && id in t.rows
    ensures t.Put(id, t.rows[id]) == t
  {
    assert t.rows[id := t.rows[id]] == t.rows;
  }

  /** A row that still satisfies `p` after a write stays the first match. */
  lemma FirstWhereAfterPut<R>(t: Table<R>, p: R -> bool, id: int, r: R)
    requires t.Valid() && t.FirstWhere(p) == Some(id) && p(r)
    ensures t.Put(id, r).FirstWhere(p) == Some(id)
  {
  }

  /** With no match before, an inserted match becomes the first. */
  lemma FirstWhereAfterInsert<R>(t: Table<R>, p: R -> bool, r: R)
    requires t.Valid() && t.FirstWhere(p) == None && p(r)
    ensures t.Insert(r).FirstWhere(p) == Some(t.nextId)
  {
  }

  /** A write that keeps the row's `p` value keeps the number of matches. */
  lemma {:induction false} CountAfterPut<R>(t: Table<R>, p: R -> bool, id: int, r: R)
    requires t.Valid() && id in t.rows && p(r) == p(t.rows[id])
    ensures CountWhere(t.Put(id, r).rows, p) == CountWhere(t.rows, p)
  {
    var u := t.Put(id, r).rows;
    assert (set k | k in u && p(u[k])) == (set k | k in t.rows && p(t.rows[k]));
  }

  /** An insert adds one match exactly when the new row matches. */
  lemma CountAfterInsert<R>(t: Table<R>, p: R -> bool, r: R)
    requires t.Valid()
    ensures CountWhere(t.Insert(r).rows, p) == CountWhere(t.rows, p) + (if p(r) then 1 else 0)
  {
    assert t.nextId !in t.rows;
    CountAfterAdd(t.rows, p, t.nextId, r);
  }

  /** Counting over a map that gains the fresh key `k0`. */
  lemma CountAfterAdd<R>(m: map<int, R>, p: R -> bool, k0: int, r: R)
    requires k0 !in m
    ensures CountWhere(m[k0 := r], p) == CountWhere(m, p) + (if p(r) then 1 else 0)
  {
    var u := m[k0 := r];
    var before := set k | k in m && p(m[k]);
    var after := set k | k in u && p(u[k]);
    if p(r) {
      assert after == before + {k0};
      assert k0 !in before;
    } else {
      assert after == before;
    }
  }

  /** No match at all means a count of zero, and a match means a positive count. */
  lemma CountZero<R>(t: Table<R>, p: R -> bool)
    requires t.Valid()
    ensures t.FirstWhere(p).None? <==> CountWhere(t.rows, p) == 0
  {
    var matches := set k | k in t.rows && p(t.rows[k]);
    if t.FirstWhere(p).Some? {
      assert t.FirstWhere(p).value in matches;
    } else {
      assert matches == {};
    }
  }
}
