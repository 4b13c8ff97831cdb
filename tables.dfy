/**
 * A table is a map from primary key to row together with the next value of
 * its serial sequence. A query without ORDER BY is built, and promised, in
 * ascending key order here, an order the relational store does not choose;
 * contracts about queries say which rows are listed, that none is listed
 * twice, and that keys ascend.
 */
module Tables {
  import opened Schema

  /** Every row sits under its own key, and every key was issued by the sequence. */
  ghost predicate Serial<R>(m: map<Id, R>, next: Id, key: R -> Id) {
    && 1 <= next
    && forall k :: k in m ==> key(m[k]) == k && 1 <= k < next
  }

  /** `x` is the row stored under its own key. */
  ghost predicate Stored<R>(m: map<Id, R>, key: R -> Id, x: R) {
    key(x) in m && m[key(x)] == x
  }

  /** Keys strictly increase along the listing, so no row appears twice. */
  ghost predicate Ascending<R>(rows: seq<R>, key: R -> Id) {
    forall i, j :: 0 <= i < j < |rows| ==> key(rows[i]) < key(rows[j])
  }

  /** The rows with keys in [0, n) that satisfy `p`, in ascending key order. */
  function Scan<R>(m: map<Id, R>, n: int, key: R -> Id, p: R -> bool): seq<R>
    decreases n
  {
    if n <= 0 then []
    else Scan(m, n - 1, key, p) + (if n - 1 in m && p(m[n - 1]) then [m[n - 1]] else [])
  }

  lemma {:induction false} ScanRows<R(!new)>(m: map<Id, R>, n: int, key: R -> Id, p: R -> bool)
    requires forall k :: k in m ==> key(m[k]) == k
    ensures forall x :: x in Scan(m, n, key, p) <==> 0 <= key(x) < n && Stored(m, key, x) && p(x)
    ensures forall i :: 0 <= i < |Scan(m, n, key, p)| ==> 0 <= key(Scan(m, n, key, p)[i]) < n
    ensures Ascending(Scan(m, n, key, p), key)
    decreases n
  {
    if n > 0 {
      ScanRows(m, n - 1, key, p);
    }
  }

  /** `SELECT * FROM m WHERE p`: exactly the stored rows satisfying `p`, each once. */
  function Where<R(!new)>(m: map<Id, R>, next: Id, key: R -> Id, p: R -> bool): (r: seq<R>)
    requires Serial(m, next, key)
    ensures forall x :: x in r <==> Stored(m, key, x) && p(x)
    ensures forall i :: 0 <= i < |r| ==> Stored(m, key, r[i]) && p(r[i])
    ensures Ascending(r, key)
  {
    ScanRows(m, next, key, p);
    Scan(m, next, key, p)
  }

  function KeysBelow<R>(m: map<Id, R>, n: int): set<Id> {
    set k | k in m && 0 <= k < n
  }

  lemma {:induction false} ScanCount<R>(m: map<Id, R>, n: int, key: R -> Id, p: R -> bool)
    requires forall k :: k in m ==> p(m[k])
    ensures |Scan(m, n, key, p)| == |KeysBelow(m, n)|
    decreases n
  {
    if n <= 0 {
      assert KeysBelow(m, n) == {};
    } else {
      ScanCount(m, n - 1, key, p);
      if n - 1 in m {
        assert KeysBelow(m, n) == KeysBelow(m, n - 1) + {n - 1};
      } else {
        assert KeysBelow(m, n) == KeysBelow(m, n - 1);
      }
    }
  }

  /** A filter every row passes lists the whole table: one element per row. */
  lemma WhereCount<R(!new)>(m: map<Id, R>, next: Id, key: R -> Id, p: R -> bool)
    requires Serial(m, next, key)
    requires forall k :: k in m ==> p(m[k])
    ensures |Where(m, next, key, p)| == |m|
  {
    ScanCount(m, next, key, p);
    assert KeysBelow(m, next) == m.Keys;
  }

  /** Two ascending listings with the same rows are the same listing. */
  lemma {:induction false} AscendingUnique<R>(a: seq<R>, b: seq<R>, key: R -> Id)
    requires Ascending(a, key) && Ascending(b, key)
    requires forall x :: x in a <==> x in b
    ensures a == b
    decreases |a|
  {
    if a != [] { assert a[0] in b; }
    if b != [] { assert b[0] in a; }
    if a != [] && b != [] {
      assert a[0] in b;
      var j :| 0 <= j < |b| && b[j] == a[0];
      assert b[0] in a;
      var l :| 0 <= l < |a| && a[l] == b[0];
      assert key(a[0]) <= key(a[l]) && key(b[0]) <= key(b[j]);
      assert j == 0;
      forall x | x in a[1..] ensures x in b[1..] {
        var i :| 1 <= i < |a| && a[i] == x;
        assert x in a;
        var l :| 0 <= l < |b| && b[l] == x;
        assert l != 0;
      }
      forall x | x in b[1..] ensures x in a[1..] {
        var i :| 1 <= i < |b| && b[i] == x;
        assert x in b;
        var l :| 0 <= l < |a| && a[l] == x;
        assert l != 0;
      }
      AscendingUnique(a[1..], b[1..], key);
      assert a == [a[0]] + a[1..] && b == [b[0]] + b[1..];
    }
  }

  /** An ascending listing whose only member is `x` is exactly `[x]`. */
  lemma AscendingSingleton<R>(rows: seq<R>, x: R, key: R -> Id)
    requires Ascending(rows, key)
    requires forall y :: y in rows <==> y == x
    ensures rows == [x]
  {
    AscendingUnique(rows, [x], key);
  }
}
