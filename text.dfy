/**
 * Case-insensitive substring matching, the meaning of the store's
 * `column ILIKE '%query%'` filters. Case folding is ASCII only.
 */
module Text {

  function LowerChar(c: char): (r: char)
    ensures 'A' <= c <= 'Z' ==> r as int == c as int + 32
    ensures !('A' <= c <= 'Z') ==> r == c
    ensures !('A' <= r <= 'Z')
  {
    if 'A' <= c <= 'Z' then (c as int + 32) as char else c
  }

  function Lower(s: string): (r: string)
    ensures |r| == |s|
    ensures forall i :: 0 <= i < |s| ==> r[i] == LowerChar(s[i])
    ensures forall i :: 0 <= i < |r| ==> !('A' <= r[i] <= 'Z')
  {
    seq(|s|, i requires 0 <= i < |s| => LowerChar(s[i]))
  }

  lemma LowerIdempotent(s: string)
    ensures Lower(Lower(s)) == Lower(s)
  {
  }

  /** `t` occurs in `s` as a contiguous piece, searching from the left. */
  function Contains(s: string, t: string): bool
    decreases |s|
  {
    if t <= s then true
    else if |s| == 0 then false
    else Contains(s[1..], t)
  }

  /** `t` is the piece of `s` that starts at index `i`. */
  predicate OccursAt(s: string, t: string, i: int) {
    0 <= i <= |s| - |t| && s[i..i + |t|] == t
  }

  /** The search agrees with the definition "some window of `s` equals `t`". */
  lemma {:induction false} ContainsAt(s: string, t: string)
    ensures Contains(s, t) <==> exists i :: OccursAt(s, t, i)
    decreases |s|
  {
    if t <= s {
      assert OccursAt(s, t, 0);
    } else if |s| == 0 {
    } else {
      ContainsAt(s[1..], t);
      if Contains(s[1..], t) {
        var i :| OccursAt(s[1..], t, i);
        assert s[1..][i..i + |t|] == s[i + 1..i + 1 + |t|];
        assert OccursAt(s, t, i + 1);
      } else {
        forall i | OccursAt(s, t, i) ensures OccursAt(s[1..], t, i - 1) {
          assert s[1..][i - 1..i - 1 + |t|] == s[i..i + |t|];
        }
      }
    }
  }

  /** `field ILIKE '%query%'`. */
  function ILike(field: string, query: string): bool {
    Contains(Lower(field), Lower(query))
  }

  /** `'%%'` matches every value: an empty query selects everything. */
  lemma EmptyQueryMatches(field: string)
    ensures ILike(field, "")
  {
  }

  /** Matching ignores the case of the field and of the query. */
  lemma ILikeIgnoresCase(field: string, query: string)
    ensures ILike(Lower(field), query) == ILike(field, query)
    ensures ILike(field, Lower(query)) == ILike(field, query)
  {
    LowerIdempotent(field);
    LowerIdempotent(query);
  }

  /** A field matches a query that is a piece of it, up to case. */
  lemma {:induction false} ILikeAt(field: string, query: string, i: int)
    requires 0 <= i <= |field| - |query|
    requires Lower(field[i..i + |query|]) == Lower(query)
    ensures ILike(field, query)
  {
    var lf, lq := Lower(field), Lower(query);
    assert lf[i..i + |lq|] == Lower(field[i..i + |query|]);
    assert OccursAt(lf, lq, i);
    ContainsAt(lf, lq);
  }
}
