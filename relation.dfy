/** A two-column relation table — `likes` keyed by post or by reel, and
    `saved_posts` — and the flip that `toggleLike`, `toggleSave` and
    `toggleReelLike` perform on it. The table is a multiset of
    (target, user) pairs because it has no uniqueness constraint the client
    relies on; the lookup `.single()` / `.maybeSingle()` returns a row only
    when exactly one row matches. */
module Relation {

  /** (target id, user id). */
  type Pair = (string, string)

  /** The lookup finds an existing row: the query succeeds and exactly one
      row matches. A failed query gives null data, which reads as "no row". */
  predicate Found(rows: multiset<Pair>, pair: Pair, lookupOk: bool) {
    lookupOk && rows[pair] == 1
  }

  /** One flip. A found row is deleted and `false` returned; otherwise a row
      is inserted and `true` returned. Neither the lookup's error nor the
      write's reply is read, so the reported state is the same whether or
      not the write happened; `lookupOk` says whether the lookup query
      succeeded and `writeOk` whether the write did. */
  function Toggled(rows: multiset<Pair>, pair: Pair, lookupOk: bool, writeOk: bool): (r: (multiset<Pair>, bool))
    ensures r.1 <==> !Found(rows, pair, lookupOk)
    ensures forall q :: q != pair ==> r.0[q] == rows[q]
    ensures writeOk ==> r.0[pair] == if Found(rows, pair, lookupOk) then 0 else rows[pair] + 1
    ensures !writeOk ==> r.0 == rows
  {
    if Found(rows, pair, lookupOk) then
      (if writeOk then rows - multiset{pair} else rows, false)
    else
      (if writeOk then rows + multiset{pair} else rows, true)
  }

  /** In a table with at most one row per pair, a flip whose lookup and
      write succeed reports exactly the new membership and keeps at most one
      row. */
  lemma ToggleReportsNewState(rows: multiset<Pair>, pair: Pair)
    requires rows[pair] <= 1
    ensures var (after, nowIn) := Toggled(rows, pair, true, true);
      (nowIn <==> pair in after) && after[pair] <= 1 && (nowIn <==> pair !in rows)
  {
  }

  /** Two successful flips of the same pair give back the table. */
  lemma {:induction false} ToggleTwiceRestores(rows: multiset<Pair>, pair: Pair)
    requires rows[pair] <= 1
    ensures Toggled(Toggled(rows, pair, true, true).0, pair, true, true).0 == rows
  {
    var once := Toggled(rows, pair, true, true).0;
    var twice := Toggled(once, pair, true, true).0;
    forall q ensures twice[q] == rows[q] {
      if q != pair {
        assert twice[q] == once[q] == rows[q];
      }
    }
  }

  /** With two or more rows for a pair the lookup finds none, so the flip
      adds yet another row and reports `true`. */
  lemma DuplicatesOnlyGrow(rows: multiset<Pair>, pair: Pair, lookupOk: bool)
    requires rows[pair] >= 2
    ensures Toggled(rows, pair, lookupOk, true).1 && Toggled(rows, pair, lookupOk, true).0[pair] == rows[pair] + 1
  {
  }

  /** A failed lookup reads as "no row": even when the pair's single row
      exists, a second one is inserted and `true` is reported. */
  lemma FailedLookupDuplicates(rows: multiset<Pair>, pair: Pair)
    requires rows[pair] == 1
    ensures Toggled(rows, pair, false, true) == (rows + multiset{pair}, true)
    ensures Toggled(rows, pair, false, true).0[pair] == 2
  {
  }

  class PairTable {
    var rows: multiset<Pair>

    constructor (rows: multiset<Pair>)
      ensures this.rows == rows
    {
      this.rows := rows;
    }

    /** Look the pair up, then delete or insert it. */
    method Toggle(target: string, user: string, lookupOk: bool, writeOk: bool) returns (nowIn: bool)
      modifies this
      ensures (rows, nowIn) == Toggled(old(rows), (target, user), lookupOk, writeOk)
    {
      var pair := (target, user);
      if lookupOk && rows[pair] == 1 {
        if writeOk {
          rows := rows - multiset{pair};
        }
        nowIn := false;
      } else {
        if writeOk {
          rows := rows + multiset{pair};
        }
        nowIn := true;
      }
    }

    /** `checkIsFollowing`'s lookup: true only when exactly one row matches. */
    function Contains(target: string, user: string): (r: bool)
      reads this
      ensures r <==> rows[(target, user)] == 1
    {
      Found(rows, (target, user), true)
    }
  }
}
