/** Reading the rows of a table keyed by auto-increment ids.

    A `filter(<owner>_id = x)` query is modelled as the ascending list of the
    keys whose row points at `x`. Tables keep every key below a bound (the
    next id to hand out), so the list is finite and deterministic. */
module Rows {

  /** Every key of the table is below `n`. */
  predicate KeysBelow<T>(m: map<nat, T>, n: nat) {
    forall k :: k in m ==> k < n
  }

  /** Every key of `ids` is in the table. */
  predicate AllIn<T>(ids: seq<nat>, m: map<nat, T>) {
    forall j :: 0 <= j < |ids| ==> ids[j] in m
  }

  /** Strictly ascending keys. */
  predicate Ascending(ids: seq<nat>) {
    forall i, j :: 0 <= i < j < |ids| ==> ids[i] < ids[j]
  }

  /** The keys below `n` of the rows of `m` whose `owner` is `x`, in ascending order. */
  function Select<T>(m: map<nat, T>, owner: T -> nat, x: nat, n: nat): (ids: seq<nat>)
    ensures forall j :: 0 <= j < |ids| ==> ids[j] < n && ids[j] in m && owner(m[ids[j]]) == x
    decreases n
  {
    if n == 0 then []
    else Select(m, owner, x, n - 1) + (if n - 1 in m && owner(m[n - 1]) == x then [n - 1] else [])
  }

  /** A selection lists its keys in ascending order. */
  lemma {:induction false} SelectAscending<T>(m: map<nat, T>, owner: T -> nat, x: nat, n: nat)
    ensures Ascending(Select(m, owner, x, n))
    decreases n
  {
    if n > 0 {
      SelectAscending(m, owner, x, n - 1);
    }
  }

  /** Every row below the bound with that owner is selected. */
  lemma {:induction false} SelectComplete<T>(m: map<nat, T>, owner: T -> nat, x: nat, n: nat, k: nat)
    requires k < n && k in m && owner(m[k]) == x
    ensures k in Select(m, owner, x, n)
    decreases n
  {
    if k < n - 1 {
      SelectComplete(m, owner, x, n - 1, k);
    }
  }

  /** Below a bound past every key, a selection holds exactly the keys whose row has that owner. */
  lemma SelectExact<T>(m: map<nat, T>, owner: T -> nat, x: nat, n: nat)
    requires KeysBelow(m, n)
    ensures forall k :: k in Select(m, owner, x, n) <==> k in m && owner(m[k]) == x
  {
    forall k | k in m && owner(m[k]) == x {
      SelectComplete(m, owner, x, n, k);
    }
  }

  /** The keys below `n` of the whole table, in ascending order (an unfiltered query). */
  function AllIds<T>(m: map<nat, T>, n: nat): (ids: seq<nat>)
    ensures forall k :: k in ids <==> k in m && k < n
    decreases n
  {
    if n == 0 then []
    else AllIds(m, n - 1) + (if n - 1 in m then [n - 1] else [])
  }

  /** An unfiltered query lists its keys in ascending order. */
  lemma {:induction false} AllIdsAscending<T>(m: map<nat, T>, n: nat)
    ensures Ascending(AllIds(m, n))
    decreases n
  {
    if n > 0 {
      var init := AllIds(m, n - 1);
      AllIdsAscending(m, n - 1);
      forall i | 0 <= i < |init|
        ensures init[i] < n - 1
      {
        assert init[i] in init;
      }
    }
  }

  /** Two tables that agree below `n` (same keys, same owners) give the same selection. */
  lemma {:induction false} SelectAgree<T>(m: map<nat, T>, m': map<nat, T>, owner: T -> nat, x: nat, n: nat)
    requires forall k :: k < n ==> (k in m <==> k in m')
    requires forall k :: k < n && k in m && k in m' ==> owner(m[k]) == owner(m'[k])
    ensures Select(m, owner, x, n) == Select(m', owner, x, n)
    decreases n
  {
    if n > 0 {
      SelectAgree(m, m', owner, x, n - 1);
    }
  }

  /** Raising the bound past every key adds nothing. */
  lemma {:induction false} SelectBeyondKeys<T>(m: map<nat, T>, owner: T -> nat, x: nat, n: nat, n': nat)
    requires KeysBelow(m, n) && n <= n'
    ensures Select(m, owner, x, n') == Select(m, owner, x, n)
    decreases n' - n
  {
    if n < n' {
      SelectBeyondKeys(m, owner, x, n, n' - 1);
    }
  }

  /** A selection is empty exactly when no row below the bound has that owner. */
  lemma SelectEmpty<T>(m: map<nat, T>, owner: T -> nat, x: nat, n: nat)
    requires forall k :: k < n && k in m ==> owner(m[k]) != x
    ensures Select(m, owner, x, n) == []
  {
  }

  /** `m` with `rows` stored under the consecutive keys `start`, `start + 1`, ...
      (one bulk insert). */
  function Inserted<T>(m: map<nat, T>, start: nat, rows: seq<T>): map<nat, T>
    decreases |rows|
  {
    if rows == [] then m
    else Inserted(m, start, rows[..|rows| - 1])[start + |rows| - 1 := rows[|rows| - 1]]
  }

  /** A bulk insert adds exactly the keys of the block, stores row `j` of
      the block under `start + j` and leaves every other row as it was. */
  lemma {:induction false} InsertedRows<T>(m: map<nat, T>, start: nat, rows: seq<T>)
    ensures forall k :: k in Inserted(m, start, rows) <==> k in m || start <= k < start + |rows|
    ensures forall k :: k in m && !(start <= k < start + |rows|) ==> Inserted(m, start, rows)[k] == m[k]
    ensures forall k :: start <= k < start + |rows| ==> Inserted(m, start, rows)[k] == rows[k - start]
    decreases |rows|
  {
    if rows != [] {
      InsertedRows(m, start, rows[..|rows| - 1]);
    }
  }
}
