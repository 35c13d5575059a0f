/** The in-memory logs behind the food and exercise tabs: ordered lists that
    grow by one entry at the end ("Add"), shrink by the last entry ("Undo
    last") or empty out ("Clear"), plus the column sum that totals them. */
module Ledger {

  /** The log after an "Add" button: one new entry after all earlier ones. */
  function Append<T>(log: seq<T>, e: T): (r: seq<T>)
    ensures |r| == |log| + 1
    ensures r[..|log|] == log
    ensures r[|log|] == e
  {
    log + [e]
  }

  /** The log after "Undo last": Python's `list.pop()`, which needs a
      non-empty list; the buttons that call it exist only while the log is
      non-empty. */
  function UndoLast<T>(log: seq<T>): (r: seq<T>)
    requires |log| > 0
    ensures r + [log[|log| - 1]] == log
  {
    log[..|log| - 1]
  }

  /** The log after "Clear": a fresh empty list, whatever was there. */
  function Clear<T>(log: seq<T>): (r: seq<T>)
    ensures |r| == 0
  {
    []
  }

  /** Undo right after an add gives back exactly the earlier log. */
  lemma UndoAfterAppend<T>(log: seq<T>, e: T)
    ensures UndoLast(Append(log, e)) == log
  {
  }

  /** Re-adding the entry that undo removed gives back the original log. */
  lemma AppendAfterUndo<T>(log: seq<T>)
    requires |log| > 0
    ensures Append(UndoLast(log), log[|log| - 1]) == log
  {
  }

  /** The sum of one column `f` over the log; 0 for the empty log. */
  function Sum<T>(log: seq<T>, f: T -> real): real
  {
    if |log| == 0 then 0.0 else f(log[0]) + Sum(log[1..], f)
  }

  /** Adding an entry at the end adds its column value to the sum. */
  lemma {:induction false} SumAppend<T>(log: seq<T>, e: T, f: T -> real)
    ensures Sum(log + [e], f) == Sum(log, f) + f(e)
  {
    if |log| == 0 {
      assert log + [e] == [e];
    } else {
      assert (log + [e])[1..] == log[1..] + [e];
      SumAppend(log[1..], e, f);
    }
  }

  /** A column with no negative value has a non-negative sum. */
  lemma {:induction false} SumNonNegative<T>(log: seq<T>, f: T -> real)
    requires forall i :: 0 <= i < |log| ==> f(log[i]) >= 0.0
    ensures Sum(log, f) >= 0.0
  {
    if |log| > 0 {
      assert f(log[0]) >= 0.0;
      assert forall i :: 0 <= i < |log[1..]| ==> log[1..][i] == log[i + 1];
      SumNonNegative(log[1..], f);
    }
  }

  /** `log.map(g)`: each entry rewritten by `g`, order kept. */
  function Map<T, U>(log: seq<T>, g: T -> U): (r: seq<U>)
    ensures |r| == |log|
    ensures forall i :: 0 <= i < |log| ==> r[i] == g(log[i])
  {
    if |log| == 0 then [] else [g(log[0])] + Map(log[1..], g)
  }

  /** Summing a column of `log.map(g)` is summing the composed column of
      `log`: totals survive dropping fields the column does not read. */
  lemma {:induction false} SumOfMap<T, U>(log: seq<T>, g: T -> U, f: U -> real, h: T -> real)
    requires forall x :: h(x) == f(g(x))
    ensures Sum(Map(log, g), f) == Sum(log, h)
  {
    if |log| > 0 {
      assert Map(log, g)[1..] == Map(log[1..], g);
      SumOfMap(log[1..], g, f, h);
    }
  }

  /** A left-to-right accumulation of one column; in exact arithmetic it
      gives the same total as `Sum`, whatever order `.sum()` uses. */
  method ColumnSum<T>(log: seq<T>, f: T -> real) returns (total: real)
    ensures total == Sum(log, f)
  {
    total := 0.0;
    var i := 0;
    while i < |log|
      invariant 0 <= i <= |log|
      invariant total == Sum(log[..i], f)
    {
      assert log[..i + 1] == log[..i] + [log[i]];
      SumAppend(log[..i], log[i], f);
      total := total + f(log[i]);
      i := i + 1;
    }
    assert log[..i] == log;
  }
}
