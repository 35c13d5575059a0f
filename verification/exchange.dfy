/** The exchange calculator: a single food log of (food, quantity, kcal)
    rows, an "Add to List" button, the grand total and a "Clear List"
    button. */
module Exchange {
  import opened Entries
  import Ledger

  function PlainCalories(e: PlainEntry): real
  {
    e.calories
  }

  /** "Add to List": the new row goes after all earlier rows, and the kcal
      sum grows by the catalog's per-unit kcal times the quantity. */
  function AddToList(log: seq<PlainEntry>, catalog: RateCatalog, food: string, qty: real)
    : (r: seq<PlainEntry>)
    requires food in catalog
    ensures |r| == |log| + 1 && r[..|log|] == log
    ensures r[|log|].food == food && r[|log|].qty == qty
    ensures Ledger.Sum(r, PlainCalories) == Ledger.Sum(log, PlainCalories) + catalog[food] * qty
  {
    var e := MakePlainEntry(catalog, food, qty);
    Ledger.SumAppend(log, e, PlainCalories);
    Ledger.Append(log, e)
  }

  /** What the log section shows: a hint while the log is empty, the
      grand total otherwise. */
  datatype Shown = NothingYet | Total(kcal: real)

  /** The grand total is shown exactly when there are rows, and it is the
      sum of their kcal. */
  function GrandTotal(log: seq<PlainEntry>): (r: Shown)
    ensures r.NothingYet? <==> |log| == 0
    ensures r.Total? ==> r.kcal == Ledger.Sum(log, PlainCalories)
  {
    if |log| > 0 then Total(Ledger.Sum(log, PlainCalories)) else NothingYet
  }

  /** "Clear List", drawn only under a non-empty log: afterwards the
      section is back to the empty-log hint. */
  function ClearList(log: seq<PlainEntry>): (r: seq<PlainEntry>)
    requires |log| > 0
    ensures GrandTotal(r) == NothingYet
  {
    Ledger.Clear(log)
  }

  /** Every row came from "Add to List": its food is in the catalog, its
      quantity is at least the widget's minimum 0.5 and its kcal are the
      per-unit kcal times that quantity. */
  ghost predicate Logged(log: seq<PlainEntry>, catalog: RateCatalog)
  {
    forall i :: 0 <= i < |log| ==>
      && log[i].food in catalog
      && log[i].qty >= 0.5
      && log[i].calories == catalog[log[i].food] * log[i].qty
  }

  /** Adding with a quantity of at least 0.5 keeps every row logged. */
  lemma AddToListKeepsLogged(log: seq<PlainEntry>, catalog: RateCatalog, food: string, qty: real)
    requires food in catalog && qty >= 0.5
    requires Logged(log, catalog)
    ensures Logged(AddToList(log, catalog, food, qty), catalog)
  {
  }

  /** With no negative catalog value, no logged row and hence no grand
      total is negative. */
  lemma GrandTotalNonNegative(log: seq<PlainEntry>, catalog: RateCatalog)
    requires Logged(log, catalog)
    requires forall k :: k in catalog ==> catalog[k] >= 0.0
    ensures forall i :: 0 <= i < |log| ==> log[i].calories >= 0.0
    ensures GrandTotal(log).Total? ==> GrandTotal(log).kcal >= 0.0
  {
    forall i | 0 <= i < |log|
      ensures PlainCalories(log[i]) >= 0.0
    {
      assert catalog[log[i].food] >= 0.0;
    }
    Ledger.SumNonNegative(log, PlainCalories);
  }
}
