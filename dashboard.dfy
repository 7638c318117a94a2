/**
 * One evaluation cycle of the dashboard over its session store.
 *
 * The session keeps the three bucket tables between cycles. A cycle copies
 * them, values the bucket-1 and bucket-3 copies, computes the overview, hands
 * the valued tables to the editor (outside this model) and stores what the
 * editor gives back, with the derived columns of buckets 1 and 3 dropped.
 */
module Dashboard {
  import opened Wrappers
  import opened Pricing
  import opened Valuation
  import opened Totals

  /** The session store: the tables that survive from one cycle to the next. */
  class Session {
    var b1: Frame
    var b2: seq<StrategyRow>
    var b3: Frame

    /** The stored bucket-1 and bucket-3 tables carry input columns only. */
    ghost predicate Valid()
      reads this, b1, b3
    {
      b1.Valid() && b3.Valid() && b1.Value().IsStored() && b3.Value().IsStored()
    }

    /** The first cycle's store, built from the starting tables. */
    constructor (rows1: seq<Row>, rows2: seq<StrategyRow>, rows3: seq<Row>)
      ensures Valid() && fresh(b1) && fresh(b3)
      ensures b1.Value() == Table(rows1, None, None, None)
      ensures b2 == rows2
      ensures b3.Value() == Table(rows3, None, None, None)
    {
      b1 := new Frame(Table(rows1, None, None, None));
      b2 := rows2;
      b3 := new Frame(Table(rows3, None, None, None));
    }

    /** Values copies of the stored tables and computes the overview. Nothing
        stored is modified: every change lands on a fresh copy. */
    method Evaluate(source: string -> Quote) returns (p1: Frame, p2: seq<StrategyRow>, p3: Frame, o: Overview)
      requires Valid()
      ensures fresh(p1) && fresh(p3) && p1 != p3
      ensures p1.Valid() && p3.Valid()
      ensures p1.Value() == Calculate(b1.Value(), source)
      ensures p2 == b2
      ensures p3.Value() == Calculate(b3.Value(), source)
      ensures o == Summarize(p1.Value(), p2, p3.Value())
    {
      p1 := b1.Copy();
      p2 := b2;
      p3 := b3.Copy();
      CalculateMarketValue(p1, source);
      CalculateMarketValue(p3, source);
      o := Summarize(p1.Value(), p2, p3.Value());
    }

    /** Stores the edited tables: bucket 1 without its derived columns, bucket
        2 as it is, then bucket 3 without its derived columns. A drop that
        fails stops the write-back there, leaving the rest as it was. */
    method WriteBack(e1: Frame, e2: seq<StrategyRow>, e3: Frame) returns (ok: bool)
      requires Valid() && e1.Valid() && e3.Valid()
      modifies this
      ensures Valid()
      ensures e1.Value().HasDerived() ==> fresh(b1)
      ensures ok ==> fresh(b3)
      ensures ok <==> e1.Value().HasDerived() && e3.Value().HasDerived()
      ensures e1.Value().HasDerived() ==> b1.Value() == e1.Value().InputsOnly() && b2 == e2
      ensures !e1.Value().HasDerived() ==> b1 == old(b1) && b2 == old(b2) && b3 == old(b3)
      ensures e1.Value().HasDerived() && e3.Value().HasDerived() ==> b3.Value() == e3.Value().InputsOnly()
      ensures e1.Value().HasDerived() && !e3.Value().HasDerived() ==> b3 == old(b3)
    {
      var d1 := e1.Drop();
      if d1.None? {
        return false;
      }
      b1 := d1.value;
      b2 := e2;
      var d3 := e3.Drop();
      if d3.None? {
        return false;
      }
      b3 := d3.value;
      ok := true;
    }

    /** A cycle in which nothing is edited: the editor returns the valued
        tables unchanged. The overview is that of the stored tables, and the
        store is left holding new tables with the contents it held before. */
    method RefreshCycle(source: string -> Quote) returns (o: Overview)
      requires Valid()
      modifies this
      ensures Valid()
      ensures fresh(b1) && fresh(b3)
      ensures o == Summarize(Calculate(old(b1.Value()), source), old(b2), Calculate(old(b3.Value()), source))
      ensures b1.Value() == old(b1.Value()) && b2 == old(b2) && b3.Value() == old(b3.Value())
    {
      var p1, p2, p3;
      p1, p2, p3, o := Evaluate(source);
      DropAfterCalculate(b1.Value(), source);
      DropAfterCalculate(b3.Value(), source);
      var ok := WriteBack(p1, p2, p3);
    }
  }
}
