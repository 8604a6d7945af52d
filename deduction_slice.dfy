/**
 * The deductions store: the list of an employee's deductions and a loading
 * flag, changed in place by the reducers for fetch, add and remove.
 */
module DeductionSlice {

  datatype Deduction = Deduction(id: int, reason: string, amount: int, month: string, year: int)

  /** `items.filter(i => i.id !== id)`. */
  function WithoutId(items: seq<Deduction>, id: int): (kept: seq<Deduction>)
    ensures forall d :: d in kept <==> d in items && d.id != id
    ensures |kept| <= |items|
  {
    if items == [] then []
    else if items[0].id == id then WithoutId(items[1..], id)
    else [items[0]] + WithoutId(items[1..], id)
  }

  /** The number of items carrying a given id. */
  function CountId(items: seq<Deduction>, id: int): nat
  {
    if items == [] then 0 else (if items[0].id == id then 1 else 0) + CountId(items[1..], id)
  }

  /** Filtering works piecewise, so the kept items stay in their original relative order. */
  lemma {:induction false} WithoutIdAppend(a: seq<Deduction>, b: seq<Deduction>, id: int)
    ensures WithoutId(a + b, id) == WithoutId(a, id) + WithoutId(b, id)
  {
    if a == [] {
      assert a + b == b;
    } else {
      assert (a + b)[0] == a[0] && (a + b)[1..] == a[1..] + b;
      WithoutIdAppend(a[1..], b, id);
    }
  }

  /** Exactly the items carrying the id are dropped. */
  lemma {:induction false} WithoutIdLength(items: seq<Deduction>, id: int)
    ensures |WithoutId(items, id)| == |items| - CountId(items, id)
  {
    if items != [] {
      WithoutIdLength(items[1..], id);
    }
  }

  /** Removing an id that no item carries changes nothing. */
  lemma {:induction false} WithoutAbsentId(items: seq<Deduction>, id: int)
    requires forall i :: 0 <= i < |items| ==> items[i].id != id
    ensures WithoutId(items, id) == items
  {
    if items != [] {
      WithoutAbsentId(items[1..], id);
      assert items == [items[0]] + items[1..];
    }
  }

  /** A second removal of the same id changes nothing. */
  lemma WithoutIdIdempotent(items: seq<Deduction>, id: int)
    ensures WithoutId(WithoutId(items, id), id) == WithoutId(items, id)
  {
  }

  class DeductionState {
    var items: seq<Deduction>
    var loading: bool

    /** `initialState`. */
    constructor ()
      ensures items == [] && !loading
    {
      items := [];
      loading := false;
    }

    /** `fetchDeductions.pending`. */
    method FetchPending()
      modifies this
      ensures loading && items == old(items)
    {
      loading := true;
    }

    /** `fetchDeductions.fulfilled`: the fetched list replaces the old one. */
    method FetchFulfilled(payload: seq<Deduction>)
      modifies this
      ensures !loading && items == payload
    {
      loading := false;
      items := payload;
    }

    /**
     * `fetchDeductions.rejected`: the slice has no case for it, so the state
     * stays as it is; after a failed fetch `loading` remains set.
     */
    method FetchRejected()
      modifies this
      ensures items == old(items) && loading == old(loading)
    {
    }

    /** `addDeduction.fulfilled`: the new deduction goes to the front; loading is not touched. */
    method AddFulfilled(payload: Deduction)
      modifies this
      ensures items == [payload] + old(items) && loading == old(loading)
    {
      items := [payload] + items;
    }

    /** `removeDeduction.fulfilled`: every item with that id goes; loading is not touched. */
    method RemoveFulfilled(id: int)
      modifies this
      ensures items == WithoutId(old(items), id) && loading == old(loading)
      ensures forall d :: d in items ==> d.id != id
    {
      items := WithoutId(items, id);
    }
  }
}
