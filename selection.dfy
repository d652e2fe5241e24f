/** The ingredient selection staged in the dialog, and the three edits the
    dialog makes to it: toggle, remove and setting the deduct flag. */
module Selection {
  import opened Domain
  import opened Seqs

  /** No product is staged twice. */
  predicate UniqueIds(sel: seq<SelectedIngredient>)
  {
    forall i, j :: 0 <= i < |sel| && 0 <= j < |sel| && sel[i].productId == sel[j].productId ==> i == j
  }

  /** Every staged ingredient has quantity 1 (nothing in the dialog changes it). */
  predicate UnitQuantities(sel: seq<SelectedIngredient>)
  {
    forall ing :: ing in sel ==> ing.quantity == 1
  }

  /** `selectedIngredients.some(ing => ing.productId === id)` */
  predicate IsSelected(sel: seq<SelectedIngredient>, id: string)
  {
    exists ing :: ing in sel && ing.productId == id
  }

  /** A freshly toggled-on ingredient: quantity 1, deduct stock. */
  function NewEntry(id: string): SelectedIngredient
  {
    SelectedIngredient(id, 1, true)
  }

  /** `prev.filter(i => i.productId !== id)` */
  function Removed(sel: seq<SelectedIngredient>, id: string): (r: seq<SelectedIngredient>)
    ensures forall ing :: ing in r <==> ing in sel && ing.productId != id
    ensures !IsSelected(r, id)
  {
    Filter(sel, (ing: SelectedIngredient) => ing.productId != id)
  }

  /** Removing keeps the order of what is left: Removed distributes over
      concatenation and drops a single entry exactly when it has the id. */
  lemma RemovedKeepsOrder(a: seq<SelectedIngredient>, b: seq<SelectedIngredient>, id: string)
    ensures Removed(a + b, id) == Removed(a, id) + Removed(b, id)
    ensures forall ing :: Removed([ing], id) == if ing.productId == id then [] else [ing]
  {
    FilterConcat(a, b, (ing: SelectedIngredient) => ing.productId != id);
  }

  /** Selecting a listed product: it is removed when staged, and appended
      with quantity 1 and the deduct flag set otherwise. */
  function Toggled(sel: seq<SelectedIngredient>, id: string): (r: seq<SelectedIngredient>)
    ensures IsSelected(r, id) <==> !IsSelected(sel, id)
    ensures IsSelected(sel, id) ==> forall ing :: ing in r <==> ing in sel && ing.productId != id
    ensures IsSelected(sel, id) ==> r == Removed(sel, id)
    ensures !IsSelected(sel, id) ==> |r| == |sel| + 1 && r[..|sel|] == sel && r[|sel|] == NewEntry(id)
  {
    if IsSelected(sel, id) then Removed(sel, id) else sel + [NewEntry(id)]
  }

  /** The deduct checkbox of product `id` set to `checked`. */
  function WithDeduct(sel: seq<SelectedIngredient>, id: string, checked: bool): (r: seq<SelectedIngredient>)
    ensures |r| == |sel|
    ensures forall k :: 0 <= k < |r| ==>
      r[k].productId == sel[k].productId && r[k].quantity == sel[k].quantity
      && r[k].shouldDeductStock == (if sel[k].productId == id then checked else sel[k].shouldDeductStock)
  {
    seq(|sel|, k requires 0 <= k < |sel| =>
      if sel[k].productId == id then sel[k].(shouldDeductStock := checked) else sel[k])
  }

  /** Removing keeps the ids unique. */
  lemma {:induction false} RemovedKeepsUnique(sel: seq<SelectedIngredient>, id: string)
    requires UniqueIds(sel)
    ensures UniqueIds(Removed(sel, id))
    decreases |sel|
  {
    if sel != [] {
      var tail := sel[1..];
      assert UniqueIds(tail) by {
        forall i, j | 0 <= i < |tail| && 0 <= j < |tail| && tail[i].productId == tail[j].productId
          ensures i == j
        {
          assert sel[i + 1] == tail[i] && sel[j + 1] == tail[j];
        }
      }
      RemovedKeepsUnique(tail, id);
      var rest := Removed(tail, id);
      var p := (ing: SelectedIngredient) => ing.productId != id;
      assert Filter(sel, p) == (if p(sel[0]) then [sel[0]] else []) + Filter(tail, p);
      assert Removed(sel, id) == (if p(sel[0]) then [sel[0]] else []) + rest;
      forall ing | ing in rest ensures ing.productId != sel[0].productId {
        var k :| 0 <= k < |tail| && tail[k] == ing;
        assert sel[k + 1] == ing;
      }
    }
  }

  /** Toggling keeps the ids unique and the quantities at 1. */
  lemma ToggledKeepsInvariant(sel: seq<SelectedIngredient>, id: string)
    requires UniqueIds(sel) && UnitQuantities(sel)
    ensures UniqueIds(Toggled(sel, id)) && UnitQuantities(Toggled(sel, id))
  {
    if IsSelected(sel, id) {
      RemovedKeepsUnique(sel, id);
    } else {
      var r := sel + [NewEntry(id)];
      forall i, j | 0 <= i < |r| && 0 <= j < |r| && r[i].productId == r[j].productId
        ensures i == j
      {
        if i < |sel| { assert r[i] in sel; }
        if j < |sel| { assert r[j] in sel; }
      }
    }
  }

  /** Setting a deduct flag keeps the ids unique and the quantities at 1. */
  lemma WithDeductKeepsInvariant(sel: seq<SelectedIngredient>, id: string, checked: bool)
    requires UniqueIds(sel) && UnitQuantities(sel)
    ensures UniqueIds(WithDeduct(sel, id, checked)) && UnitQuantities(WithDeduct(sel, id, checked))
  {
  }

  /** Toggling a product that is not staged, twice, restores the selection. */
  lemma ToggleTwiceRestores(sel: seq<SelectedIngredient>, id: string)
    requires !IsSelected(sel, id)
    ensures Toggled(Toggled(sel, id), id) == sel
  {
    var once := sel + [NewEntry(id)];
    assert once[|sel|] == NewEntry(id);
    assert IsSelected(once, id);
    var p := (ing: SelectedIngredient) => ing.productId != id;
    FilterConcat(sel, [NewEntry(id)], p);
    FilterKeepsAll(sel, p);
    assert Filter([NewEntry(id)], p) == [];
  }
}
