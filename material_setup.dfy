/**
 * The material-setup stage (frontend/src/components/stages/S2_MaterialSetup.jsx):
 * the student puts instruments and reagents on a bench; every bench item is
 * mirrored by the store's selection list of its kind. New items without a
 * drop position are placed on a grid.
 */
module MaterialSetup {
  import opened Base
  import opened SimulatorStore

  /** kind === 'instrument', and every other kind, which the stage treats as a reagent. */
  datatype Kind = Instrument | Reagent

  datatype Pos = Pos(x: real, y: real)

  /** A bench item; the display name and icon come from the catalog and are not modelled. */
  datatype BenchItem = BenchItem(id: string, kind: Kind, x: real, y: real)

  /** The width the bench is laid out for: the ref is created with 700 and never reassigned. */
  const BenchWidth: real := 700.0

  // ---------------------------------------------------------------- grid placement

  /** Items per row: as many 88 px items with 14 px gaps as fit between 30 px margins, at least one. */
  function Columns(width: real): (cols: int)
    ensures cols >= 1
  {
    var fit := ((width - 30.0 * 2.0 + 14.0) / (88.0 + 14.0)).Floor;
    if fit >= 1 then fit else 1
  }

  /** nextPosition: the n-th item's grid cell, columns 102 px apart and rows 108 px apart. */
  function NextPosition(n: nat, width: real): Pos
  {
    var cols := Columns(width);
    Pos((30 + (n % cols) * 102) as real, (20 + (n / cols) * 108) as real)
  }

  /** The bench as laid out has six columns. */
  lemma BenchHasSixColumns()
    ensures Columns(BenchWidth) == 6
  {
    assert (BenchWidth - 30.0 * 2.0 + 14.0) / (88.0 + 14.0) == 654.0 / 102.0;
    assert 6.0 <= 654.0 / 102.0 < 7.0;
  }

  /** Distinct item counts give distinct cells, and every cell lies in the first `cols` columns. */
  lemma NextPositionInjective(n1: nat, n2: nat, width: real)
    ensures n1 != n2 ==> NextPosition(n1, width) != NextPosition(n2, width)
    ensures 30.0 <= NextPosition(n1, width).x <= (30 + (Columns(width) - 1) * 102) as real
    ensures 20.0 <= NextPosition(n1, width).y
  {
    var cols := Columns(width);
    if NextPosition(n1, width) == NextPosition(n2, width) {
      assert n1 % cols == n2 % cols;
      assert n1 / cols == n2 / cols;
      assert n1 == (n1 / cols) * cols + n1 % cols;
      assert n2 == (n2 / cols) * cols + n2 % cols;
    }
  }

  // ---------------------------------------------------------------- bench list updates

  /** The ids of the bench items of one kind. */
  function IdsOfKind(items: seq<BenchItem>, k: Kind): set<string>
  {
    set i | i in items && i.kind == k :: i.id
  }

  /** prev.filter(item => item.id !== id) */
  function RemoveItems(items: seq<BenchItem>, id: string): (r: seq<BenchItem>)
    ensures forall it :: it in r <==> it in items && it.id != id
    ensures id !in IdsOfKind(r, Instrument) && id !in IdsOfKind(r, Reagent)
    ensures forall k :: IdsOfKind(r, k) == IdsOfKind(items, k) - {id}
    decreases |items|
  {
    if items == [] then []
    else
      var rest := RemoveItems(items[1..], id);
      assert forall it :: it in items <==> it == items[0] || it in items[1..];
      if items[0].id == id then rest else [items[0]] + rest
  }

  /** prev.map(item => item.id === id ? {...item, x, y} : item) */
  function MoveItems(items: seq<BenchItem>, id: string, x: real, y: real): (r: seq<BenchItem>)
    ensures |r| == |items|
    ensures forall i :: 0 <= i < |items| ==> r[i].id == items[i].id && r[i].kind == items[i].kind
    ensures forall i :: 0 <= i < |items| && items[i].id == id ==> r[i].x == x && r[i].y == y
    ensures forall i :: 0 <= i < |items| && items[i].id != id ==> r[i] == items[i]
  {
    seq(|items|, i requires 0 <= i < |items| => if items[i].id == id then items[i].(x := x, y := y) else items[i])
  }

  /** Moving changes no item's id or kind, so the ids of each kind stay the same. */
  lemma MoveKeepsIds(items: seq<BenchItem>, id: string, x: real, y: real, k: Kind)
    ensures IdsOfKind(MoveItems(items, id, x, y), k) == IdsOfKind(items, k)
  {
    var r := MoveItems(items, id, x, y);
    forall s | s in IdsOfKind(items, k)
      ensures s in IdsOfKind(r, k)
    {
      var i :| 0 <= i < |items| && items[i].kind == k && items[i].id == s;
      assert r[i] in r;
    }
    forall s | s in IdsOfKind(r, k)
      ensures s in IdsOfKind(items, k)
    {
      var i :| 0 <= i < |r| && r[i].kind == k && r[i].id == s;
      assert items[i] in items;
    }
  }

  function SelectedOf(store: Store, k: Kind): seq<string>
    reads store
  {
    if k == Instrument then store.selectedInstruments else store.selectedReagents
  }

  function Other(k: Kind): Kind
  {
    if k == Instrument then Reagent else Instrument
  }

  class MaterialBench {
    var benchItems: seq<BenchItem>
    var verified: bool
    var errors: seq<string>

    /**
     * The bench mirrors the store: the bench ids of each kind are exactly the
     * selected ids of that kind, and no id is selected as both kinds.
     */
    predicate Synced(store: Store)
      reads this, store
    {
      && IdsOfKind(benchItems, Instrument) == (set s | s in store.selectedInstruments)
      && IdsOfKind(benchItems, Reagent) == (set s | s in store.selectedReagents)
      && (forall s :: s in store.selectedInstruments ==> s !in store.selectedReagents)
    }

    constructor ()
      ensures benchItems == [] && !verified && errors == []
    {
      benchItems, verified, errors := [], false, [];
    }

    /**
     * handleAdd: a no-op for an id already selected as this kind; otherwise
     * the id is toggled into its selection list and exactly one item is
     * appended, at the drop position or at the next grid cell.
     */
    method HandleAdd(store: Store, id: string, kind: Kind, drop: Option<Pos>)
      requires store.Valid()
      modifies this, store`selectedInstruments, store`selectedReagents
      ensures store.Valid()
      ensures id in old(SelectedOf(store, kind)) ==> unchanged(this) && unchanged(store)
      ensures id !in old(SelectedOf(store, kind)) ==>
        var pos := if drop.Some? then drop.value else NextPosition(|old(benchItems)|, BenchWidth);
        && benchItems == old(benchItems) + [BenchItem(id, kind, pos.x, pos.y)]
        && SelectedOf(store, kind) == old(SelectedOf(store, kind)) + [id]
        && SelectedOf(store, Other(kind)) == old(SelectedOf(store, Other(kind)))
        && !verified && errors == []
      ensures old(Synced(store)) && id !in old(SelectedOf(store, Other(kind))) ==> Synced(store)
    {
      var alreadySelected := if kind == Instrument then id in store.selectedInstruments else id in store.selectedReagents;
      if alreadySelected {
        return;
      }
      ghost var before := benchItems;
      if kind == Instrument {
        store.ToggleInstrument(id);
      } else {
        store.ToggleReagent(id);
      }
      var pos := if drop.Some? then drop.value else NextPosition(|benchItems|, BenchWidth);
      var item := BenchItem(id, kind, pos.x, pos.y);
      benchItems := benchItems + [item];
      verified := false;
      errors := [];
      AppendedIds(before, item);
    }

    /**
     * handleRemove: the id is toggled in its kind's list and every bench item
     * with that id goes, whatever its kind. Removing an id that is selected
     * keeps the bench and the store in step.
     */
    method HandleRemove(store: Store, id: string, kind: Kind)
      requires store.Valid()
      modifies this, store`selectedInstruments, store`selectedReagents
      ensures store.Valid()
      ensures benchItems == RemoveItems(old(benchItems), id)
      ensures SelectedOf(store, kind) == Toggle(old(SelectedOf(store, kind)), id)
      ensures SelectedOf(store, Other(kind)) == old(SelectedOf(store, Other(kind)))
      ensures !verified && errors == []
      ensures old(Synced(store)) && id in old(SelectedOf(store, kind)) ==> Synced(store)
    {
      if kind == Instrument {
        store.ToggleInstrument(id);
      } else {
        store.ToggleReagent(id);
      }
      benchItems := RemoveItems(benchItems, id);
      verified := false;
      errors := [];
    }

    /** handleMoveItem: only the coordinates of the items with that id change. */
    method HandleMoveItem(store: Store, id: string, x: real, y: real)
      modifies this`benchItems
      ensures benchItems == MoveItems(old(benchItems), id, x, y)
      ensures old(Synced(store)) ==> Synced(store)
    {
      MoveKeepsIds(benchItems, id, x, y, Instrument);
      MoveKeepsIds(benchItems, id, x, y, Reagent);
      benchItems := MoveItems(benchItems, id, x, y);
    }
  }

  /** Appending an item adds its id to its own kind only. */
  lemma AppendedIds(items: seq<BenchItem>, item: BenchItem)
    ensures IdsOfKind(items + [item], item.kind) == IdsOfKind(items, item.kind) + {item.id}
    ensures IdsOfKind(items + [item], Other(item.kind)) == IdsOfKind(items, Other(item.kind))
  {
    assert forall it :: it in items + [item] <==> it in items || it == item;
  }

  /** An item added without a drop position while the bench holds n items sits in cell n of the six-column grid. */
  lemma GridCellOfAddedItem(n: nat)
    ensures NextPosition(n, BenchWidth) == Pos((30 + (n % 6) * 102) as real, (20 + (n / 6) * 108) as real)
  {
    BenchHasSixColumns();
  }
}
