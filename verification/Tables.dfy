/**
 One table of the inventory database, and the loop with which Import fills it.

 All six tables are filled the same way (internal/store/store.go:838-931): each
 entry of the file is validated and translated, the row with its natural key is
 looked up, and either that row is updated or a new row with a fresh ID is
 inserted; a UNIQUE violation ends the import.  What differs from table to table
 is a `Kind` and a plan, so the facts about that loop are proved once.
 */
module Tables {

  type Id = string

  datatype Error = BadVersion | Invalid | UnknownReference | Conflict | NotFound | InUse

  datatype Outcome<+T> = Ok(value: T) | Err(error: Error) {
    predicate IsFailure() { Err? }
    function PropagateFailure<U>(): Outcome<U> requires Err? { Err(error) }
    function Extract(): T requires Ok? { value }
  }

  /** The column a table is looked up by, and when two rows violate one of its UNIQUE constraints. */
  datatype Kind<!R> = Kind(key: R -> string, clash: (R, R) -> bool)

  /** A translated entry: its ID in the file, the key it is looked up by, and the row to store if new or if known. */
  datatype Item<R> = Item(origin: Id, lookup: string, insert: R, update: R)

  /** `placed[i]` is the row that entry i went to; `ids` maps file IDs to row IDs; `minted` counts the IDs used up. */
  datatype Loaded<R> = Loaded(table: map<Id, R>, placed: seq<Id>, ids: map<Id, Id>, minted: nat)

  ghost predicate Proper<R(!new)>(kind: Kind<R>) {
    && (forall a, b :: kind.key(a) == kind.key(b) ==> kind.clash(a, b))
    && (forall a, b :: kind.clash(a, b) ==> kind.clash(b, a))
  }

  ghost predicate Unique<R>(t: map<Id, R>, kind: Kind<R>) {
    forall a, b :: a in t && b in t && a != b ==> !kind.clash(t[a], t[b])
  }

  /** IDs still to be handed out are unlike each other and unlike those in the table. */
  ghost predicate Fresh<R>(t: map<Id, R>, supply: nat -> Id, minted: nat) {
    && (forall i, j :: minted <= i < j ==> supply(i) != supply(j))
    && (forall i :: minted <= i ==> supply(i) !in t)
  }

  /** SELECT id WHERE key = k. */
  ghost predicate Known<R>(t: map<Id, R>, kind: Kind<R>, k: string) {
    exists id :: id in t && kind.key(t[id]) == k
  }

  ghost function Find<R>(t: map<Id, R>, kind: Kind<R>, k: string): (id: Id)
    requires Known(t, kind, k)
    ensures id in t && kind.key(t[id]) == k
  {
    var id :| id in t && kind.key(t[id]) == k;
    id
  }

  ghost predicate Blocked<R>(t: map<Id, R>, kind: Kind<R>, id: Id, row: R) {
    exists o :: o in t && o != id && kind.clash(t[o], row)
  }

  ghost function Upsert<R>(l: Loaded<R>, item: Item<R>, kind: Kind<R>, supply: nat -> Id): Outcome<Loaded<R>> {
    var known := Known(l.table, kind, item.lookup);
    var id := if known then Find(l.table, kind, item.lookup) else supply(l.minted);
    var row := if known then item.update else item.insert;
    if Blocked(l.table, kind, id, row) || (!known && id in l.table) then Err(Conflict) else
    Ok(Loaded(l.table[id := row], l.placed + [id],
              if item.origin != "" then l.ids[item.origin := id] else l.ids,
              if known then l.minted else l.minted + 1))
  }

  ghost function Load<S, R>(t0: map<Id, R>, n0: nat, src: seq<S>, plan: S -> Outcome<Item<R>>, kind: Kind<R>,
          supply: nat -> Id): (r: Outcome<Loaded<R>>)
  {
    if src == [] then Ok(Loaded(t0, [], map[], n0)) else
    var l :- Load(t0, n0, src[..|src| - 1], plan, kind, supply);
    var item :- plan(src[|src| - 1]);
    Upsert(l, item, kind, supply)
  }

  /** Look the entry up, then update the row found or insert a new one. */
  method UpsertRow<R(!new)>(l: Loaded<R>, item: Item<R>, kind: Kind<R>, supply: nat -> Id)
    returns (r: Outcome<Loaded<R>>)
    requires Proper(kind) && Unique(l.table, kind)
    ensures r == Upsert(l, item, kind, supply)
  {
    var known, id, row, minted := false, supply(l.minted), item.insert, l.minted + 1;
    if found :| found in l.table && kind.key(l.table[found]) == item.lookup {
      known, id, row, minted := true, found, item.update, l.minted;
      FindUnique(l.table, kind, found);
    }
    if (exists o :: o in l.table && o != id && kind.clash(l.table[o], row)) || (!known && id in l.table) {
      return Err(Conflict);
    }
    r := Ok(Loaded(l.table[id := row], l.placed + [id], if item.origin != "" then l.ids[item.origin := id] else l.ids,
      minted));
  }

  /** A natural key names at most one row. */
  lemma FindUnique<R(!new)>(t: map<Id, R>, kind: Kind<R>, id: Id)
    requires Proper(kind) && Unique(t, kind) && id in t
    ensures Known(t, kind, kind.key(t[id])) && Find(t, kind, kind.key(t[id])) == id
  {
    var found := Find(t, kind, kind.key(t[id]));
    assert kind.clash(t[id], t[found]);
  }

  lemma UpsertKeepsUnique<R(!new)>(l: Loaded<R>, item: Item<R>, kind: Kind<R>, supply: nat -> Id)
    requires Proper(kind) && Unique(l.table, kind) && Upsert(l, item, kind, supply).Ok?
    ensures Unique(Upsert(l, item, kind, supply).value.table, kind)
  {
    var known := Known(l.table, kind, item.lookup);
    var id := if known then Find(l.table, kind, item.lookup) else supply(l.minted);
    var row := if known then item.update else item.insert;
    assert !Blocked(l.table, kind, id, row);
  }

  /** The import loop over one table. */
  method LoadRows<S, R(!new)>(t0: map<Id, R>, n0: nat, src: seq<S>, plan: S -> Outcome<Item<R>>, kind: Kind<R>,
          supply: nat -> Id)
    returns (r: Outcome<Loaded<R>>)
    requires Proper(kind) && Unique(t0, kind)
    ensures r == Load(t0, n0, src, plan, kind, supply)
  {
    r := Ok(Loaded(t0, [], map[], n0));
    for i := 0 to |src|
      invariant r == Load(t0, n0, src[..i], plan, kind, supply)
      invariant r.Ok? && Unique(r.value.table, kind)
    {
      assert src[..i + 1][..i] == src[..i];
      LoadPrefix(t0, n0, src, plan, kind, supply, i + 1);
      var planned := plan(src[i]);
      if planned.Err? {
        return Err(planned.error);
      }
      ghost var l := r.value;
      r := UpsertRow(r.value, planned.value, kind, supply);
      if r.Err? {
        return;
      }
      UpsertKeepsUnique(l, planned.value, kind, supply);
    }
    assert src[..|src|] == src;
  }

  /** An error on a prefix is the error of the whole. */
  lemma {:induction false} LoadPrefix<S, R>(t0: map<Id, R>, n0: nat, src: seq<S>, plan: S -> Outcome<Item<R>>,
          kind: Kind<R>, supply: nat -> Id, i: nat)
    requires i <= |src|
    ensures var whole, part := Load(t0, n0, src, plan, kind, supply), Load(t0, n0, src[..i], plan, kind, supply);
            && (part.Err? ==> whole == part)
            && (whole.Ok? ==> part.Ok?)
  {
    if i < |src| {
      assert src[..|src| - 1][..i] == src[..i];
      LoadPrefix(t0, n0, src[..|src| - 1], plan, kind, supply, i);
    } else {
      assert src[..i] == src;
    }
  }

  // ---------------------------------------------------------------- loads of planned entries

  ghost predicate Planned<S, R>(src: seq<S>, plan: S -> Outcome<Item<R>>) {
    forall i :: 0 <= i < |src| ==> plan(src[i]).Ok?
  }

  ghost function Plans<S, R>(src: seq<S>, plan: S -> Outcome<Item<R>>): seq<Item<R>>
    requires Planned(src, plan)
  {
    seq(|src|, i requires 0 <= i < |src| => plan(src[i]).value)
  }

  ghost function Place<R>(t0: map<Id, R>, n0: nat, items: seq<Item<R>>, kind: Kind<R>,
          supply: nat -> Id): Outcome<Loaded<R>>
  {
    if items == [] then Ok(Loaded(t0, [], map[], n0)) else
    var l :- Place(t0, n0, items[..|items| - 1], kind, supply);
    Upsert(l, items[|items| - 1], kind, supply)
  }

  /** A load succeeds exactly when every entry can be planned and the planned entries can be placed. */
  lemma {:induction false} LoadIsPlace<S, R>(t0: map<Id, R>, n0: nat, src: seq<S>, plan: S -> Outcome<Item<R>>,
          kind: Kind<R>, supply: nat -> Id)
    ensures var r := Load(t0, n0, src, plan, kind, supply);
            && (r.Ok? <==> Planned(src, plan) && Place(t0, n0, Plans(src, plan), kind, supply).Ok?)
            && (r.Ok? ==> r == Place(t0, n0, Plans(src, plan), kind, supply))
  {
    if src != [] {
      var n := |src| - 1;
      LoadIsPlace(t0, n0, src[..n], plan, kind, supply);
      assert Planned(src, plan) ==> Planned(src[..n], plan) && plan(src[n]).Ok?;
      assert Planned(src[..n], plan) && plan(src[n]).Ok? ==> Planned(src, plan) by {
        assert forall i :: 0 <= i < n ==> src[..n][i] == src[i];
      }
      if Planned(src, plan) {
        assert Plans(src, plan)[..n] == Plans(src[..n], plan);
      }
    }
  }

  /** Rows are never dropped, and every entry has a row. */
  lemma {:induction false} PlaceShape<R(!new)>(t0: map<Id, R>, n0: nat, items: seq<Item<R>>, kind: Kind<R>,
          supply: nat -> Id)
    requires Place(t0, n0, items, kind, supply).Ok?
    ensures var l := Place(t0, n0, items, kind, supply).value;
            && |l.placed| == |items|
            && t0.Keys <= l.table.Keys
            && (forall i :: 0 <= i < |items| ==> l.placed[i] in l.table)
            && n0 <= l.minted
  {
    if items != [] {
      PlaceShape(t0, n0, items[..|items| - 1], kind, supply);
    }
  }

  ghost predicate Mapped<R>(items: seq<Item<R>>, placed: seq<Id>, ids: map<Id, Id>) {
    && |placed| == |items|
    && (forall k :: k in ids ==> k != "" && exists i :: 0 <= i < |items| && items[i].origin == k && placed[i] == ids[k])
    && (forall i :: 0 <= i < |items| && items[i].origin != "" ==> items[i].origin in ids)
  }

  lemma MappedMore<R>(items: seq<Item<R>>, placed: seq<Id>, ids: map<Id, Id>, item: Item<R>, id: Id)
    requires Mapped(items, placed, ids)
    ensures Mapped(items + [item], placed + [id], if item.origin != "" then ids[item.origin := id] else ids)
  {
    var ids' := if item.origin != "" then ids[item.origin := id] else ids;
    var items', placed' := items + [item], placed + [id];
    forall k | k in ids'
      ensures k != "" && exists i :: 0 <= i < |items'| && items'[i].origin == k && placed'[i] == ids'[k]
    {
      if k == item.origin {
        assert items'[|items|].origin == k;
      } else {
        var i :| 0 <= i < |items| && items[i].origin == k && placed[i] == ids[k];
        assert items'[i].origin == k;
      }
    }
  }

  /** The ID map covers exactly the entries with an ID, and leads to their rows. */
  lemma {:induction false} PlaceIds<R(!new)>(t0: map<Id, R>, n0: nat, items: seq<Item<R>>, kind: Kind<R>,
          supply: nat -> Id)
    requires Place(t0, n0, items, kind, supply).Ok?
    ensures var l := Place(t0, n0, items, kind, supply).value;
            && Mapped(items, l.placed, l.ids)
            && (forall k :: k in l.ids ==> l.ids[k] in l.table)
  {
    PlaceShape(t0, n0, items, kind, supply);
    if items != [] {
      var n := |items| - 1;
      PlaceIds(t0, n0, items[..n], kind, supply);
      var l, m := Place(t0, n0, items[..n], kind, supply).value, Place(t0, n0, items, kind, supply).value;
      assert items == items[..n] + [items[n]];
      MappedMore(items[..n], l.placed, l.ids, items[n], m.placed[n]);
    }
  }

  lemma {:induction false} PlaceKeepsUnique<R(!new)>(t0: map<Id, R>, n0: nat, items: seq<Item<R>>, kind: Kind<R>,
          supply: nat -> Id)
    requires Proper(kind) && Unique(t0, kind) && Place(t0, n0, items, kind, supply).Ok?
    ensures Unique(Place(t0, n0, items, kind, supply).value.table, kind)
  {
    if items != [] {
      var n := |items| - 1;
      PlaceKeepsUnique(t0, n0, items[..n], kind, supply);
      UpsertKeepsUnique(Place(t0, n0, items[..n], kind, supply).value, items[n], kind, supply);
    }
  }

  lemma {:induction false} PlaceKeepsFresh<R(!new)>(t0: map<Id, R>, n0: nat, items: seq<Item<R>>, kind: Kind<R>,
          supply: nat -> Id)
    requires Fresh(t0, supply, n0) && Place(t0, n0, items, kind, supply).Ok?
    ensures var l := Place(t0, n0, items, kind, supply).value;
            && n0 <= l.minted && Fresh(l.table, supply, l.minted)
            && (forall id :: id in l.table && id !in t0 ==> exists i :: n0 <= i < l.minted && supply(i) == id)
  {
    if items != [] {
      PlaceKeepsFresh(t0, n0, items[..|items| - 1], kind, supply);
    }
  }

  /** A property of the stored rows and of every planned row is a property of the result. */
  lemma {:induction false} PlaceAll<R(!new)>(t0: map<Id, R>, n0: nat, items: seq<Item<R>>, kind: Kind<R>,
          supply: nat -> Id, good: R -> bool)
    requires forall id :: id in t0 ==> good(t0[id])
    requires forall i :: 0 <= i < |items| ==> good(items[i].insert) && good(items[i].update)
    requires Place(t0, n0, items, kind, supply).Ok?
    ensures var l := Place(t0, n0, items, kind, supply).value;
            forall id :: id in l.table ==> good(l.table[id])
  {
    if items != [] {
      PlaceAll(t0, n0, items[..|items| - 1], kind, supply, good);
    }
  }

  // ---------------------------------------------------------------- entries with distinct keys

  /**
   Stored keys are tidy (trimmed, say), an entry is stored under the same tidy key
   whether new or known, and it is looked up by that key exactly when its own is tidy.
   */
  ghost predicate Regular<R>(t0: map<Id, R>, items: seq<Item<R>>, kind: Kind<R>, tidy: string -> bool) {
    && (forall id :: id in t0 ==> tidy(kind.key(t0[id])))
    && (forall i :: 0 <= i < |items| ==> Steady(items[i], kind, tidy))
    && (forall i, j :: 0 <= i < j < |items| ==> kind.key(items[i].insert) != kind.key(items[j].insert))
  }

  ghost predicate Steady<R>(item: Item<R>, kind: Kind<R>, tidy: string -> bool) {
    && kind.key(item.insert) == kind.key(item.update)
    && tidy(kind.key(item.insert))
    && (tidy(item.lookup) <==> item.lookup == kind.key(item.insert))
  }

  ghost function Row<R>(t0: map<Id, R>, item: Item<R>, kind: Kind<R>): R {
    if Known(t0, kind, item.lookup) then item.update else item.insert
  }

  /** Where each entry went. */
  ghost predicate Rows<R>(t0: map<Id, R>, items: seq<Item<R>>, kind: Kind<R>, t: map<Id, R>, placed: seq<Id>) {
    && |placed| == |items|
    && (forall i :: 0 <= i < |items| ==> placed[i] in t && t[placed[i]] == Row(t0, items[i], kind))
    && (forall id :: id in t && id !in t0 ==> id in placed)
  }

  /** The keys of the rows that were there stay put. */
  ghost predicate KeysKept<R>(t0: map<Id, R>, kind: Kind<R>, t: map<Id, R>) {
    forall id :: id in t0 ==> id in t && kind.key(t[id]) == kind.key(t0[id])
  }

  /** The key of any row was there before or is that of an entry. */
  lemma KeySource<R(!new)>(t0: map<Id, R>, items: seq<Item<R>>, kind: Kind<R>, tidy: string -> bool, t: map<Id, R>,
          placed: seq<Id>, id: Id)
    requires Regular(t0, items, kind, tidy) && Rows(t0, items, kind, t, placed) && KeysKept(t0, kind, t) && id in t
    ensures tidy(kind.key(t[id]))
    ensures Known(t0, kind, kind.key(t[id]))
            || exists i :: 0 <= i < |items| && kind.key(items[i].insert) == kind.key(t[id])
  {
    if id !in t0 {
      var i :| 0 <= i < |items| && placed[i] == id;
      assert Steady(items[i], kind, tidy);
    }
  }

  /** A new entry's key is none of the earlier entries' keys, so it is known now exactly if it was at the start. */
  lemma StillUnknown<R(!new)>(t0: map<Id, R>, items: seq<Item<R>>, item: Item<R>, kind: Kind<R>, tidy: string -> bool,
          t: map<Id, R>, placed: seq<Id>)
    requires Regular(t0, items + [item], kind, tidy) && Rows(t0, items, kind, t, placed) && KeysKept(t0, kind, t)
    ensures Regular(t0, items, kind, tidy) && Steady(item, kind, tidy)
    ensures forall i :: 0 <= i < |items| ==> kind.key(items[i].insert) != item.lookup
    ensures Known(t, kind, item.lookup) <==> Known(t0, kind, item.lookup)
  {
    var all := items + [item];
    assert all[|items|] == item;
    assert forall i :: 0 <= i < |items| ==> all[i] == items[i];
    forall i | 0 <= i < |items| ensures kind.key(items[i].insert) != item.lookup {
      assert Steady(all[i], kind, tidy);
    }
    if Known(t, kind, item.lookup) {
      KeySource(t0, items, kind, tidy, t, placed, Find(t, kind, item.lookup));
    }
    if Known(t0, kind, item.lookup) {
      assert Find(t0, kind, item.lookup) in t;
    }
  }

  /** Writing the next entry's row disturbs none of the earlier ones. */
  lemma RowsMore<R(!new)>(t0: map<Id, R>, items: seq<Item<R>>, item: Item<R>, kind: Kind<R>, tidy: string -> bool,
          t: map<Id, R>, placed: seq<Id>, id: Id)
    requires Regular(t0, items + [item], kind, tidy) && Rows(t0, items, kind, t, placed) && KeysKept(t0, kind, t)
    requires if Known(t, kind, item.lookup) then id in t && kind.key(t[id]) == item.lookup else id !in t
    ensures Rows(t0, items + [item], kind, t[id := Row(t0, item, kind)], placed + [id])
    ensures KeysKept(t0, kind, t[id := Row(t0, item, kind)])
  {
    StillUnknown(t0, items, item, kind, tidy, t, placed);
    forall i | 0 <= i < |items| ensures placed[i] != id {
      assert Steady(items[i], kind, tidy);
    }
    if id in t {
      KeySource(t0, items, kind, tidy, t, placed, id);
    }
    var placed' := placed + [id];
    assert placed'[|items|] == id;
    forall o | o in t[id := Row(t0, item, kind)] && o !in t0 ensures o in placed' {
      if o != id {
        var i :| 0 <= i < |placed| && placed[i] == o;
        assert placed'[i] == o;
      }
    }
  }

  lemma {:induction false} PlaceRows<R(!new)>(t0: map<Id, R>, n0: nat, items: seq<Item<R>>, kind: Kind<R>,
          supply: nat -> Id, tidy: string -> bool)
    requires Regular(t0, items, kind, tidy) && Place(t0, n0, items, kind, supply).Ok?
    ensures var l := Place(t0, n0, items, kind, supply).value;
            Rows(t0, items, kind, l.table, l.placed) && KeysKept(t0, kind, l.table)
  {
    if items != [] {
      var n := |items| - 1;
      assert items == items[..n] + [items[n]];
      PlaceRows(t0, n0, items[..n], kind, supply, tidy);
      var l, m := Place(t0, n0, items[..n], kind, supply).value, Place(t0, n0, items, kind, supply).value;
      StillUnknown(t0, items[..n], items[n], kind, tidy, l.table, l.placed);
      RowsMore(t0, items[..n], items[n], kind, tidy, l.table, l.placed, m.placed[n]);
    }
  }

  /** Rows that no entry went to are untouched. */
  ghost predicate OthersKept<R>(t0: map<Id, R>, t: map<Id, R>, placed: seq<Id>) {
    forall id :: id in t0 && id !in placed ==> id in t && t[id] == t0[id]
  }

  lemma {:induction false} PlaceLeavesOthers<R(!new)>(t0: map<Id, R>, n0: nat, items: seq<Item<R>>, kind: Kind<R>,
          supply: nat -> Id)
    requires Place(t0, n0, items, kind, supply).Ok?
    ensures var l := Place(t0, n0, items, kind, supply).value; OthersKept(t0, l.table, l.placed)
  {
    if items != [] {
      PlaceLeavesOthers(t0, n0, items[..|items| - 1], kind, supply);
    }
  }

  // ---------------------------------------------------------------- who wrote each row last

  ghost predicate LookedUpByKey<R>(items: seq<Item<R>>, kind: Kind<R>) {
    forall i :: 0 <= i < |items| ==> items[i].lookup == kind.key(items[i].insert) == kind.key(items[i].update)
  }

  ghost predicate Mentions<R>(items: seq<Item<R>>, k: string) { exists i :: 0 <= i < |items| && items[i].lookup == k }

  /** No later entry goes to the same row. */
  ghost predicate Last<R>(items: seq<Item<R>>, i: nat)
    requires i < |items|
  {
    forall j :: i < j < |items| ==> items[j].lookup != items[i].lookup
  }

  /** What entry i stores: an update if its key was there before or an earlier entry has put it there. */
  ghost function Written<R>(t0: map<Id, R>, items: seq<Item<R>>, kind: Kind<R>, i: nat): R
    requires i < |items|
  {
    if Known(t0, kind, items[i].lookup) || Mentions(items[..i], items[i].lookup) then items[i].update
      else items[i].insert
  }

  ghost predicate WrittenBy<R>(t0: map<Id, R>, items: seq<Item<R>>, kind: Kind<R>, i: nat, row: R) {
    i < |items| && Last(items, i) && row == Written(t0, items, kind, i)
  }

  /** The row was there and no entry has its key, or it is what the last entry with its key stores. */
  ghost predicate Sourced<R>(t0: map<Id, R>, items: seq<Item<R>>, kind: Kind<R>, id: Id, row: R) {
    || (id in t0 && t0[id] == row && !Mentions(items, kind.key(row)))
    || (exists i: nat :: WrittenBy(t0, items, kind, i, row))
  }

  lemma {:induction false} PlaceKnown<R(!new)>(t0: map<Id, R>, n0: nat, items: seq<Item<R>>, kind: Kind<R>,
          supply: nat -> Id, k: string)
    requires LookedUpByKey(items, kind) && Place(t0, n0, items, kind, supply).Ok?
    ensures Known(Place(t0, n0, items, kind, supply).value.table, kind, k) <==> Known(t0, kind, k) || Mentions(items, k)
  {
    if items != [] {
      var n := |items| - 1;
      PlaceKnown(t0, n0, items[..n], kind, supply, k);
      UpsertKnown(Place(t0, n0, items[..n], kind, supply).value, items[n], kind, supply, k);
      MentionsMore(items, n, k);
    }
  }

  lemma MentionsMore<R>(items: seq<Item<R>>, n: nat, k: string)
    requires |items| == n + 1
    ensures Mentions(items, k) <==> Mentions(items[..n], k) || items[n].lookup == k
  {
    if i :| 0 <= i < n && items[..n][i].lookup == k {
      assert items[i].lookup == k;
    }
    if i :| 0 <= i < |items| && items[i].lookup == k && i != n {
      assert items[..n][i].lookup == k;
    }
  }

  lemma UpsertKnown<R(!new)>(l: Loaded<R>, item: Item<R>, kind: Kind<R>, supply: nat -> Id, k: string)
    requires item.lookup == kind.key(item.insert) == kind.key(item.update) && Upsert(l, item, kind, supply).Ok?
    ensures Known(Upsert(l, item, kind, supply).value.table, kind, k) <==> Known(l.table, kind, k) || item.lookup == k
  {
    var t := Upsert(l, item, kind, supply).value.table;
    var known := Known(l.table, kind, item.lookup);
    var id := if known then Find(l.table, kind, item.lookup) else supply(l.minted);
    assert id in t && kind.key(t[id]) == item.lookup;
    if Known(l.table, kind, k) && k != item.lookup {
      var o := Find(l.table, kind, k);
      assert o in t && kind.key(t[o]) == k;
    }
    if Known(t, kind, k) && k != item.lookup {
      var o := Find(t, kind, k);
      assert o in l.table && kind.key(l.table[o]) == k;
    }
  }

  /** An entry that is the last of its key among the first n stays so if the next one has another key. */
  lemma WrittenMore<R>(t0: map<Id, R>, items: seq<Item<R>>, kind: Kind<R>, n: nat, i: nat, row: R)
    requires |items| == n + 1 && i < n && items[i].lookup != items[n].lookup
    ensures WrittenBy(t0, items[..n], kind, i, row) <==> WrittenBy(t0, items, kind, i, row)
  {
    assert items[..n][..i] == items[..i];
    if Last(items[..n], i) {
      forall j | i < j < |items| ensures items[j].lookup != items[i].lookup {
        assert j < n ==> items[..n][j] == items[j];
      }
    }
    if Last(items, i) {
      forall j | i < j < n ensures items[..n][j].lookup != items[..n][i].lookup {
        assert items[..n][j] == items[j];
      }
    }
  }

  /** The row that an entry writes alone has that entry's key; the others stay. */
  lemma UpsertRowOf<R(!new)>(l: Loaded<R>, item: Item<R>, kind: Kind<R>, supply: nat -> Id, id: Id)
    requires Proper(kind) && Unique(l.table, kind) && item.lookup == kind.key(item.insert) == kind.key(item.update)
    requires Upsert(l, item, kind, supply).Ok? && id in Upsert(l, item, kind, supply).value.table
    ensures var t := Upsert(l, item, kind, supply).value.table;
            if kind.key(t[id]) == item.lookup then t[id] == Row(l.table, item, kind)
              else id in l.table && t[id] == l.table[id]
  {
    var m := Upsert(l, item, kind, supply).value;
    UpsertKeepsUnique(l, item, kind, supply);
    var own := if Known(l.table, kind, item.lookup) then Find(l.table, kind, item.lookup) else supply(l.minted);
    assert m.table == l.table[own := Row(l.table, item, kind)];
  }

  lemma UpsertWrites<R(!new)>(t0: map<Id, R>, n0: nat, items: seq<Item<R>>, kind: Kind<R>, supply: nat -> Id, id: Id)
    requires Proper(kind) && Unique(t0, kind) && items != [] && LookedUpByKey(items, kind)
    requires Place(t0, n0, items, kind, supply).Ok?
    requires id in Place(t0, n0, items, kind, supply).value.table
    ensures var n := |items| - 1;
            && Place(t0, n0, items[..n], kind, supply).Ok?
            && var l, m := Place(t0, n0, items[..n], kind, supply).value, Place(t0, n0, items, kind, supply).value;
            if kind.key(m.table[id]) == items[n].lookup then WrittenBy(t0, items, kind, n, m.table[id])
              else id in l.table && m.table[id] == l.table[id]
  {
    var n := |items| - 1;
    PlaceKnown(t0, n0, items[..n], kind, supply, items[n].lookup);
    PlaceKeepsUnique(t0, n0, items[..n], kind, supply);
    UpsertRowOf(Place(t0, n0, items[..n], kind, supply).value, items[n], kind, supply, id);
  }

  lemma {:induction false} PlaceSourced<R(!new)>(t0: map<Id, R>, n0: nat, items: seq<Item<R>>, kind: Kind<R>,
          supply: nat -> Id, id: Id)
    requires Proper(kind) && Unique(t0, kind) && LookedUpByKey(items, kind) && Place(t0, n0, items, kind, supply).Ok?
    requires id in Place(t0, n0, items, kind, supply).value.table
    ensures Sourced(t0, items, kind, id, Place(t0, n0, items, kind, supply).value.table[id])
  {
    if items != [] {
      var n := |items| - 1;
      var row := Place(t0, n0, items, kind, supply).value.table[id];
      UpsertWrites(t0, n0, items, kind, supply, id);
      if kind.key(row) != items[n].lookup {
        PlaceSourced(t0, n0, items[..n], kind, supply, id);
        MentionsMore(items, n, kind.key(row));
        if i: nat :| WrittenBy(t0, items[..n], kind, i, row) {
          assert items[i].lookup == kind.key(row);
          WrittenMore(t0, items, kind, n, i, row);
        }
      }
    }
  }

  /** What the last entry of a key stores is in the table. */
  lemma {:induction false} PlaceHolds<R(!new)>(t0: map<Id, R>, n0: nat, items: seq<Item<R>>, kind: Kind<R>,
          supply: nat -> Id, i: nat)
    returns (id: Id)
    requires LookedUpByKey(items, kind) && Place(t0, n0, items, kind, supply).Ok? && i < |items| && Last(items, i)
    ensures var t := Place(t0, n0, items, kind, supply).value.table; id in t && t[id] == Written(t0, items, kind, i)
  {
    var n := |items| - 1;
    PlaceKnown(t0, n0, items[..n], kind, supply, items[n].lookup);
    if i == n {
      PlaceShape(t0, n0, items[..n], kind, supply);
      id := Place(t0, n0, items, kind, supply).value.placed[n];
    } else {
      assert items[i].lookup != items[n].lookup;
      WrittenMore(t0, items, kind, n, i, Written(t0, items, kind, i));
      id := PlaceHolds(t0, n0, items[..n], kind, supply, i);
    }
  }

  /** Given that all rows were good, they are good exactly if what the last entry of each key stores is. */
  lemma PlaceAllIff<R(!new)>(t0: map<Id, R>, n0: nat, items: seq<Item<R>>, kind: Kind<R>, supply: nat -> Id,
          good: R -> bool)
    requires Proper(kind) && Unique(t0, kind) && LookedUpByKey(items, kind) && Place(t0, n0, items, kind, supply).Ok?
    requires forall id :: id in t0 ==> good(t0[id])
    ensures var t := Place(t0, n0, items, kind, supply).value.table;
            (forall id :: id in t ==> good(t[id])) <==>
             forall i :: 0 <= i < |items| && Last(items, i) ==> good(Written(t0, items, kind, i))
  {
    var t := Place(t0, n0, items, kind, supply).value.table;
    if forall id :: id in t ==> good(t[id]) {
      forall i | 0 <= i < |items| && Last(items, i) ensures good(Written(t0, items, kind, i)) {
        var id := PlaceHolds(t0, n0, items, kind, supply, i);
      }
    }
    if forall i :: 0 <= i < |items| && Last(items, i) ==> good(Written(t0, items, kind, i)) {
      forall id | id in t ensures good(t[id]) {
        PlaceSourced(t0, n0, items, kind, supply, id);
      }
    }
  }

  // ---------------------------------------------------------------- loading the same entries again

  ghost function IdsOf<R>(items: seq<Item<R>>, placed: seq<Id>): map<Id, Id>
    requires |placed| == |items|
  {
    if items == [] then map[] else
    var n := |items| - 1;
    var ids := IdsOf(items[..n], placed[..n]);
    if items[n].origin != "" then ids[items[n].origin := placed[n]] else ids
  }

  lemma {:induction false} PlacedIds<R(!new)>(t0: map<Id, R>, n0: nat, items: seq<Item<R>>, kind: Kind<R>,
          supply: nat -> Id)
    requires Place(t0, n0, items, kind, supply).Ok?
    ensures var l := Place(t0, n0, items, kind, supply).value;
            |l.placed| == |items| && l.ids == IdsOf(items, l.placed)
  {
    if items != [] {
      var n := |items| - 1;
      PlacedIds(t0, n0, items[..n], kind, supply);
      var l, m := Place(t0, n0, items[..n], kind, supply).value, Place(t0, n0, items, kind, supply).value;
      assert m.placed[..n] == l.placed;
    }
  }

  lemma UpsertNoop<R(!new)>(l: Loaded<R>, item: Item<R>, kind: Kind<R>, supply: nat -> Id, id: Id)
    requires Proper(kind) && Unique(l.table, kind)
    requires id in l.table && l.table[id] == item.update && kind.key(item.update) == item.lookup
    ensures Upsert(l, item, kind, supply) ==
            Ok(Loaded(l.table, l.placed + [id], if item.origin != "" then l.ids[item.origin := id] else l.ids,
            l.minted))
  {
    FindUnique(l.table, kind, id);
    assert l.table[id := item.update] == l.table;
    assert !Blocked(l.table, kind, id, item.update);
  }

  /** Entries whose rows are already in place change nothing and mint nothing. */
  lemma {:induction false} PlaceNoop<R(!new)>(t: map<Id, R>, n1: nat, items: seq<Item<R>>, kind: Kind<R>,
          supply: nat -> Id, placed: seq<Id>)
    requires Proper(kind) && Unique(t, kind) && |placed| == |items|
    requires forall i :: 0 <= i < |items| ==>
             placed[i] in t && t[placed[i]] == items[i].update && kind.key(items[i].update) == items[i].lookup
    ensures Place(t, n1, items, kind, supply) == Ok(Loaded(t, placed, IdsOf(items, placed), n1))
  {
    if items == [] {
      assert placed == [];
    } else {
      var n := |items| - 1;
      PlaceNoop(t, n1, items[..n], kind, supply, placed[..n]);
      UpsertNoop(Loaded(t, placed[..n], IdsOf(items[..n], placed[..n]), n1), items[n], kind, supply, placed[n]);
      assert placed[..n] + [placed[n]] == placed;
    }
  }

  /** The entries that a second load treats as the first did. */
  ghost predicate Repeatable<R>(t0: map<Id, R>, items: seq<Item<R>>, kind: Kind<R>) {
    forall i :: 0 <= i < |items| ==>
      && items[i].lookup == kind.key(items[i].insert)
      && (items[i].insert == items[i].update || Known(t0, kind, items[i].lookup))
  }

  lemma PlaceTwice<R(!new)>(t0: map<Id, R>, n0: nat, items: seq<Item<R>>, kind: Kind<R>, supply: nat -> Id,
          tidy: string -> bool, n1: nat)
    requires Proper(kind) && Unique(t0, kind) && Regular(t0, items, kind, tidy) && Repeatable(t0, items, kind)
    requires Place(t0, n0, items, kind, supply).Ok?
    ensures var l := Place(t0, n0, items, kind, supply).value;
            Place(l.table, n1, items, kind, supply) == Ok(l.(minted := n1))
  {
    var l := Place(t0, n0, items, kind, supply).value;
    PlaceRows(t0, n0, items, kind, supply, tidy);
    PlaceKeepsUnique(t0, n0, items, kind, supply);
    PlacedIds(t0, n0, items, kind, supply);
    forall i | 0 <= i < |items|
      ensures l.table[l.placed[i]] == items[i].update && kind.key(items[i].update) == items[i].lookup
    {
      assert Steady(items[i], kind, tidy);
    }
    PlaceNoop(l.table, n1, items, kind, supply, l.placed);
  }

  lemma {:induction false} PlacePrefix<R(!new)>(t0: map<Id, R>, n0: nat, items: seq<Item<R>>, kind: Kind<R>,
          supply: nat -> Id, i: nat)
    requires i <= |items| && Place(t0, n0, items, kind, supply).Ok?
    ensures Place(t0, n0, items[..i], kind, supply).Ok?
  {
    if i < |items| {
      var n := |items| - 1;
      assert items[..n][..i] == items[..i];
      PlacePrefix(t0, n0, items[..n], kind, supply, i);
    } else {
      assert items[..i] == items;
    }
  }

  /** An entry looked up by an untidy key is never found: loading it again collides with its own row. */
  lemma UntidyCollides<R(!new)>(t: map<Id, R>, n1: nat, items: seq<Item<R>>, kind: Kind<R>, supply: nat -> Id,
          tidy: string -> bool, i: nat, own: Id)
    requires Proper(kind) && Regular(t, items, kind, tidy) && Fresh(t, supply, n1)
    requires i < |items| && !tidy(items[i].lookup)
    requires own in t && kind.key(t[own]) == kind.key(items[i].insert)
    ensures Place(t, n1, items, kind, supply).Err?
  {
    if Place(t, n1, items, kind, supply).Ok? {
      PlacePrefix(t, n1, items, kind, supply, i + 1);
      PlacePrefix(t, n1, items, kind, supply, i);
      assert items[..i + 1][..i] == items[..i];
      var l := Place(t, n1, items[..i], kind, supply).value;
      PlaceRows(t, n1, items[..i], kind, supply, tidy);
      PlaceKeepsFresh(t, n1, items[..i], kind, supply);
      if Known(l.table, kind, items[i].lookup) {
        KeySource(t, items[..i], kind, tidy, l.table, l.placed, Find(l.table, kind, items[i].lookup));
      }
      assert kind.clash(l.table[own], items[i].insert);
      assert Blocked(l.table, kind, supply(l.minted), items[i].insert);
    }
  }

  /** A second load leaves the table as it is exactly when the entries are repeatable. */
  lemma PlaceTwiceOnlyIf<R(!new)>(t0: map<Id, R>, n0: nat, items: seq<Item<R>>, kind: Kind<R>, supply: nat -> Id,
          tidy: string -> bool, n1: nat)
    requires Proper(kind) && Unique(t0, kind) && Regular(t0, items, kind, tidy) && Fresh(t0, supply, n0)
    requires Place(t0, n0, items, kind, supply).Ok?
    requires var l := Place(t0, n0, items, kind, supply).value;
             var again := Place(l.table, n1, items, kind, supply);
             l.minted <= n1 && again.Ok? && again.value.table == l.table
    ensures Repeatable(t0, items, kind)
  {
    var l := Place(t0, n0, items, kind, supply).value;
    var again := Place(l.table, n1, items, kind, supply).value;
    PlaceRows(t0, n0, items, kind, supply, tidy);
    PlaceKeepsUnique(t0, n0, items, kind, supply);
    PlaceKeepsFresh(t0, n0, items, kind, supply);
    forall id | id in l.table ensures tidy(kind.key(l.table[id])) {
      KeySource(t0, items, kind, tidy, l.table, l.placed, id);
    }
    forall i | 0 <= i < |items|
      ensures items[i].lookup == kind.key(items[i].insert)
      ensures items[i].insert == items[i].update || Known(t0, kind, items[i].lookup)
    {
      assert Steady(items[i], kind, tidy);
      if !tidy(items[i].lookup) {
        UntidyCollides(l.table, n1, items, kind, supply, tidy, i, l.placed[i]);
      }
      PlaceRows(l.table, n1, items, kind, supply, tidy);
      SameRow(l, again, items[i], kind, i);
    }
  }

  lemma SameRow<R(!new)>(l: Loaded<R>, again: Loaded<R>, item: Item<R>, kind: Kind<R>, i: nat)
    requires Proper(kind) && Unique(l.table, kind) && again.table == l.table
    requires i < |l.placed| && i < |again.placed| && l.placed[i] in l.table && again.placed[i] in l.table
    requires kind.key(l.table[l.placed[i]]) == item.lookup && kind.key(l.table[again.placed[i]]) == item.lookup
    ensures l.placed[i] == again.placed[i]
  {
    assert kind.clash(l.table[l.placed[i]], l.table[again.placed[i]]);
  }

  // ---------------------------------------------------------------- loading into an empty table

  ghost predicate Clashless<R>(items: seq<Item<R>>, kind: Kind<R>) {
    && (forall i :: 0 <= i < |items| ==> items[i].lookup == kind.key(items[i].insert))
    && (forall i, j :: 0 <= i < j < |items| ==> !kind.clash(items[i].insert, items[j].insert))
  }

  /** Every entry is a new row, in order, and there is no other. */
  ghost predicate AllNew<R>(n0: nat, items: seq<Item<R>>, supply: nat -> Id, l: Loaded<R>) {
    && |l.placed| == |items| && l.minted == n0 + |items|
    && (forall i :: 0 <= i < |items| ==>
        l.placed[i] == supply(n0 + i) && l.placed[i] in l.table && l.table[l.placed[i]] == items[i].insert)
    && (forall id :: id in l.table ==> id in l.placed)
  }

  lemma UpsertNew<R(!new)>(n0: nat, items: seq<Item<R>>, item: Item<R>, kind: Kind<R>, supply: nat -> Id, l: Loaded<R>)
    requires Proper(kind) && Clashless(items + [item], kind) && AllNew(n0, items, supply, l)
    requires forall i, j :: n0 <= i < j ==> supply(i) != supply(j)
    ensures Upsert(l, item, kind, supply).Ok?
    ensures Upsert(l, item, kind, supply).value.placed == l.placed + [supply(l.minted)]
    ensures Upsert(l, item, kind, supply).value.table == l.table[supply(l.minted) := item.insert]
    ensures Upsert(l, item, kind, supply).value.minted == l.minted + 1
  {
    var all := items + [item];
    assert all[|items|] == item;
    forall o | o in l.table ensures !kind.clash(l.table[o], item.insert) && o != supply(l.minted) {
      var i :| 0 <= i < |items| && l.placed[i] == o;
      assert all[i] == items[i];
    }
    assert !Known(l.table, kind, item.lookup);
    assert !Blocked(l.table, kind, supply(l.minted), item.insert);
  }

  lemma AllNewMore<R>(n0: nat, items: seq<Item<R>>, item: Item<R>, supply: nat -> Id, l: Loaded<R>, m: Loaded<R>)
    requires AllNew(n0, items, supply, l)
    requires forall i, j :: n0 <= i < j ==> supply(i) != supply(j)
    requires m.placed == l.placed + [supply(l.minted)] && m.table == l.table[supply(l.minted) := item.insert]
    requires m.minted == l.minted + 1
    ensures AllNew(n0, items + [item], supply, m)
  {
    var id := supply(l.minted);
    forall o | o in m.table ensures o in m.placed {
      if o == id {
        assert m.placed[|items|] == o;
      } else {
        var i :| 0 <= i < |items| && l.placed[i] == o;
        assert m.placed[i] == o;
      }
    }
  }

  lemma {:induction false} PlaceFresh<R(!new)>(n0: nat, items: seq<Item<R>>, kind: Kind<R>, supply: nat -> Id)
    requires Proper(kind) && Clashless(items, kind)
    requires forall i, j :: n0 <= i < j ==> supply(i) != supply(j)
    ensures Place(map[], n0, items, kind, supply).Ok?
    ensures AllNew(n0, items, supply, Place(map[], n0, items, kind, supply).value)
  {
    if items != [] {
      var n := |items| - 1;
      assert items == items[..n] + [items[n]];
      PlaceFresh(n0, items[..n], kind, supply);
      var l := Place(map[], n0, items[..n], kind, supply).value;
      UpsertNew(n0, items[..n], items[n], kind, supply, l);
      AllNewMore(n0, items[..n], items[n], supply, l, Place(map[], n0, items, kind, supply).value);
    }
  }

  lemma IndexOf<R>(items: seq<Item<R>>, placed: seq<Id>, ids: map<Id, Id>, k: Id) returns (i: nat)
    requires Mapped(items, placed, ids) && k in ids
    ensures i < |items| == |placed| && items[i].origin == k && placed[i] == ids[k]
  {
    i :| 0 <= i < |items| && items[i].origin == k && placed[i] == ids[k];
  }

  lemma MappedInjective<R>(items: seq<Item<R>>, placed: seq<Id>, ids: map<Id, Id>, a: Id, b: Id)
    requires Mapped(items, placed, ids)
    requires forall i, j :: 0 <= i < j < |placed| ==> placed[i] != placed[j]
    requires a in ids && b in ids && a != b
    ensures ids[a] != ids[b]
  {
    var i := IndexOf(items, placed, ids, a);
    var j := IndexOf(items, placed, ids, b);
  }

  /** Entries with distinct keys go to distinct rows, so the ID map is one-to-one. */
  lemma IdsInjective<R(!new)>(t0: map<Id, R>, n0: nat, items: seq<Item<R>>, kind: Kind<R>, supply: nat -> Id,
          tidy: string -> bool)
    requires Regular(t0, items, kind, tidy) && Place(t0, n0, items, kind, supply).Ok?
    ensures var l := Place(t0, n0, items, kind, supply).value;
            forall a, b :: a in l.ids && b in l.ids && a != b ==> l.ids[a] != l.ids[b]
  {
    var l := Place(t0, n0, items, kind, supply).value;
    PlaceRows(t0, n0, items, kind, supply, tidy);
    PlaceIds(t0, n0, items, kind, supply);
    forall i, j | 0 <= i < j < |l.placed| ensures l.placed[i] != l.placed[j] {
      assert Steady(items[i], kind, tidy) && Steady(items[j], kind, tidy);
    }
    forall a, b | a in l.ids && b in l.ids && a != b ensures l.ids[a] != l.ids[b] {
      MappedInjective(items, l.placed, l.ids, a, b);
    }
  }

  // ---------------------------------------------------------------- export and import of one table

  /** A row with its ID, as a file holds it. */
  datatype Entry<R> = Entry(id: Id, row: R)

  /** The entries are the rows of the table, each once, in some order. */
  ghost predicate Lists<R>(entries: seq<Entry<R>>, t: map<Id, R>) {
    && (forall i :: 0 <= i < |entries| ==> entries[i].id in t && entries[i].row == t[entries[i].id])
    && (forall i, j :: 0 <= i < j < |entries| ==> entries[i].id != entries[j].id)
    && (forall id :: id in t ==> exists i :: 0 <= i < |entries| && entries[i].id == id)
  }

  method ListRows<R>(t: map<Id, R>) returns (entries: seq<Entry<R>>)
    ensures Lists(entries, t)
  {
    entries := [];
    var left := t.Keys;
    while left != {}
      invariant left <= t.Keys
      invariant forall i :: 0 <= i < |entries| ==>
                entries[i].id in t && entries[i].id !in left && entries[i].row == t[entries[i].id]
      invariant forall i, j :: 0 <= i < j < |entries| ==> entries[i].id != entries[j].id
      invariant forall id :: id in t && id !in left ==> exists i :: 0 <= i < |entries| && entries[i].id == id
      decreases left
    {
      var id :| id in left;
      ghost var before := entries;
      entries := entries + [Entry(id, t[id])];
      left := left - {id};
      forall o | o in t && o !in left ensures exists i :: 0 <= i < |entries| && entries[i].id == o {
        if o == id {
          assert entries[|before|].id == o;
        } else {
          var i :| 0 <= i < |before| && before[i].id == o;
          assert entries[i].id == o;
        }
      }
    }
  }

  /** ids is a bijection from the rows of t to those of t', under which rows correspond up to rename. */
  ghost predicate Corresponds<R>(t: map<Id, R>, t': map<Id, R>, ids: map<Id, Id>, rename: R -> R) {
    && ids.Keys == t.Keys
    && (forall a, b :: a in ids && b in ids && a != b ==> ids[a] != ids[b])
    && (forall id :: id in t ==> ids[id] in t' && t'[ids[id]] == rename(t[id]))
    && (forall o :: o in t' ==> exists id :: id in ids && ids[id] == o)
  }

  ghost predicate Exported<R>(t: map<Id, R>, entries: seq<Entry<R>>, items: seq<Item<R>>, kind: Kind<R>,
          rename: R -> R)
  {
    && |items| == |entries|
    && (forall i :: 0 <= i < |items| ==> entries[i].id in t && items[i].origin == entries[i].id)
    && (forall i :: 0 <= i < |items| ==>
        items[i].insert == rename(t[entries[i].id]) && items[i].lookup == kind.key(items[i].insert))
  }

  lemma RoundTripRow<R(!new)>(t: map<Id, R>, entries: seq<Entry<R>>, items: seq<Item<R>>, n0: nat, kind: Kind<R>,
          supply: nat -> Id, rename: R -> R, l: Loaded<R>, id: Id)
    requires Lists(entries, t) && Exported(t, entries, items, kind, rename) && "" !in t && id in t
    requires Mapped(items, l.placed, l.ids) && AllNew(n0, items, supply, l)
    ensures id in l.ids && l.ids[id] in l.table && l.table[l.ids[id]] == rename(t[id])
  {
    var i :| 0 <= i < |entries| && entries[i].id == id;
    assert items[i].origin == id;
    var j := IndexOf(items, l.placed, l.ids, id);
  }

  lemma OldIds<R(!new)>(items: seq<Item<R>>, placed: seq<Id>, ids: map<Id, Id>)
    requires Mapped(items, placed, ids)
    requires forall i, j :: 0 <= i < j < |items| ==> items[i].origin != items[j].origin
    requires forall i :: 0 <= i < |items| ==> items[i].origin != ""
    ensures forall o :: o in placed ==> exists id :: id in ids && ids[id] == o
  {
    forall o | o in placed ensures exists id :: id in ids && ids[id] == o {
      var i :| 0 <= i < |items| && placed[i] == o;
      var j := IndexOf(items, placed, ids, items[i].origin);
    }
  }

  lemma ExportedClashless<R(!new)>(t: map<Id, R>, entries: seq<Entry<R>>, items: seq<Item<R>>, kind: Kind<R>,
          rename: R -> R)
    requires Lists(entries, t) && Exported(t, entries, items, kind, rename)
    requires forall a, b :: a in t && b in t && a != b ==> !kind.clash(rename(t[a]), rename(t[b]))
    ensures Clashless(items, kind)
  {
    forall i, j | 0 <= i < j < |items| ensures !kind.clash(items[i].insert, items[j].insert) {
      var a, b := entries[i].id, entries[j].id;
      assert items[i].insert == rename(t[a]) && items[j].insert == rename(t[b]);
    }
  }

  lemma ListedKeys<R(!new)>(t: map<Id, R>, entries: seq<Entry<R>>, items: seq<Item<R>>, kind: Kind<R>, rename: R -> R,
          placed: seq<Id>, ids: map<Id, Id>)
    requires Lists(entries, t) && Exported(t, entries, items, kind, rename) && "" !in t
    requires Mapped(items, placed, ids)
    ensures ids.Keys == t.Keys
  {
    forall k | k in ids ensures k in t {
      var i := IndexOf(items, placed, ids, k);
      assert items[i].origin == entries[i].id;
    }
    forall k | k in t ensures k in ids {
      var i :| 0 <= i < |entries| && entries[i].id == k;
      assert items[i].origin == k;
    }
  }

  lemma ListedOld<R(!new)>(t: map<Id, R>, entries: seq<Entry<R>>, items: seq<Item<R>>, kind: Kind<R>, rename: R -> R,
          placed: seq<Id>, ids: map<Id, Id>)
    requires Lists(entries, t) && Exported(t, entries, items, kind, rename) && "" !in t
    requires Mapped(items, placed, ids)
    ensures forall o :: o in placed ==> exists id :: id in ids && ids[id] == o
  {
    assert forall i :: 0 <= i < |items| ==> items[i].origin == entries[i].id;
    OldIds(items, placed, ids);
  }

  lemma RoundTripRows<R(!new)>(t: map<Id, R>, entries: seq<Entry<R>>, items: seq<Item<R>>, n0: nat, kind: Kind<R>,
          supply: nat -> Id, rename: R -> R, l: Loaded<R>)
    requires Lists(entries, t) && Exported(t, entries, items, kind, rename) && "" !in t
    requires Mapped(items, l.placed, l.ids) && AllNew(n0, items, supply, l)
    ensures forall id :: id in t ==> id in l.ids && l.ids[id] in l.table && l.table[l.ids[id]] == rename(t[id])
  {
    forall id | id in t ensures id in l.ids && l.ids[id] in l.table && l.table[l.ids[id]] == rename(t[id]) {
      RoundTripRow(t, entries, items, n0, kind, supply, rename, l, id);
    }
  }

  lemma ListedBijection<R(!new)>(t: map<Id, R>, entries: seq<Entry<R>>, items: seq<Item<R>>, n0: nat, kind: Kind<R>,
          supply: nat -> Id, rename: R -> R, l: Loaded<R>)
    requires Lists(entries, t) && Exported(t, entries, items, kind, rename) && "" !in t
    requires forall i, j :: n0 <= i < j ==> supply(i) != supply(j)
    requires Mapped(items, l.placed, l.ids) && AllNew(n0, items, supply, l)
    ensures Corresponds(t, l.table, l.ids, rename)
  {
    NewIdsInjective(n0, items, supply, l);
    ListedKeys(t, entries, items, kind, rename, l.placed, l.ids);
    RoundTripRows(t, entries, items, n0, kind, supply, rename, l);
    ListedOld(t, entries, items, kind, rename, l.placed, l.ids);
  }

  lemma NewIdsInjective<R(!new)>(n0: nat, items: seq<Item<R>>, supply: nat -> Id, l: Loaded<R>)
    requires forall i, j :: n0 <= i < j ==> supply(i) != supply(j)
    requires Mapped(items, l.placed, l.ids) && AllNew(n0, items, supply, l)
    ensures forall a, b :: a in l.ids && b in l.ids && a != b ==> l.ids[a] != l.ids[b]
  {
    forall i, j | 0 <= i < j < |l.placed| ensures l.placed[i] != l.placed[j] {
      assert l.placed[i] == supply(n0 + i) && l.placed[j] == supply(n0 + j);
    }
    forall a, b | a in l.ids && b in l.ids && a != b ensures l.ids[a] != l.ids[b] {
      MappedInjective(items, l.placed, l.ids, a, b);
    }
  }

  /** Importing what was exported, under whatever renaming of references, rebuilds the table under new IDs. */
  lemma RoundTripTable<R(!new)>(t: map<Id, R>, entries: seq<Entry<R>>, items: seq<Item<R>>, n0: nat, kind: Kind<R>,
          supply: nat -> Id, rename: R -> R)
    requires Proper(kind) && Lists(entries, t) && Exported(t, entries, items, kind, rename) && "" !in t
    requires forall a, b :: a in t && b in t && a != b ==> !kind.clash(rename(t[a]), rename(t[b]))
    requires forall i, j :: n0 <= i < j ==> supply(i) != supply(j)
    ensures Place(map[], n0, items, kind, supply).Ok?
    ensures var l := Place(map[], n0, items, kind, supply).value;
            l.minted == n0 + |items| && Corresponds(t, l.table, l.ids, rename)
  {
    ExportedClashless(t, entries, items, kind, rename);
    PlaceFresh(n0, items, kind, supply);
    PlaceIds(map[], n0, items, kind, supply);
    ListedBijection(t, entries, items, n0, kind, supply, rename, Place(map[], n0, items, kind, supply).value);
  }
}
