/**
 Saving a remote's button layout: a multi-row rewrite under immediate uniqueness constraints.
 The loaded button objects are edited in place while the table still holds the old rows, so the
 parking offset is computed from the new rows. Proved: exactly when the rewrite goes through,
 that it then stores exactly the submitted layout, and that every other outcome leaves the table
 untouched.
 */
module ButtonLayout {
  import opened Prelude
  import AcModel
  import AcDjango
  import SpeechText

  datatype Details = Details(caption: string, icon: string, url: string, irId: int, frequency: int, active: bool, confirm: bool)
  datatype Slot = Slot(key: string, row: nat, column: nat, sortOrder: int, details: Details)

  // The rows of one remote by primary key.
  type Table = map<nat, Slot>

  predicate Apart(a: Slot, b: Slot) {
    a.key != b.key && (a.row != b.row || a.column != b.column)
  }

  ghost predicate Unique(t: Table) {
    forall p, q :: p in t && q in t && p != q ==> Apart(t[p], t[q])
  }

  // Writing `slot` under `pk` breaks no uniqueness constraint.
  predicate Fits(t: Table, pk: nat, slot: Slot) {
    forall q :: q in t && q != pk ==> Apart(t[q], slot)
  }

  // ------------------------------------------------------------------
  // Parking keys
  // ------------------------------------------------------------------

  const PREFIX := "temporary-"

  function Decimal(n: nat): string {
    var digit := ('0' as int + n % 10) as char;
    if n < 10 then [digit] else Decimal(n / 10) + [digit]
  }

  function ParkingKey(pk: nat): string {
    PREFIX + Decimal(pk)
  }

  lemma {:induction false} DecimalInjective(m: nat, n: nat)
    requires Decimal(m) == Decimal(n)
    ensures m == n
  {
    var a, b := Decimal(m), Decimal(n);
    assert a[|a| - 1] == ('0' as int + m % 10) as char;
    assert b[|b| - 1] == ('0' as int + n % 10) as char;
    if m >= 10 && n >= 10 {
      assert Decimal(m / 10) == a[..|a| - 1] == b[..|b| - 1] == Decimal(n / 10);
      DecimalInjective(m / 10, n / 10);
    }
  }

  lemma ParkingKeyInjective(p: nat, q: nat)
    ensures ParkingKey(p) == ParkingKey(q) <==> p == q
  {
    if ParkingKey(p) == ParkingKey(q) {
      assert Decimal(p) == ParkingKey(p)[|PREFIX|..] == ParkingKey(q)[|PREFIX|..] == Decimal(q);
      DecimalInjective(p, q);
    }
  }

  // ------------------------------------------------------------------
  // Submissions
  // ------------------------------------------------------------------

  datatype Ref = New | Existing(id: nat) | Unreadable

  // `clean`: an object whose fields parse and pass field validation.
  datatype Entry = Entry(ref: Ref, clean: bool, slot: Slot)

  ghost predicate EntryOk(entries: seq<Entry>, k: nat, ids: set<nat>)
    requires k < |entries|
  {
    && entries[k].clean
    && (entries[k].ref.New? || (entries[k].ref.Existing? && entries[k].ref.id in ids))
    && (forall j :: 0 <= j < k ==> entries[j].ref != entries[k].ref || entries[k].ref.New?)
    && (forall j :: 0 <= j < k ==> Apart(entries[j].slot, entries[k].slot))
  }

  function Ids(entries: seq<Entry>, n: nat): set<nat>
    requires n <= |entries|
  {
    set k | 0 <= k < n && entries[k].ref.Existing? :: entries[k].ref.id
  }

  function Positions(entries: seq<Entry>, n: nat): set<(nat, nat)>
    requires n <= |entries|
  {
    set k | 0 <= k < n :: (entries[k].slot.row, entries[k].slot.column)
  }

  function Keys(entries: seq<Entry>, n: nat): set<string>
    requires n <= |entries|
  {
    set k | 0 <= k < n :: entries[k].slot.key
  }

  // The three sets that are kept while parsing decide whether the next entry is usable.
  lemma EntryOkBySets(entries: seq<Entry>, n: nat, ids: set<nat>)
    requires n < |entries|
    ensures
      var e := entries[n];
      EntryOk(entries, n, ids) <==>
        && e.clean && !e.ref.Unreadable?
        && (e.ref.Existing? ==> e.ref.id in ids && e.ref.id !in Ids(entries, n))
        && (e.slot.row, e.slot.column) !in Positions(entries, n) && e.slot.key !in Keys(entries, n)
  {
  }

  lemma SetsGrow(entries: seq<Entry>, n: nat)
    requires n < |entries|
    ensures Ids(entries, n + 1) ==
              if entries[n].ref.Existing? then Ids(entries, n) + {entries[n].ref.id} else Ids(entries, n)
    ensures Positions(entries, n + 1) == Positions(entries, n) + {(entries[n].slot.row, entries[n].slot.column)}
    ensures Keys(entries, n + 1) == Keys(entries, n) + {entries[n].slot.key}
  {
  }

  // Every entry is usable, no two collide, and every stored button is mentioned.
  ghost predicate Valid(entries: seq<Entry>, ids: set<nat>) {
    && (forall k :: 0 <= k < |entries| ==> EntryOk(entries, k, ids))
    && (forall p :: p in ids ==> exists k :: 0 <= k < |entries| && entries[k].ref == Existing(p))
  }

  // The largest submitted row among the buttons that already exist, or 0.
  function MaxRow(entries: seq<Entry>): (m: nat)
    ensures forall k :: 0 <= k < |entries| && entries[k].ref.Existing? ==> entries[k].slot.row <= m
    ensures m == 0 || exists k :: 0 <= k < |entries| && entries[k].ref.Existing? && entries[k].slot.row == m
  {
    if entries == [] then 0
    else
      var n := |entries| - 1;
      var rest := MaxRow(entries[..n]);
      if entries[n].ref.Existing? && entries[n].slot.row > rest then
        assert entries[n].slot.row == entries[n].slot.row;
        entries[n].slot.row
      else
        assert rest == 0 || exists k :: 0 <= k < n && entries[..n][k].ref.Existing? && entries[..n][k].slot.row == rest;
        rest
  }

  function Shift(entries: seq<Entry>): nat {
    MaxRow(entries) + 1000
  }

  // `order` lists the members of `ids`, each once.
  ghost predicate Lists(order: seq<nat>, ids: set<nat>) {
    && (forall i, j :: 0 <= i < j < |order| ==> order[i] != order[j])
    && (forall p :: p in ids <==> p in order)
  }

  // The table's own ordering.
  predicate StoredBefore(a: Slot, p: nat, b: Slot, q: nat) {
    if a.sortOrder != b.sortOrder then a.sortOrder < b.sortOrder
    else if a.row != b.row then a.row < b.row
    else if a.column != b.column then a.column < b.column
    else p < q
  }

  // The order in which the stored buttons are loaded.
  ghost predicate StoredOrder(order: seq<nat>, t: Table) {
    Lists(order, t.Keys) && forall i, j :: 0 <= i < j < |order| ==> StoredBefore(t[order[i]], order[i], t[order[j]], order[j])
  }

  // No key that still stands is the parking key of the i-th button.
  ghost predicate KeyParks(t: Table, order: seq<nat>, i: nat)
    requires i < |order| && forall p :: p in order ==> p in t
  {
    forall j :: i < j < |order| ==> t[order[j]].key != ParkingKey(order[i])
  }

  ghost predicate KeysParkUpTo(t: Table, order: seq<nat>, n: nat)
    requires n <= |order| && forall p :: p in order ==> p in t
  {
    forall i :: 0 <= i < n ==> KeyParks(t, order, i)
  }

  // No stored key is the parking key of a button that is parked before it.
  ghost predicate KeysPark(t: Table, order: seq<nat>)
    requires forall p :: p in order ==> p in t
  {
    KeysParkUpTo(t, order, |order|)
  }

  // No stored button moved after the i-th lies exactly `shift` rows below it in its column.
  ghost predicate RowParks(t: Table, sweep: seq<nat>, shift: nat, i: nat)
    requires i < |sweep| && forall p :: p in sweep ==> p in t
  {
    forall j :: i < j < |sweep| ==>
      t[sweep[j]].row != t[sweep[i]].row + shift || t[sweep[j]].column != t[sweep[i]].column
  }

  ghost predicate RowsParkUpTo(t: Table, sweep: seq<nat>, shift: nat, n: nat)
    requires n <= |sweep| && forall p :: p in sweep ==> p in t
  {
    forall i :: 0 <= i < n ==> RowParks(t, sweep, shift, i)
  }

  ghost predicate RowsPark(t: Table, sweep: seq<nat>, shift: nat)
    requires forall p :: p in sweep ==> p in t
  {
    RowsParkUpTo(t, sweep, shift, |sweep|)
  }

  lemma ParksNext(t: Table, order: seq<nat>, shift: nat, i: nat)
    requires i < |order| && forall p :: p in order ==> p in t
    ensures KeysParkUpTo(t, order, i) && KeyParks(t, order, i) ==> KeysParkUpTo(t, order, i + 1)
    ensures RowsParkUpTo(t, order, shift, i) && RowParks(t, order, shift, i) ==> RowsParkUpTo(t, order, shift, i + 1)
    ensures !KeyParks(t, order, i) ==> !KeysPark(t, order)
    ensures !RowParks(t, order, shift, i) ==> !RowsPark(t, order, shift)
  {
  }

  // The i-th submitted button takes neither the parking key nor the parking place of one saved after it.
  ghost predicate LeavesLater(t: Table, entries: seq<Entry>, shift: nat, i: nat)
    requires i < |entries|
  {
    forall j :: i < j < |entries| && entries[j].ref.Existing? && entries[j].ref.id in t ==>
      Apart(Parked(t[entries[j].ref.id], entries[j].ref.id, shift), entries[i].slot)
  }

  ghost predicate LeavesParked(t: Table, entries: seq<Entry>, shift: nat) {
    forall i :: 0 <= i < |entries| ==> LeavesLater(t, entries, shift, i)
  }

  // What can be checked before the save: none of its writes will meet a uniqueness violation.
  ghost predicate NoClash(t: Table, order: seq<nat>, sweep: seq<nat>, entries: seq<Entry>)
    requires forall p :: p in order ==> p in t
    requires forall p :: p in sweep ==> p in t
  {
    KeysPark(t, order) && RowsPark(t, sweep, Shift(entries)) && LeavesParked(t, entries, Shift(entries))
  }

  // ------------------------------------------------------------------
  // Tables along the way
  // ------------------------------------------------------------------

  function KeysParked(t: Table, order: seq<nat>): Table {
    map p | p in t :: if p in order then t[p].(key := ParkingKey(p)) else t[p]
  }

  function Parked(slot: Slot, pk: nat, down: nat): Slot {
    slot.(key := ParkingKey(pk), row := slot.row + down)
  }

  function RowsParked(t: Table, moved: seq<nat>, shift: nat): Table {
    map p | p in t :: Parked(t[p], p, if p in moved then shift else 0)
  }

  function Written(parked: Table, pks: seq<nat>, entries: seq<Entry>): Table
    requires |pks| <= |entries|
  {
    if pks == [] then parked
    else Written(parked, pks[..|pks| - 1], entries)[pks[|pks| - 1] := entries[|pks| - 1].slot]
  }

  ghost predicate Distinct(pks: seq<nat>) {
    forall i, j :: 0 <= i < j < |pks| ==> pks[i] != pks[j]
  }

  lemma TakeEnds(order: seq<nat>)
    ensures order[..0] == [] && order[..|order|] == order
  {
  }

  lemma TakeNext(order: seq<nat>, i: nat)
    requires i < |order|
    ensures order[..i + 1] == order[..i] + [order[i]]
    ensures forall p :: p in order[..i + 1] <==> p in order[..i] || p == order[i]
    ensures (forall a, b :: 0 <= a < b < |order| ==> order[a] != order[b]) ==> order[i] !in order[..i]
  {
  }

  lemma {:induction false} WrittenAt(parked: Table, pks: seq<nat>, entries: seq<Entry>)
    requires |pks| <= |entries| && Distinct(pks)
    ensures forall p :: p in Written(parked, pks, entries) <==> p in parked || p in pks
    ensures forall k :: 0 <= k < |pks| ==> Written(parked, pks, entries)[pks[k]] == entries[k].slot
    ensures forall p :: p in parked && p !in pks ==> Written(parked, pks, entries)[p] == parked[p]
  {
    if pks != [] {
      var n := |pks| - 1;
      WrittenAt(parked, pks[..n], entries);
      TakeNext(pks, n);
      TakeEnds(pks);
    }
  }

  // ------------------------------------------------------------------
  // The database and the loaded objects
  // ------------------------------------------------------------------

  class Database {
    var table: Table
    var nextPk: nat

    ghost predicate Valid()
      reads this
    {
      Unique(table) && forall p :: p in table ==> p < nextPk
    }

    constructor ()
      ensures Valid() && table == map[]
    {
      table, nextPk := map[], 1;
    }

    // One row write; the constraint check is immediate.
    method Write(pk: nat, slot: Slot) returns (ok: bool)
      requires Valid() && pk < nextPk
      modifies this`table
      ensures Valid()
      ensures ok <==> Fits(old(table), pk, slot)
      ensures table == if ok then old(table)[pk := slot] else old(table)
    {
      ok := Fits(table, pk, slot);
      if ok { table := table[pk := slot]; }
    }
  }

  class Button {
    var pk: Option<nat>
    var slot: Slot

    constructor (pk: Option<nat>, slot: Slot)
      ensures this.pk == pk && this.slot == slot
    {
      this.pk, this.slot := pk, slot;
    }
  }

  ghost predicate Loaded(existing: seq<Button>, order: seq<nat>)
    reads existing
  {
    && |existing| == |order|
    && (forall i :: 0 <= i < |existing| ==> existing[i].pk == Some(order[i]))
    && (forall i, j :: 0 <= i < j < |existing| ==> existing[i] != existing[j])
  }

  // The objects of the first rows, in the list and in the index.
  ghost predicate LoadedUpTo(existing: seq<Button>, byId: map<nat, Button>, order: seq<nat>, i: nat)
    requires i <= |order|
    reads existing, byId.Values
  {
    && |existing| == i && Loaded(existing, order[..i]) && Identified(byId)
    && (forall p :: p in byId <==> p in order[..i])
    && (forall k :: 0 <= k < i ==> order[k] in byId && byId[order[k]] == existing[k])
  }

  lemma LoadedNext(existing: seq<Button>, byId: map<nat, Button>, order: seq<nat>, i: nat, button: Button)
    requires i < |order| && LoadedUpTo(existing, byId, order, i) && order[i] !in order[..i]
    requires button.pk == Some(order[i]) && button !in existing
    ensures LoadedUpTo(existing + [button], byId[order[i] := button], order, i + 1)
  {
    TakeNext(order, i);
    assert forall k :: 0 <= k < i ==> order[k] in order[..i];
  }

  method LoadOne(t: Table, order: seq<nat>, i: nat, existing: seq<Button>, byId: map<nat, Button>) returns (button: Button)
    requires i < |order| && order[i] in t && order[i] !in order[..i] && LoadedUpTo(existing, byId, order, i)
    ensures fresh(button) && LoadedUpTo(existing + [button], byId[order[i] := button], order, i + 1)
  {
    button := new Button(Some(order[i]), t[order[i]]);
    LoadedNext(existing, byId, order, i, button);
  }

  method Load(t: Table, order: seq<nat>) returns (existing: seq<Button>, byId: map<nat, Button>)
    requires Lists(order, t.Keys)
    ensures fresh(existing) && Loaded(existing, order)
    ensures byId.Keys == t.Keys && fresh(byId.Values) && Identified(byId)
    ensures forall i :: 0 <= i < |order| ==> byId[order[i]] == existing[i]
  {
    existing, byId := [], map[];
    for i := 0 to |order|
      invariant fresh(existing) && fresh(byId.Values)
      invariant LoadedUpTo(existing, byId, order, i)
    {
      assert order[i] in order;
      TakeNext(order, i);
      var button := LoadOne(t, order, i, existing, byId);
      existing, byId := existing + [button], byId[order[i] := button];
    }
    TakeEnds(order);
  }

  // What parsing leaves on the heap: one object per entry, holding the entry's fields.
  ghost predicate Parsed(entries: seq<Entry>, n: nat, buttons: seq<Button>, byId: map<nat, Button>)
    requires n <= |entries|
    reads buttons
  {
    && |buttons| == n
    && (forall k :: 0 <= k < n ==> buttons[k].slot == entries[k].slot)
    && (forall k :: 0 <= k < n && entries[k].ref.Existing? ==>
          entries[k].ref.id in byId && buttons[k] == byId[entries[k].ref.id] && buttons[k].pk == Some(entries[k].ref.id))
    && (forall k :: 0 <= k < n && !entries[k].ref.Existing? ==> buttons[k].pk.None? && buttons[k] !in byId.Values)
    && (forall j, k :: 0 <= j < k < n ==> buttons[j] != buttons[k])
  }

  ghost predicate Identified(byId: map<nat, Button>)
    reads byId.Values
  {
    forall p :: p in byId ==> byId[p].pk == Some(p)
  }

  // One entry: finds or creates its button and writes the submitted fields into it.
  method ParseEntry(byId: map<nat, Button>, entries: seq<Entry>, index: nat, buttons: seq<Button>, submitted: set<nat>)
    returns (ok: bool, button: Button?)
    requires index < |entries| && Identified(byId) && Parsed(entries, index, buttons, byId)
    requires submitted == Ids(entries, index)
    modifies byId.Values
    ensures Identified(byId)
    ensures ok <==>
              && entries[index].clean && !entries[index].ref.Unreadable?
              && (entries[index].ref.Existing? ==> entries[index].ref.id in byId.Keys - submitted)
    ensures ok ==> button != null && Parsed(entries, index + 1, buttons + [button], byId)
    ensures ok ==> button in byId.Values || fresh(button)
  {
    var entry := entries[index];
    ok, button := false, null;
    match entry.ref {
      case New =>
        button := new Button(None, entry.slot);
      case Unreadable =>
        return;
      case Existing(id) =>
        if id !in byId || id in submitted { return; }
        button := byId[id];
        assert button in byId.Values;
    }
    if !entry.clean { return; }
    assert button !in buttons;
    button.slot := entry.slot;
    ok := true;
  }

  method Parse(byId: map<nat, Button>, entries: seq<Entry>) returns (ok: bool, buttons: seq<Button>)
    requires Identified(byId)
    modifies byId.Values
    ensures Identified(byId)
    ensures ok <==> Valid(entries, byId.Keys)
    ensures ok ==> Parsed(entries, |entries|, buttons, byId)
    ensures forall b :: b in buttons ==> b in byId.Values || fresh(b)
  {
    buttons, ok := [], false;
    var submitted: set<nat>, positions: set<(nat, nat)>, keys: set<string> := {}, {}, {};
    for index := 0 to |entries|
      invariant Identified(byId)
      invariant forall k :: 0 <= k < index ==> EntryOk(entries, k, byId.Keys)
      invariant submitted == Ids(entries, index) && positions == Positions(entries, index) && keys == Keys(entries, index)
      invariant submitted <= byId.Keys
      invariant Parsed(entries, index, buttons, byId)
      invariant forall b :: b in buttons ==> b in byId.Values || fresh(b)
    {
      EntryOkBySets(entries, index, byId.Keys);
      SetsGrow(entries, index);
      var button;
      ok, button := ParseEntry(byId, entries, index, buttons, submitted);
      if !ok { return; }
      ok := false;
      var slot := entries[index].slot;
      if (slot.row, slot.column) in positions || slot.key in keys { return; }
      if entries[index].ref.Existing? { submitted := submitted + {entries[index].ref.id}; }
      positions, keys := positions + {(slot.row, slot.column)}, keys + {slot.key};
      buttons := buttons + [button];
    }
    ok := submitted == byId.Keys;
  }

  // The largest row among the loaded objects, which by now hold the submitted rows.
  method LargestRow(existing: seq<Button>) returns (m: nat)
    ensures forall b :: b in existing ==> b.slot.row <= m
    ensures m == 0 || exists b :: b in existing && b.slot.row == m
  {
    m := 0;
    for i := 0 to |existing|
      invariant forall k :: 0 <= k < i ==> existing[k].slot.row <= m
      invariant m == 0 || exists b :: b in existing && b.slot.row == m
    {
      if existing[i].slot.row > m { m := existing[i].slot.row; }
    }
  }

  // ------------------------------------------------------------------
  // The rewrite
  // ------------------------------------------------------------------

  lemma Later(order: seq<nat>, ids: set<nat>, i: nat, q: nat)
    requires Lists(order, ids) && i < |order|
    ensures q in ids && q != order[i] && q !in order[..i] <==> exists b :: i < b < |order| && order[b] == q
  {
  }

  lemma ParkKeyTable(t: Table, order: seq<nat>, i: nat)
    requires Lists(order, t.Keys) && i < |order|
    ensures order[i] in t && order[..i + 1] == order[..i] + [order[i]]
    ensures
      var before := KeysParked(t, order[..i]);
      before[order[i]] == t[order[i]]
      && before[order[i] := t[order[i]].(key := ParkingKey(order[i]))] == KeysParked(t, order[..i + 1])
  {
    assert order[i] in order;
    TakeNext(order, i);
  }

  lemma ParkKeyFits(t: Table, order: seq<nat>, i: nat, parked: seq<nat>)
    requires Unique(t) && Lists(order, t.Keys) && i < |order| && parked == order[..i] && order[i] in t
    ensures Fits(KeysParked(t, parked), order[i], t[order[i]].(key := ParkingKey(order[i]))) <==>
            forall b :: i < b < |order| ==> t[order[b]].key != ParkingKey(order[i])
  {
    var pk, before := order[i], KeysParked(t, parked);
    var slot := t[pk].(key := ParkingKey(pk));
    if Fits(before, pk, slot) {
      forall b | i < b < |order|
        ensures t[order[b]].key != ParkingKey(pk)
      {
        Later(order, t.Keys, i, order[b]);
        assert Apart(before[order[b]], slot);
      }
    } else {
      var q :| q in before && q != pk && !Apart(before[q], slot);
      ParkingKeyInjective(q, pk);
      assert Apart(t[q], t[pk]);
      Later(order, t.Keys, i, q);
    }
  }

  lemma ParkKeyStep(t: Table, order: seq<nat>, i: nat)
    requires Unique(t) && Lists(order, t.Keys) && i < |order|
    ensures order[i] in t && order[..i + 1] == order[..i] + [order[i]]
    ensures
      var before := KeysParked(t, order[..i]);
      var slot := t[order[i]].(key := ParkingKey(order[i]));
      && before[order[i]] == t[order[i]]
      && before[order[i] := slot] == KeysParked(t, order[..i + 1])
      && (Fits(before, order[i], slot) <==> forall b :: i < b < |order| ==> t[order[b]].key != ParkingKey(order[i]))
  {
    ParkKeyTable(t, order, i);
    ParkKeyFits(t, order, i, order[..i]);
  }

  method ParkKey(db: Database, button: Button, ghost order: seq<nat>, ghost t: Table, i: nat) returns (ok: bool)
    requires db.Valid() && Unique(t) && Lists(order, t.Keys) && i < |order|
    requires db.table == KeysParked(t, order[..i]) && button.pk == Some(order[i])
    modifies db`table
    ensures db.Valid()
    ensures ok <==> KeyParks(t, order, i)
    ensures ok ==> db.table == KeysParked(t, order[..i + 1])
  {
    ParkKeyStep(t, order, i);
    var pk := button.pk.value;
    var slot := db.table[pk].(key := ParkingKey(pk));
    ok := db.Write(pk, slot);
  }

  // First stage: every existing button's key becomes its parking key.
  method ParkKeys(db: Database, existing: seq<Button>, order: seq<nat>) returns (ok: bool)
    requires db.Valid() && Loaded(existing, order) && Lists(order, db.table.Keys)
    modifies db`table
    ensures db.Valid()
    ensures ok <==> KeysPark(old(db.table), order)
    ensures ok ==> db.table == KeysParked(old(db.table), order)
  {
    ghost var t := db.table;
    assert db.table == KeysParked(t, []);
    TakeEnds(order);
    for i := 0 to |existing|
      invariant db.Valid()
      invariant db.table == KeysParked(t, order[..i])
      invariant KeysParkUpTo(t, order, i)
    {
      ParksNext(t, order, 0, i);
      ok := ParkKey(db, existing[i], order, t, i);
      if !ok { return; }
    }
    ok := true;
  }

  // A moved row collides only with one not yet moved that lies exactly `shift` below it.
  lemma MovedRowApart(t: Table, pk: nat, q: nat, down: nat, shift: nat)
    requires Unique(t) && pk in t && q in t && q != pk && (down == 0 || down == shift)
    ensures Apart(Parked(t[q], q, down), Parked(t[pk], pk, shift)) <==>
              down == shift || t[q].row != t[pk].row + shift || t[q].column != t[pk].column
  {
    ParkingKeyInjective(q, pk);
    assert Apart(t[q], t[pk]);
  }

  lemma MoveRow(t: Table, sweep: seq<nat>, shift: nat, i: nat)
    requires Lists(sweep, t.Keys) && i < |sweep|
    ensures
      var before, pk := RowsParked(t, sweep[..i], shift), sweep[i];
      && pk in t && pk in before
      && before[pk].(row := before[pk].row + shift) == Parked(t[pk], pk, shift)
      && before[pk := Parked(t[pk], pk, shift)] == RowsParked(t, sweep[..i + 1], shift)
  {
    assert sweep[i] in sweep && sweep[i] !in sweep[..i];
    assert sweep[..i + 1] == sweep[..i] + [sweep[i]];
  }

  lemma MoveFits(t: Table, sweep: seq<nat>, shift: nat, i: nat)
    requires Unique(t) && Lists(sweep, t.Keys) && i < |sweep|
    ensures sweep[i] in t
    ensures Fits(RowsParked(t, sweep[..i], shift), sweep[i], Parked(t[sweep[i]], sweep[i], shift)) <==>
              RowParks(t, sweep, shift, i)
  {
    var pk, moved := sweep[i], sweep[..i];
    assert pk in sweep;
    var before, slot := RowsParked(t, moved, shift), Parked(t[pk], pk, shift);
    if Fits(before, pk, slot) {
      forall b | i < b < |sweep|
        ensures t[sweep[b]].row != t[pk].row + shift || t[sweep[b]].column != t[pk].column
      {
        Later(sweep, t.Keys, i, sweep[b]);
        MovedRowApart(t, pk, sweep[b], 0, shift);
        assert Apart(before[sweep[b]], slot);
      }
    } else {
      var q :| q in before && q != pk && !Apart(before[q], slot);
      MovedRowApart(t, pk, q, if q in moved then shift else 0, shift);
      Later(sweep, t.Keys, i, q);
    }
  }

  method ParkRow(db: Database, sweep: seq<nat>, shift: nat, ghost t: Table, i: nat) returns (ok: bool)
    requires db.Valid() && Lists(sweep, t.Keys) && Unique(t) && i < |sweep|
    requires db.table == RowsParked(t, sweep[..i], shift)
    modifies db`table
    ensures db.Valid()
    ensures ok <==> RowParks(t, sweep, shift, i)
    ensures ok ==> db.table == RowsParked(t, sweep[..i + 1], shift)
  {
    MoveFits(t, sweep, shift, i);
    MoveRow(t, sweep, shift, i);
    var pk := sweep[i];
    var slot := db.table[pk].(row := db.table[pk].row + shift);
    assert slot == Parked(t[pk], pk, shift);
    ok := db.Write(pk, slot);
  }

  // The first `i` rows have been moved, and each met no other.
  ghost predicate MovedTo(table: Table, t: Table, sweep: seq<nat>, shift: nat, i: nat)
    requires i <= |sweep| && forall p :: p in sweep ==> p in t
  {
    table == RowsParked(t, sweep[..i], shift) && RowsParkUpTo(t, sweep, shift, i)
  }

  lemma ListsStored(order: seq<nat>, t: Table)
    requires Lists(order, t.Keys)
    ensures forall p :: p in order ==> p in t
  {
  }

  lemma MovedNone(t: Table, sweep: seq<nat>, shift: nat)
    requires forall p :: p in sweep ==> p in t
    ensures MovedTo(RowsParked(t, [], shift), t, sweep, shift, 0)
  {
    TakeEnds(sweep);
  }

  lemma MovedAll(table: Table, t: Table, sweep: seq<nat>, shift: nat)
    requires (forall p :: p in sweep ==> p in t) && MovedTo(table, t, sweep, shift, |sweep|)
    ensures table == RowsParked(t, sweep, shift) && RowsPark(t, sweep, shift)
  {
    TakeEnds(sweep);
  }

  // Moves one more row, or finds that the move fails.
  method ParkNextRow(db: Database, sweep: seq<nat>, shift: nat, ghost t: Table, i: nat) returns (ok: bool)
    requires db.Valid() && Lists(sweep, t.Keys) && Unique(t) && i < |sweep| && (forall p :: p in sweep ==> p in t)
    requires MovedTo(db.table, t, sweep, shift, i)
    modifies db`table
    ensures db.Valid()
    ensures if ok then MovedTo(db.table, t, sweep, shift, i + 1) else !RowsPark(t, sweep, shift)
  {
    ParksNext(t, sweep, shift, i);
    ok := ParkRow(db, sweep, shift, t, i);
  }

  // Second stage: the bulk update moves every row down by `shift`, in the order the database chooses.
  method ParkRows(db: Database, sweep: seq<nat>, shift: nat, ghost t: Table) returns (ok: bool)
    requires db.Valid() && Lists(sweep, t.Keys) && Unique(t) && db.table == RowsParked(t, [], shift)
    modifies db`table
    ensures db.Valid()
    ensures ok <==> RowsPark(t, sweep, shift)
    ensures ok ==> db.table == RowsParked(t, sweep, shift)
  {
    ListsStored(sweep, t);
    MovedNone(t, sweep, shift);
    for i := 0 to |sweep|
      invariant db.Valid() && MovedTo(db.table, t, sweep, shift, i)
    {
      ok := ParkNextRow(db, sweep, shift, t, i);
      if !ok { return; }
    }
    MovedAll(db.table, t, sweep, shift);
    ok := true;
  }

  // The primary keys under which the entries are stored: their own, or fresh ones.
  ghost predicate Assigned(entries: seq<Entry>, pks: seq<nat>, t: Table) {
    && |pks| <= |entries| && Distinct(pks)
    && forall k :: 0 <= k < |pks| ==> if entries[k].ref.Existing? then pks[k] == entries[k].ref.id else pks[k] !in t
  }

  // A button saved later still lies parked.
  lemma LaterIsParked(t: Table, sweep: seq<nat>, shift: nat, entries: seq<Entry>, pks: seq<nat>, pk: nat, j: nat)
    requires Valid(entries, t.Keys) && Lists(sweep, t.Keys)
    requires |pks| < j < |entries| && Assigned(entries, pks + [pk], t)
    requires entries[j].ref.Existing? && entries[j].ref.id in t
    ensures
      var q, before := entries[j].ref.id, Written(RowsParked(t, sweep, shift), pks, entries);
      q != pk && q !in pks && q in before && before[q] == Parked(t[q], q, shift)
  {
    var k, all, q := |pks|, pks + [pk], entries[j].ref.id;
    assert forall i :: 0 <= i < k ==> all[i] == pks[i];
    assert all[k] == pk;
    WrittenAt(RowsParked(t, sweep, shift), pks, entries);
    assert EntryOk(entries, j, t.Keys);
    forall i | 0 <= i <= k
      ensures all[i] != q
    {
      if entries[i].ref.Existing? { assert entries[i].ref != entries[j].ref; }
    }
  }

  // Whatever else is in the table was saved before.
  lemma OthersWereSaved(t: Table, sweep: seq<nat>, shift: nat, entries: seq<Entry>, pks: seq<nat>, pk: nat, q: nat)
    requires Valid(entries, t.Keys)
    requires |pks| < |entries| && Assigned(entries, pks + [pk], t)
    requires q in Written(RowsParked(t, sweep, shift), pks, entries) && q != pk
    requires forall j :: |pks| < j < |entries| ==> entries[j].ref != Existing(q)
    ensures Apart(Written(RowsParked(t, sweep, shift), pks, entries)[q], entries[|pks|].slot)
  {
    var k, all := |pks|, pks + [pk];
    assert forall i :: 0 <= i < k ==> all[i] == pks[i];
    assert all[k] == pk;
    WrittenAt(RowsParked(t, sweep, shift), pks, entries);
    assert q in pks;
    var j :| 0 <= j < k && pks[j] == q;
    assert EntryOk(entries, k, t.Keys);
    assert Apart(entries[j].slot, entries[k].slot);
  }

  lemma SaveFits(t: Table, sweep: seq<nat>, shift: nat, entries: seq<Entry>, pks: seq<nat>, pk: nat)
    requires Valid(entries, t.Keys) && Lists(sweep, t.Keys)
    requires |pks| < |entries| && Assigned(entries, pks + [pk], t)
    ensures Fits(Written(RowsParked(t, sweep, shift), pks, entries), pk, entries[|pks|].slot) <==>
              LeavesLater(t, entries, shift, |pks|)
  {
    var k, slot := |pks|, entries[|pks|].slot;
    var before := Written(RowsParked(t, sweep, shift), pks, entries);
    if Fits(before, pk, slot) {
      forall j | k < j < |entries| && entries[j].ref.Existing? && entries[j].ref.id in t
        ensures Apart(Parked(t[entries[j].ref.id], entries[j].ref.id, shift), slot)
      {
        LaterIsParked(t, sweep, shift, entries, pks, pk, j);
      }
    }
    if LeavesLater(t, entries, shift, k) {
      forall q | q in before && q != pk
        ensures Apart(before[q], slot)
      {
        if j :| k < j < |entries| && entries[j].ref == Existing(q) {
          assert EntryOk(entries, j, t.Keys);
          LaterIsParked(t, sweep, shift, entries, pks, pk, j);
        } else {
          OthersWereSaved(t, sweep, shift, entries, pks, pk, q);
        }
      }
    }
  }

  // Button.save(): an update, or an insert under the next primary key, which the object then carries.
  method SaveButton(db: Database, entries: seq<Entry>, button: Button, ghost pks: seq<nat>, pk: nat,
                    ghost t: Table, ghost sweep: seq<nat>, ghost shift: nat)
    returns (ok: bool)
    requires db.Valid() && Valid(entries, t.Keys) && Lists(sweep, t.Keys)
    requires |pks| < |entries| && Assigned(entries, pks + [pk], t)
    requires db.table == Written(RowsParked(t, sweep, shift), pks, entries)
    requires button.slot == entries[|pks|].slot
    requires (button.pk == Some(pk) && pk < db.nextPk) || (button.pk == None && pk == db.nextPk)
    modifies db, button`pk
    ensures db.Valid() && pk < db.nextPk && old(db.nextPk) <= db.nextPk
    ensures ok <==> LeavesLater(t, entries, shift, |pks|)
    ensures ok ==> db.table == Written(RowsParked(t, sweep, shift), pks + [pk], entries)
  {
    SaveFits(t, sweep, shift, entries, pks, pk);
    if button.pk.None? { db.nextPk := db.nextPk + 1; }
    ok := db.Write(pk, button.slot);
    if ok { button.pk := Some(pk); }
    assert (pks + [pk])[..|pks|] == pks;
  }

  // The objects from the k-th on still hold what was submitted.
  ghost predicate Unsaved(buttons: seq<Button>, entries: seq<Entry>, k: nat)
    reads buttons
  {
    && |buttons| == |entries|
    && (forall j :: k <= j < |buttons| ==> buttons[j].slot == entries[j].slot)
    && (forall j :: k <= j < |buttons| ==>
          buttons[j].pk == if entries[j].ref.Existing? then Some(entries[j].ref.id) else None)
  }

  // What holds before the k-th save.
  ghost predicate Saving(db: Database, entries: seq<Entry>, pks: seq<nat>, t: Table, sweep: seq<nat>, shift: nat)
    requires Lists(sweep, t.Keys)
    reads db
  {
    && db.Valid() && Assigned(entries, pks, t)
    && (forall p :: p in pks || p in t ==> p < db.nextPk)
    && db.table == Written(RowsParked(t, sweep, shift), pks, entries)
  }

  ghost predicate LeavesUpTo(t: Table, entries: seq<Entry>, shift: nat, k: nat)
    requires k <= |entries|
  {
    forall i :: 0 <= i < k ==> LeavesLater(t, entries, shift, i)
  }

  lemma LeavesNext(t: Table, entries: seq<Entry>, shift: nat, k: nat)
    requires k < |entries|
    ensures LeavesUpTo(t, entries, shift, k + 1) <==> LeavesUpTo(t, entries, shift, k) && LeavesLater(t, entries, shift, k)
    ensures !LeavesLater(t, entries, shift, k) ==> !LeavesParked(t, entries, shift)
  {
  }

  method SaveNext(db: Database, entries: seq<Entry>, buttons: seq<Button>, k: nat, button: Button, ghost pks: seq<nat>,
                  ghost t: Table, ghost sweep: seq<nat>, ghost shift: nat)
    returns (ok: bool, ghost after: seq<nat>)
    requires Lists(sweep, t.Keys) && Valid(entries, t.Keys) && Saving(db, entries, pks, t, sweep, shift)
    requires k == |pks| < |entries| && Unsaved(buttons, entries, k) && buttons[k] == button
    requires forall i, j :: 0 <= i < j < |buttons| ==> buttons[i] != buttons[j]
    modifies db, button`pk
    ensures db.Valid() && old(db.nextPk) <= db.nextPk && |after| == k + 1
    ensures ok <==> LeavesLater(t, entries, shift, k)
    ensures ok ==> Saving(db, entries, after, t, sweep, shift)
    ensures Unsaved(buttons, entries, k + 1)
  {
    var pk := if button.pk.Some? then button.pk.value else db.nextPk;
    ReferencesStored(entries, k, t.Keys);
    NextAssigned(entries, pks, t, pk);
    ok := SaveButton(db, entries, button, pks, pk, t, sweep, shift);
    after := pks + [pk];
  }

  // Third stage: save the submitted buttons one after another; new ones get the next primary key.
  method SaveButtons(db: Database, entries: seq<Entry>, buttons: seq<Button>,
                     ghost t: Table, ghost sweep: seq<nat>, ghost shift: nat)
    returns (ok: bool, ghost pks: seq<nat>)
    requires db.Valid() && Valid(entries, t.Keys) && Lists(sweep, t.Keys)
    requires db.table == RowsParked(t, sweep, shift)
    requires Unsaved(buttons, entries, 0)
    requires forall i, j :: 0 <= i < j < |buttons| ==> buttons[i] != buttons[j]
    modifies db, buttons
    ensures db.Valid() && old(db.nextPk) <= db.nextPk
    ensures ok <==> LeavesParked(t, entries, shift)
    ensures ok ==> |pks| == |entries| && Assigned(entries, pks, t)
                   && db.table == Written(RowsParked(t, sweep, shift), pks, entries)
  {
    pks := [];
    assert db.table.Keys == t.Keys;
    assert db.table == Written(RowsParked(t, sweep, shift), [], entries);
    for k := 0 to |buttons|
      invariant db.Valid() && old(db.nextPk) <= db.nextPk
      invariant |pks| == k && Saving(db, entries, pks, t, sweep, shift)
      invariant Unsaved(buttons, entries, k)
      invariant LeavesUpTo(t, entries, shift, k)
    {
      LeavesNext(t, entries, shift, k);
      ok, pks := SaveNext(db, entries, buttons, k, buttons[k], pks, t, sweep, shift);
      if !ok { return; }
    }
    ok := true;
  }

  lemma AllReferenced(entries: seq<Entry>, ids: set<nat>)
    requires Valid(entries, ids)
    ensures forall k :: 0 <= k < |entries| ==> !entries[k].ref.Unreadable?
  {
    forall k | 0 <= k < |entries| ensures !entries[k].ref.Unreadable? { assert EntryOk(entries, k, ids); }
  }

  lemma ReferencesStored(entries: seq<Entry>, k: nat, ids: set<nat>)
    requires Valid(entries, ids) && k < |entries|
    ensures entries[k].ref.Existing? ==> entries[k].ref.id in ids
  {
    assert EntryOk(entries, k, ids);
  }

  lemma NextAssigned(entries: seq<Entry>, pks: seq<nat>, t: Table, pk: nat)
    requires Valid(entries, t.Keys) && |pks| < |entries| && Assigned(entries, pks, t)
    requires if entries[|pks|].ref.Existing? then pk == entries[|pks|].ref.id else pk !in t && pk !in pks
    ensures Assigned(entries, pks + [pk], t)
  {
    var k := |pks|;
    assert EntryOk(entries, k, t.Keys);
    forall j | 0 <= j < k
      ensures pks[j] != pk
    {
      if entries[k].ref.Existing? && entries[j].ref.Existing? {
        assert entries[j].ref != entries[k].ref;
      }
    }
  }

  // The table holds exactly the submitted layout: every entry under its own or a fresh key, and nothing else.
  ghost predicate Stores(table: Table, pks: seq<nat>, entries: seq<Entry>) {
    && |pks| == |entries| && Distinct(pks)
    && (forall p :: p in table <==> p in pks)
    && (forall k :: 0 <= k < |entries| ==> table[pks[k]] == entries[k].slot)
    && (forall k :: 0 <= k < |entries| && entries[k].ref.Existing? ==> pks[k] == entries[k].ref.id)
  }

  lemma AllWritten(t: Table, sweep: seq<nat>, shift: nat, entries: seq<Entry>, pks: seq<nat>)
    requires Valid(entries, t.Keys) && |pks| == |entries| && Assigned(entries, pks, t)
    ensures Stores(Written(RowsParked(t, sweep, shift), pks, entries), pks, entries)
  {
    WrittenAt(RowsParked(t, sweep, shift), pks, entries);
    forall p | p in t
      ensures p in pks
    {
      var k :| 0 <= k < |entries| && entries[k].ref == Existing(p);
      assert pks[k] == p;
    }
  }

  datatype Response = Refused | ConstraintViolation | Saved

  // The two parking stages.
  method Park(db: Database, existing: seq<Button>, order: seq<nat>, sweep: seq<nat>, shift: nat) returns (ok: bool)
    requires db.Valid() && Lists(order, db.table.Keys) && Lists(sweep, db.table.Keys) && Loaded(existing, order)
    modifies db`table
    ensures db.Valid()
    ensures ok <==> KeysPark(old(db.table), order) && RowsPark(old(db.table), sweep, shift)
    ensures ok ==> db.table == RowsParked(old(db.table), sweep, shift)
  {
    ghost var before := db.table;
    ok := ParkKeys(db, existing, order);
    if !ok { return; }
    assert db.table == RowsParked(before, [], shift);
    ok := ParkRows(db, sweep, shift, before);
  }

  // The three write stages inside the transaction; a violation rolls everything back.
  method Rewrite(db: Database, existing: seq<Button>, order: seq<nat>, sweep: seq<nat>, entries: seq<Entry>,
                 buttons: seq<Button>, byId: map<nat, Button>, shift: nat)
    returns (ok: bool, ghost pks: seq<nat>)
    requires db.Valid() && Lists(order, db.table.Keys) && Lists(sweep, db.table.Keys) && Loaded(existing, order)
    requires byId.Keys == db.table.Keys && Valid(entries, db.table.Keys) && Parsed(entries, |entries|, buttons, byId)
    requires shift == Shift(entries)
    modifies db, buttons
    ensures db.Valid() && old(db.nextPk) <= db.nextPk
    ensures ok <==> NoClash(old(db.table), order, sweep, entries)
    ensures ok ==> Stores(db.table, pks, entries)
    ensures !ok ==> db.table == old(db.table)
  {
    var before := db.table;
    pks := [];
    ok := Park(db, existing, order, sweep, shift);
    if ok {
      AllReferenced(entries, before.Keys);
      ok, pks := SaveButtons(db, entries, buttons, before, sweep, shift);
    }
    if ok {
      AllWritten(before, sweep, shift, entries, pks);
    } else {
      db.table := before;
    }
  }

  // A save goes through if and only if the submission is usable and clashes with nothing on the way; it then
  // stores exactly the submission. Every other outcome leaves the table as it was.
  method SaveLayout(db: Database, entries: seq<Entry>, mayBeEmpty: bool, order: seq<nat>, sweep: seq<nat>)
    returns (response: Response, ghost pks: seq<nat>)
    requires db.Valid() && StoredOrder(order, db.table) && Lists(sweep, db.table.Keys)
    modifies db
    ensures db.Valid() && old(db.nextPk) <= db.nextPk
    ensures response == Saved <==>
              && |entries| <= 100 && (entries != [] || mayBeEmpty)
              && Valid(entries, old(db.table).Keys) && NoClash(old(db.table), order, sweep, entries)
    ensures response == Refused <==> |entries| > 100 || (entries == [] && !mayBeEmpty) || !Valid(entries, old(db.table).Keys)
    ensures response == Saved ==> Stores(db.table, pks, entries)
    ensures response != Saved ==> db.table == old(db.table)
  {
    pks := [];
    if |entries| > 100 || (entries == [] && !mayBeEmpty) { return Refused, pks; }
    var existing, byId := Load(db.table, order);
    var ok, buttons := Parse(byId, entries);
    if !ok { return Refused, pks; }
    var maxRow := LargestRow(existing);
    LargestIsMaxRow(entries, existing, order, byId, buttons, maxRow);
    ok, pks := Rewrite(db, existing, order, sweep, entries, buttons, byId, maxRow + 1000);
    response := if ok then Saved else ConstraintViolation;
  }

  // ------------------------------------------------------------------
  // The remote's own settings, saved in the same transaction
  // ------------------------------------------------------------------

  datatype DeviceType = Ac | LgTv | OtherDevice

  datatype RemoteRow = RemoteRow(
    device: DeviceType, active: bool, guestVisible: bool, voiceEnabled: bool, deviceName: string,
    brand: AcModel.Brand, protocol: AcModel.Protocol, model: AcModel.Model, visibility: map<string, bool>)

  // The firmware supports its configuration.
  predicate Runs(row: RemoteRow) {
    AcModel.Supported(AcModel.Config(row.brand, row.protocol, row.model))
  }

  // Submitted settings; `visibility` is none when it is not a map of known fields to booleans.
  datatype Settings = Settings(
    active: bool, guestVisible: bool, voiceEnabled: bool, deviceName: string,
    protocol: AcModel.Protocol, model: AcModel.Model, visibility: Option<map<string, bool>>)

  datatype Submitted = Missing | Unusable | Given(settings: Settings)

  const NO_PROTOCOL := AcModel.OtherProtocol("")
  const NO_MODEL := AcModel.OtherModel("")

  // Without submitted settings the remote keeps its own, but those do not include a protocol.
  function Effective(remote: RemoteRow, submitted: Submitted): Settings {
    if submitted.Given? then submitted.settings
    else Settings(remote.active, remote.guestVisible, remote.voiceEnabled, remote.deviceName, NO_PROTOCOL, NO_MODEL, Some(map[]))
  }

  // The remote's row after a save, if its settings are acceptable.
  function Resettled(remote: RemoteRow, submitted: Submitted): Option<RemoteRow> {
    var e := Effective(remote, submitted);
    var name := SpeechText.Strip(e.deviceName);
    if submitted.Unusable? then None
    else if remote.device != Ac then
      Some(RemoteRow(remote.device, e.active, e.guestVisible, e.voiceEnabled, name, AcModel.OtherBrand(""), NO_PROTOCOL,
                     NO_MODEL, map[]))
    else if e.protocol.OtherProtocol? || !AcDjango.ModelSupported(e.protocol, e.model) || e.visibility.None? then None
    else
      Some(RemoteRow(Ac, e.active, e.guestVisible, e.voiceEnabled, name, AcDjango.TableBrand(e.protocol), e.protocol,
                     AcDjango.NormalizeModel(e.protocol, e.model), e.visibility.value))
  }

  // Two air conditioners may not have the same name, unless it is empty.
  predicate NameTaken(row: RemoteRow, others: set<string>) {
    row.device == Ac && row.deviceName != "" && row.deviceName in others
  }

  // The variant a protocol's settings mean when they name none.
  ghost function FirstVariant(p: AcModel.Protocol): AcModel.Model {
    match p
    case Gree => AcModel.Yaw1f
    case HaierYrw02 => AcModel.V9014557A
    case Haier176 => AcModel.V9014557A
    case Kelon168 => AcModel.Dg11r201
    case _ => AcModel.DefaultModel
  }

  // Whether settings can be saved on such a remote at all.
  ghost predicate Settleable(remote: RemoteRow, submitted: Submitted) {
    && !submitted.Unusable?
    && (remote.device == Ac ==>
          && submitted.Given? && submitted.settings.visibility.Some? && !submitted.settings.protocol.OtherProtocol?
          && (submitted.settings.model == AcModel.OtherModel("")
              || AcModel.SupportedModel(submitted.settings.protocol, submitted.settings.model)))
  }

  // What is stored then, field by field.
  ghost predicate SettledAs(remote: RemoteRow, submitted: Submitted, row: RemoteRow) {
    && row.device == remote.device
    && (submitted.Given? ==>
          && row.active == submitted.settings.active && row.guestVisible == submitted.settings.guestVisible
          && row.voiceEnabled == submitted.settings.voiceEnabled
          && row.deviceName == SpeechText.Strip(submitted.settings.deviceName))
    && (submitted.Missing? ==>
          && row.active == remote.active && row.guestVisible == remote.guestVisible && row.voiceEnabled == remote.voiceEnabled
          && row.deviceName == SpeechText.Strip(remote.deviceName))
    && (if remote.device != Ac then
          && row.protocol == NO_PROTOCOL && row.model == NO_MODEL && row.brand == AcModel.OtherBrand("")
          && row.visibility == map[]
        else
          && submitted.Given? && Runs(row)
          && row.protocol == submitted.settings.protocol && Some(row.visibility) == submitted.settings.visibility
          && row.model == (if submitted.settings.model in {AcModel.DefaultModel, AcModel.OtherModel("")}
                           then FirstVariant(row.protocol) else submitted.settings.model))
  }

  lemma SettledAsSubmitted(remote: RemoteRow, submitted: Submitted)
    ensures Resettled(remote, submitted).Some? <==> Settleable(remote, submitted)
    ensures Resettled(remote, submitted).Some? ==> SettledAs(remote, submitted, Resettled(remote, submitted).value)
  {
    if remote.device == Ac && submitted.Given? && !submitted.settings.protocol.OtherProtocol? {
      AcDjango.TablesAgree(submitted.settings.protocol);
    }
  }

  // The name that is stored.
  ghost function StoredName(remote: RemoteRow, submitted: Submitted): string {
    SpeechText.Strip(if submitted.Given? then submitted.settings.deviceName else remote.deviceName)
  }

  // An air conditioner is only ever saved with a configuration that the firmware supports.
  lemma SavedRemoteIsSupported(remote: RemoteRow, submitted: Submitted)
    requires remote.device == Ac && Resettled(remote, submitted).Some?
    ensures Runs(Resettled(remote, submitted).value)
  {
    var row := Resettled(remote, submitted).value;
    AcDjango.TablesAgree(row.protocol);
  }

  // So one whose settings are not submitted cannot be saved at all.
  lemma AcNeedsSettings(remote: RemoteRow)
    requires remote.device == Ac
    ensures Resettled(remote, Missing).None?
  {
  }

  class Remote {
    var row: RemoteRow

    constructor (row: RemoteRow)
      ensures this.row == row
    {
      this.row := row;
    }

    // The checks on submitted settings, in the order they are made, and the row they lead to.
    method CheckSettings(submitted: Submitted) returns (settled: Option<RemoteRow>)
      ensures settled == Resettled(row, submitted)
      ensures settled.Some? <==> Settleable(row, submitted)
      ensures settled.Some? ==> SettledAs(row, submitted, settled.value)
    {
      SettledAsSubmitted(row, submitted);
      if submitted.Unusable? { return None; }
      var e := Effective(row, submitted);
      var brand, protocol, model, visibility := AcModel.OtherBrand(""), NO_PROTOCOL, NO_MODEL, map[];
      if row.device == Ac {
        protocol := e.protocol;
        if protocol.OtherProtocol? { return None; }
        model := AcDjango.NormalizeModel(protocol, e.model);
        if !AcDjango.ModelSupported(protocol, e.model) { return None; }
        if e.visibility.None? { return None; }
        visibility := e.visibility.value;
        brand := AcDjango.TableBrand(protocol);
      }
      settled := Some(RemoteRow(row.device, e.active, e.guestVisible, e.voiceEnabled, SpeechText.Strip(e.deviceName),
                                brand, protocol, model, visibility));
    }
  }

  // The whole save: buttons and settings are stored together or not at all.
  method SaveConfig(db: Database, remote: Remote, submitted: Submitted, entries: seq<Entry>, order: seq<nat>,
                    sweep: seq<nat>, others: set<string>)
    returns (response: Response, ghost pks: seq<nat>)
    requires db.Valid() && StoredOrder(order, db.table) && Lists(sweep, db.table.Keys)
    modifies db, remote
    ensures db.Valid()
    ensures response == Saved <==>
              && |entries| <= 100 && (entries != [] || old(remote.row).device != OtherDevice)
              && Settleable(old(remote.row), submitted)
              && Valid(entries, old(db.table).Keys) && NoClash(old(db.table), order, sweep, entries)
              && !(old(remote.row).device == Ac && StoredName(old(remote.row), submitted) != ""
                   && StoredName(old(remote.row), submitted) in others)
    ensures response == Refused <==>
              || |entries| > 100 || (entries == [] && old(remote.row).device == OtherDevice)
              || !Settleable(old(remote.row), submitted) || !Valid(entries, old(db.table).Keys)
    ensures response == Saved ==> Stores(db.table, pks, entries) && SettledAs(old(remote.row), submitted, remote.row)
    ensures response != Saved ==> db.table == old(db.table) && remote.row == old(remote.row)
  {
    pks := [];
    var settled := remote.CheckSettings(submitted);
    if settled.None? { return Refused, pks; }
    response, pks := SaveButtonsUnlessTaken(db, entries, remote.row.device != OtherDevice, order, sweep,
                                            NameTaken(settled.value, others));
    if response == Saved { remote.row := settled.value; }
  }

  // The buttons, and then the remote's row: its own violation rolls the buttons back as well.
  method SaveButtonsUnlessTaken(db: Database, entries: seq<Entry>, mayBeEmpty: bool, order: seq<nat>, sweep: seq<nat>,
                                taken: bool)
    returns (response: Response, ghost pks: seq<nat>)
    requires db.Valid() && StoredOrder(order, db.table) && Lists(sweep, db.table.Keys)
    modifies db
    ensures db.Valid()
    ensures response == Saved <==>
              && |entries| <= 100 && (entries != [] || mayBeEmpty)
              && Valid(entries, old(db.table).Keys) && NoClash(old(db.table), order, sweep, entries) && !taken
    ensures response == Refused <==> |entries| > 100 || (entries == [] && !mayBeEmpty) || !Valid(entries, old(db.table).Keys)
    ensures response == Saved ==> Stores(db.table, pks, entries)
    ensures response != Saved ==> db.table == old(db.table)
  {
    var before := db.table;
    response, pks := SaveLayout(db, entries, mayBeEmpty, order, sweep);
    if response == Saved && taken {
      db.table := before;
      response := ConstraintViolation;
    }
  }

  // The aliasing at work: the loaded objects already hold the submitted rows.
  lemma LargestIsMaxRow(entries: seq<Entry>, existing: seq<Button>, order: seq<nat>, byId: map<nat, Button>,
                        buttons: seq<Button>, m: nat)
    requires Loaded(existing, order) && Lists(order, byId.Keys)
    requires forall i :: 0 <= i < |order| ==> order[i] in byId && byId[order[i]] == existing[i]
    requires Valid(entries, byId.Keys) && Parsed(entries, |entries|, buttons, byId)
    requires forall b :: b in existing ==> b.slot.row <= m
    requires m == 0 || exists b :: b in existing && b.slot.row == m
    ensures m == MaxRow(entries)
  {
  }

  // ------------------------------------------------------------------
  // Which layouts are safe
  // ------------------------------------------------------------------

  predicate Reserved(key: string) {
    PREFIX <= key
  }

  // A table that can always be rewritten: no far-away rows, no parking keys.
  ghost predicate Tame(t: Table) {
    forall p :: p in t ==> t[p].row < 1000 && !Reserved(t[p].key)
  }

  ghost predicate TameEntries(entries: seq<Entry>) {
    forall k :: 0 <= k < |entries| ==> entries[k].slot.row < 1000 && !Reserved(entries[k].slot.key)
  }

  // Below row 1000 and without reserved keys nothing clashes, in whatever order the rows are visited.
  lemma TameNeverClashes(t: Table, order: seq<nat>, sweep: seq<nat>, entries: seq<Entry>)
    requires Tame(t) && TameEntries(entries)
    requires Lists(order, t.Keys) && Lists(sweep, t.Keys)
    ensures NoClash(t, order, sweep, entries)
  {
  }

  // A tame save leaves a tame table, so every later tame save goes through as well.
  lemma TameStays(table: Table, pks: seq<nat>, entries: seq<Entry>)
    requires Stores(table, pks, entries) && TameEntries(entries)
    ensures Tame(table)
  {
  }

  // A stored key that looks like another button's parking key makes a plain re-save fail: in the stored order all keys
  // are parked, but the first button cannot be saved while the second one lies parked under its key.
  lemma ReservedKeyClashes(a: Details)
    ensures
      var t: Table := map[1 := Slot("temporary-2", 0, 0, 0, a), 2 := Slot("volume_up", 0, 1, 1, a)];
      var entries := [Entry(Existing(1), true, t[1]), Entry(Existing(2), true, t[2])];
      && Unique(t) && Valid(entries, t.Keys) && StoredOrder([1, 2], t)
      && KeysPark(t, [1, 2]) && !LeavesParked(t, entries, Shift(entries)) && !NoClash(t, [1, 2], [1, 2], entries)
  {
    var t: Table := map[1 := Slot("temporary-2", 0, 0, 0, a), 2 := Slot("volume_up", 0, 1, 1, a)];
    var entries := [Entry(Existing(1), true, t[1]), Entry(Existing(2), true, t[2])];
    assert entries[0].ref == Existing(1) && entries[1].ref == Existing(2);
    assert Decimal(2) == "2" && Decimal(1) == "1";
    assert [1, 2][0] == 1 && [1, 2][1] == 2;
    assert ParkingKey(1) != "volume_up" by { assert ParkingKey(1)[0] == 't'; }
    assert KeyParks(t, [1, 2], 0) && KeyParks(t, [1, 2], 1);
    assert !LeavesLater(t, entries, Shift(entries), 0);
  }

  // A new button placed far down can land on the parking place of one that is not saved yet.
  lemma FarRowClashes(a: Details)
    ensures
      var t: Table := map[1 := Slot("power", 0, 0, 0, a)];
      var entries := [Entry(New, true, Slot("mute", 1000, 0, 0, a)), Entry(Existing(1), true, t[1])];
      Unique(t) && Valid(entries, t.Keys) && StoredOrder([1], t) && !NoClash(t, [1], [1], entries)
  {
    var t: Table := map[1 := Slot("power", 0, 0, 0, a)];
    var entries := [Entry(New, true, Slot("mute", 1000, 0, 0, a)), Entry(Existing(1), true, t[1])];
    assert entries[1].ref == Existing(1);
    assert MaxRow(entries) == 0;
    assert !LeavesLater(t, entries, 1000, 0);
  }

  // ------------------------------------------------------------------
  // The editor's positions
  // ------------------------------------------------------------------

  function Normalized(slot: Slot, index: nat, columns: nat): Slot
    requires columns > 0
  {
    slot.(sortOrder := index, row := index / columns, column := index % columns)
  }

  method NormalizePositions(buttons: seq<Button>, columns: nat)
    requires columns > 0
    requires forall i, j :: 0 <= i < j < |buttons| ==> buttons[i] != buttons[j]
    modifies buttons
    ensures forall k :: 0 <= k < |buttons| ==>
              buttons[k].slot == Normalized(old(buttons[k].slot), k, columns) && buttons[k].pk == old(buttons[k].pk)
    ensures forall k :: 0 <= k < |buttons| ==>
              var was, slot := old(buttons[k].slot), buttons[k].slot;
              && slot.row == k / columns && slot.column == k % columns && slot.sortOrder == k
              && slot.key == was.key && slot.details == was.details
  {
    for index := 0 to |buttons|
      invariant forall k :: 0 <= k < index ==> buttons[k].slot == Normalized(old(buttons[k].slot), k, columns)
      invariant forall k :: index <= k < |buttons| ==> buttons[k].slot == old(buttons[k].slot)
      invariant forall k :: 0 <= k < |buttons| ==> buttons[k].pk == old(buttons[k].pk)
    {
      var slot := buttons[index].slot;
      buttons[index].slot := slot.(sortOrder := index, row := index / columns, column := index % columns);
    }
  }

  ghost predicate InGrid(entries: seq<Entry>, columns: nat)
    requires columns > 0
  {
    forall k :: 0 <= k < |entries| ==> entries[k].slot == Normalized(entries[k].slot, k, columns)
  }

  lemma GridPositionsDiffer(i: nat, j: nat, columns: nat)
    requires columns > 0 && i != j
    ensures i / columns != j / columns || i % columns != j % columns
  {
  }

  lemma {:induction false} TimesAtLeast(c: nat, q: nat)
    requires c > 0
    ensures c * q >= q
  {
  }

  lemma RowAtMostIndex(i: nat, columns: nat)
    requires columns > 0
    ensures i / columns <= i
  {
    var q, r := i / columns, i % columns;
    var product := columns * q;
    assert i == product + r;
    assert product >= q by { TimesAtLeast(columns, q); }
  }

  // What the editor sends for at most a hundred buttons with distinct, unreserved keys can never clash, in
  // its positions or on the way.
  lemma EditorLayoutsSave(t: Table, order: seq<nat>, sweep: seq<nat>, entries: seq<Entry>, columns: nat)
    requires columns > 0 && |entries| <= 100 && InGrid(entries, columns)
    requires forall i, j :: 0 <= i < j < |entries| ==> entries[i].slot.key != entries[j].slot.key
    requires forall k :: 0 <= k < |entries| ==> !Reserved(entries[k].slot.key)
    requires Tame(t) && Lists(order, t.Keys) && Lists(sweep, t.Keys)
    ensures forall i, j :: 0 <= i < j < |entries| ==> Apart(entries[i].slot, entries[j].slot)
    ensures TameEntries(entries) && NoClash(t, order, sweep, entries)
  {
    forall i, j | 0 <= i < j < |entries|
      ensures Apart(entries[i].slot, entries[j].slot)
    {
      GridPositionsDiffer(i, j, columns);
    }
    forall k | 0 <= k < |entries|
      ensures entries[k].slot.row <= k
    {
      RowAtMostIndex(k, columns);
    }
    TameNeverClashes(t, order, sweep, entries);
  }
}
