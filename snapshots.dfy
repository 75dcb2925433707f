/**
 * What the three watchers share once their vendor-specific parts are set
 * aside: the id-keyed cart object that a parse builds by assignment (last
 * write wins), the snapshot file and what reading it yields, the walk over
 * the ids that the new and the old snapshot have in common, and the choice of
 * the "relevant" changed fields of one item.
 */
module Snapshots {
  import opened Js

  // ---------------------------------------------------------------------
  // The id-keyed cart object
  // ---------------------------------------------------------------------

  /** A plain JS object used as a dictionary: `keys` is its key order
      (`Object.keys`), `items` its contents. */
  datatype Snapshot<T> = Snapshot(keys: seq<string>, items: map<string, T>)

  predicate Distinct(ks: seq<string>) {
    forall i, j :: 0 <= i < j < |ks| ==> ks[i] != ks[j]
  }

  predicate Valid<T>(s: Snapshot<T>) {
    Distinct(s.keys) && (forall k :: k in s.keys ==> k in s.items) && (forall k :: k in s.items ==> k in s.keys)
  }

  /** `obj[k] = v`: a new key goes last; an existing key keeps its place and
      takes the new value. */
  function Assign<T>(s: Snapshot<T>, k: string, v: T): Snapshot<T> {
    Snapshot(if k in s.items then s.keys else s.keys + [k], s.items[k := v])
  }

  /** `entries.forEach(([k, v]) => { obj[k] = v; })` on an empty object. */
  function LastWriteWins<T>(entries: seq<(string, T)>): Snapshot<T>
    decreases |entries|
  {
    if entries == [] then Snapshot([], map[])
    else
      var n := |entries| - 1;
      Assign(LastWriteWins(entries[..n]), entries[n].0, entries[n].1)
  }

  /** The in-place fill loop `uniqueItems[obj.id] = obj` that every parse ends
      with, over entries whose keys have already been turned into strings. */
  method Unique<T>(entries: seq<(string, T)>) returns (s: Snapshot<T>)
    ensures s == LastWriteWins(entries)
  {
    s := Snapshot([], map[]);
    for i := 0 to |entries|
      invariant s == LastWriteWins(entries[..i])
    {
      assert entries[..i + 1][..i] == entries[..i];
      var (k, v) := entries[i];
      if k !in s.items {
        s := s.(keys := s.keys + [k]);
      }
      s := s.(items := s.items[k := v]);
    }
    assert entries[..|entries|] == entries;
  }

  lemma {:induction false} LastWriteWinsValid<T>(entries: seq<(string, T)>)
    ensures Valid(LastWriteWins(entries))
    decreases |entries|
  {
    if entries != [] {
      var n := |entries| - 1;
      LastWriteWinsValid(entries[..n]);
    }
  }

  /** The keys of the result are exactly the keys of the entries. */
  lemma {:induction false} LastWriteWinsKeys<T>(entries: seq<(string, T)>, k: string)
    ensures k in LastWriteWins(entries).items <==> exists i :: 0 <= i < |entries| && entries[i].0 == k
    decreases |entries|
  {
    if entries != [] {
      var n := |entries| - 1;
      LastWriteWinsKeys(entries[..n], k);
      if exists i :: 0 <= i < n && entries[..n][i].0 == k {
        var i :| 0 <= i < n && entries[..n][i].0 == k;
        assert entries[i].0 == k;
      }
      if i :| 0 <= i < n && entries[i].0 == k {
        assert entries[..n][i].0 == k;
      }
    }
  }

  /** Each key holds the value of the last entry with that key. */
  lemma {:induction false} LastWriteWinsValue<T>(entries: seq<(string, T)>, k: string)
    requires k in LastWriteWins(entries).items
    ensures exists i :: 0 <= i < |entries| && entries[i].0 == k
                        && LastWriteWins(entries).items[k] == entries[i].1
                        && forall j :: i < j < |entries| ==> entries[j].0 != k
    decreases |entries|
  {
    var n := |entries| - 1;
    if entries[n].0 != k {
      LastWriteWinsValue(entries[..n], k);
      var i :| 0 <= i < n && entries[..n][i].0 == k
               && LastWriteWins(entries[..n]).items[k] == entries[..n][i].1
               && forall j :: i < j < n ==> entries[..n][j].0 != k;
      forall j | i < j < |entries|
        ensures entries[j].0 != k
      {
        if j < n { assert entries[j] == entries[..n][j]; }
      }
      assert entries[i] == entries[..n][i];
    }
  }

  /** Entries appended later override earlier ones with the same key; keys
      the later entries do not mention keep their earlier value. */
  lemma {:induction false} LastWriteWinsAppend<T>(a: seq<(string, T)>, b: seq<(string, T)>, k: string)
    ensures k in LastWriteWins(b).items ==>
              k in LastWriteWins(a + b).items && LastWriteWins(a + b).items[k] == LastWriteWins(b).items[k]
    ensures k !in LastWriteWins(b).items ==>
              (k in LastWriteWins(a + b).items <==> k in LastWriteWins(a).items)
              && (k in LastWriteWins(a).items ==> LastWriteWins(a + b).items[k] == LastWriteWins(a).items[k])
    decreases |b|
  {
    if b == [] {
      assert a + b == a;
    } else {
      var n := |b| - 1;
      assert (a + b)[..|a| + n] == a + b[..n];
      assert (a + b)[|a| + n] == b[n];
      LastWriteWinsAppend(a, b[..n], k);
    }
  }

  /** Each item paired with the property key it is assigned to: the string
      of its id, or its asin. */
  function Keyed<T>(items: seq<T>, key: T -> string): seq<(string, T)> {
    seq(|items|, i requires 0 <= i < |items| => (key(items[i]), items[i]))
  }

  lemma KeyedAppend<T>(a: seq<T>, b: seq<T>, key: T -> string)
    ensures Keyed(a + b, key) == Keyed(a, key) + Keyed(b, key)
  {
    var l, r := Keyed(a + b, key), Keyed(a, key) + Keyed(b, key);
    forall i | 0 <= i < |l| ensures l[i] == r[i] {
      if i < |a| { assert (a + b)[i] == a[i]; } else { assert (a + b)[i] == b[i - |a|]; }
    }
  }

  /** Assigning every item under its key gives a snapshot whose keys are
      exactly the items' keys, each holding the last item with that key. */
  lemma KeyedLastWins<T>(items: seq<T>, key: T -> string, k: string)
    ensures var s := LastWriteWins(Keyed(items, key));
      && Valid(s)
      && (k in s.items <==> exists i :: 0 <= i < |items| && key(items[i]) == k)
      && (k in s.items ==>
            exists i :: 0 <= i < |items| && key(items[i]) == k && s.items[k] == items[i]
                        && forall j :: i < j < |items| ==> key(items[j]) != k)
  {
    var entries := Keyed(items, key);
    LastWriteWinsValid(entries);
    LastWriteWinsKeys(entries, k);
    if i :| 0 <= i < |items| && key(items[i]) == k {
      assert entries[i].0 == k;
    }
    if k in LastWriteWins(entries).items {
      LastWriteWinsValue(entries, k);
      var i :| 0 <= i < |entries| && entries[i].0 == k
               && LastWriteWins(entries).items[k] == entries[i].1
               && forall j :: i < j < |entries| ==> entries[j].0 != k;
      forall j | i < j < |items| ensures key(items[j]) != k {
        assert entries[j].0 != k;
      }
    }
  }

  // ---------------------------------------------------------------------
  // The snapshot file
  // ---------------------------------------------------------------------

  /** `cart.json`: either it cannot be read or parsed, or it parses to a value. */
  datatype FileState = Unreadable | Json(content: Value)

  /** `oldItems` after the guarded read: `{}` when reading or parsing fails. */
  function OldItems(f: FileState): Value {
    match f
    case Unreadable => Obj([])
    case Json(v) => v
  }

  /** The cart as the object `JSON.stringify(newItems)` serialises. */
  function SnapshotObject<T>(s: Snapshot<T>, asObject: T -> Value): Value {
    Obj(seq(|s.keys|, i requires 0 <= i < |s.keys| =>
      Field(s.keys[i], if s.keys[i] in s.items then asObject(s.items[s.keys[i]]) else Undefined)))
  }

  /** What the file parses to after `fs.writeFile(jsonPath, JSON.stringify(newItems, null, 2))`. */
  function Persisted<T>(s: Snapshot<T>, asObject: T -> Value): Value {
    ToJson(SnapshotObject(s, asObject))
  }

  /** Reading back an item of a written snapshot gives the stored form of that item. */
  lemma PersistedItem<T>(s: Snapshot<T>, asObject: T -> Value, k: string)
    requires Valid(s) && k in s.items
    ensures Get(Persisted(s, asObject), k) == ToJson(asObject(s.items[k]))
  {
    var obj := SnapshotObject(s, asObject);
    assert DistinctKeys(obj.fields);
    GetToJson(obj.fields, k);
    var i :| 0 <= i < |s.keys| && s.keys[i] == k;
    LookupFinds(obj.fields, i);
  }

  // ---------------------------------------------------------------------
  // Walking the ids common to the new and the old snapshot
  // ---------------------------------------------------------------------

  /** `newItemsKeys.forEach((key) => { if (oldItemsKeys.includes(key))
      checkForChanges(oldItems[key], newItems[key]); })`: what each call sends,
      concatenated in call order. */
  function DiffCommon<T, N>(order: seq<string>, oldKeys: seq<string>, oldItems: Value,
                            items: map<string, T>, check: (Value, T) -> seq<N>): seq<N>
    decreases |order|
  {
    if order == [] then []
    else
      var n := |order| - 1;
      var k := order[n];
      DiffCommon(order[..n], oldKeys, oldItems, items, check)
        + (if k in oldKeys && k in items then check(Get(oldItems, k), items[k]) else [])
  }

  lemma DiffCommonStep<T, N>(order: seq<string>, oldKeys: seq<string>, oldItems: Value,
                             items: map<string, T>, check: (Value, T) -> seq<N>, i: nat)
    requires i < |order|
    ensures DiffCommon(order[..i + 1], oldKeys, oldItems, items, check) ==
              DiffCommon(order[..i], oldKeys, oldItems, items, check)
              + (if order[i] in oldKeys && order[i] in items then check(Get(oldItems, order[i]), items[order[i]]) else [])
  {
    assert order[..i + 1][..i] == order[..i];
  }

  /** When the two snapshots share no id (for instance on the first run, when
      the old one is empty), nothing is sent. */
  lemma {:induction false} DiffCommonDisjoint<T, N>(order: seq<string>, oldKeys: seq<string>, oldItems: Value,
                                                    items: map<string, T>, check: (Value, T) -> seq<N>)
    requires forall k :: k in order ==> k !in oldKeys
    ensures DiffCommon(order, oldKeys, oldItems, items, check) == []
    decreases |order|
  {
    if order != [] {
      var n := |order| - 1;
      assert order[n] in order;
      assert forall k :: k in order[..n] ==> k in order;
      DiffCommonDisjoint(order[..n], oldKeys, oldItems, items, check);
    }
  }

  /** When no common id has anything to report, nothing is sent. */
  lemma {:induction false} DiffCommonSilent<T, N>(order: seq<string>, oldKeys: seq<string>, oldItems: Value,
                                                  items: map<string, T>, check: (Value, T) -> seq<N>)
    requires forall k :: k in order && k in oldKeys && k in items ==> check(Get(oldItems, k), items[k]) == []
    ensures DiffCommon(order, oldKeys, oldItems, items, check) == []
    decreases |order|
  {
    if order != [] {
      var n := |order| - 1;
      assert order[n] in order;
      assert forall k :: k in order[..n] ==> k in order;
      DiffCommonSilent(order[..n], oldKeys, oldItems, items, check);
    }
  }

  /** Everything sent comes from the check of an id present in both snapshots. */
  lemma {:induction false} DiffCommonSource<T, N>(order: seq<string>, oldKeys: seq<string>, oldItems: Value,
                                                  items: map<string, T>, check: (Value, T) -> seq<N>)
    ensures forall x :: x in DiffCommon(order, oldKeys, oldItems, items, check) ==>
              exists k :: k in order && k in oldKeys && k in items && x in check(Get(oldItems, k), items[k])
    decreases |order|
  {
    if order != [] {
      var n := |order| - 1;
      DiffCommonSource(order[..n], oldKeys, oldItems, items, check);
      assert order[n] in order;
      assert forall k :: k in order[..n] ==> k in order;
    }
  }

  // ---------------------------------------------------------------------
  // The changed relevant fields of one item
  // ---------------------------------------------------------------------

  /** `const relevantKeys = ["stock", "price"]`. */
  const RelevantKeys: seq<string> := ["stock", "price"]

  /** `oldItem[key] !== newItem[key] && relevantKeys.includes(key)`. */
  predicate IsRelevantChange(k: string, oldItem: Value, newItem: Value) {
    Differs(Get(oldItem, k), Get(newItem, k)) && k in RelevantKeys
  }

  /** The keys of the old item, in their order, for which a message is built. */
  function ChangedKeys(keys: seq<string>, oldItem: Value, newItem: Value): seq<string>
    decreases |keys|
  {
    if keys == [] then []
    else
      var n := |keys| - 1;
      ChangedKeys(keys[..n], oldItem, newItem)
        + (if IsRelevantChange(keys[n], oldItem, newItem) then [keys[n]] else [])
  }

  lemma ChangedKeysStep(keys: seq<string>, oldItem: Value, newItem: Value, i: nat)
    requires i < |keys|
    ensures ChangedKeys(keys[..i + 1], oldItem, newItem) ==
              ChangedKeys(keys[..i], oldItem, newItem) + (if IsRelevantChange(keys[i], oldItem, newItem) then [keys[i]] else [])
  {
    assert keys[..i + 1][..i] == keys[..i];
  }

  /** A key is reported exactly when it is one of the old item's keys, it is
      relevant and its values differ. */
  lemma {:induction false} ChangedKeysMembership(keys: seq<string>, oldItem: Value, newItem: Value, k: string)
    ensures k in ChangedKeys(keys, oldItem, newItem) <==> k in keys && IsRelevantChange(k, oldItem, newItem)
    decreases |keys|
  {
    if keys != [] {
      var n := |keys| - 1;
      ChangedKeysMembership(keys[..n], oldItem, newItem, k);
      assert keys == keys[..n] + [keys[n]];
    }
  }

  /** The reported keys keep the old item's order and never repeat when its
      keys do not. */
  lemma {:induction false} ChangedKeysDistinct(keys: seq<string>, oldItem: Value, newItem: Value)
    requires Distinct(keys)
    ensures Distinct(ChangedKeys(keys, oldItem, newItem))
    decreases |keys|
  {
    if keys != [] {
      var n := |keys| - 1;
      assert Distinct(keys[..n]);
      ChangedKeysDistinct(keys[..n], oldItem, newItem);
      var k := keys[n];
      forall i | 0 <= i < n ensures keys[..n][i] != k {
        assert keys[i] != keys[n];
      }
      ChangedKeysMembership(keys[..n], oldItem, newItem, k);
      assert k !in ChangedKeys(keys[..n], oldItem, newItem);
    }
  }

  lemma {:induction false} ChangedKeysAppend(a: seq<string>, b: seq<string>, oldItem: Value, newItem: Value)
    ensures ChangedKeys(a + b, oldItem, newItem) == ChangedKeys(a, oldItem, newItem) + ChangedKeys(b, oldItem, newItem)
    decreases |b|
  {
    if b == [] {
      assert a + b == a;
    } else {
      var n := |b| - 1;
      assert (a + b)[..|a| + n] == a + b[..n];
      assert (a + b)[|a| + n] == b[n];
      ChangedKeysAppend(a, b[..n], oldItem, newItem);
      var last := if IsRelevantChange(b[n], oldItem, newItem) then [b[n]] else [];
      ConcatAssoc(ChangedKeys(a, oldItem, newItem), ChangedKeys(b[..n], oldItem, newItem), last);
    }
  }

  /** Reading the keys of a stored object field by field: a field dropped for
      being undefined is never reported; a kept one is reported when it is a
      relevant change. */
  lemma ChangedKeysOfDefined(f: Field, fs: seq<Field>, oldItem: Value, newItem: Value)
    ensures ChangedKeys(KeysOf(Defined([f] + fs)), oldItem, newItem) ==
              (if f.val != Undefined && IsRelevantChange(f.key, oldItem, newItem) then [f.key] else [])
              + ChangedKeys(KeysOf(Defined(fs)), oldItem, newItem)
  {
    var rest := KeysOf(Defined(fs));
    DefinedCons(f, fs);
    if f.val != Undefined {
      ChangedKeysAppend([f.key], rest, oldItem, newItem);
      ChangedKeysSingle(f.key, oldItem, newItem);
    } else {
      assert [] + rest == rest;
    }
  }

  /** A field that is neither "stock" nor "price" is never reported. */
  lemma ChangedKeysSkip(f: Field, fs: seq<Field>, oldItem: Value, newItem: Value)
    requires f.key !in RelevantKeys
    ensures ChangedKeys(KeysOf(Defined([f] + fs)), oldItem, newItem) == ChangedKeys(KeysOf(Defined(fs)), oldItem, newItem)
  {
    ChangedKeysOfDefined(f, fs, oldItem, newItem);
  }

  /** Three fields "price", something irrelevant, "stock", then fields that
      report nothing: at most "price", then "stock", is reported. */
  lemma PriceThenStock(price: Field, between: Field, stock: Field, rest: seq<Field>, oldItem: Value, newItem: Value)
    requires price.key == "price" && between.key !in RelevantKeys && stock.key == "stock"
    requires ChangedKeys(KeysOf(Defined(rest)), oldItem, newItem) == []
    ensures ChangedKeys(KeysOf(Defined([price] + ([between] + ([stock] + rest)))), oldItem, newItem) ==
              (if price.val != Undefined && IsRelevantChange("price", oldItem, newItem) then ["price"] else [])
              + (if stock.val != Undefined && IsRelevantChange("stock", oldItem, newItem) then ["stock"] else [])
  {
    var s := if stock.val != Undefined && IsRelevantChange("stock", oldItem, newItem) then ["stock"] else [];
    ChangedKeysOfDefined(stock, rest, oldItem, newItem);
    assert s + [] == s;
    ChangedKeysSkip(between, [stock] + rest, oldItem, newItem);
    ChangedKeysOfDefined(price, [between] + ([stock] + rest), oldItem, newItem);
  }

  lemma ChangedKeysSingle(k: string, oldItem: Value, newItem: Value)
    ensures ChangedKeys([k], oldItem, newItem) == if IsRelevantChange(k, oldItem, newItem) then [k] else []
  {
    assert [k][..0] == [];
  }

  /** When neither "stock" nor "price" changed, nothing is reported. */
  lemma NothingRelevantChanged(keys: seq<string>, oldItem: Value, newItem: Value)
    requires !IsRelevantChange("stock", oldItem, newItem) && !IsRelevantChange("price", oldItem, newItem)
    ensures ChangedKeys(keys, oldItem, newItem) == []
  {
    var r := ChangedKeys(keys, oldItem, newItem);
    if r != [] {
      ChangedKeysMembership(keys, oldItem, newItem, r[0]);
      assert false;
    }
  }

  /** An item never yields more than two messages: one for "stock", one for
      "price". */
  lemma AtMostTwoChanges(keys: seq<string>, oldItem: Value, newItem: Value)
    requires Distinct(keys)
    ensures |ChangedKeys(keys, oldItem, newItem)| <= 2
  {
    var r := ChangedKeys(keys, oldItem, newItem);
    ChangedKeysDistinct(keys, oldItem, newItem);
    if |r| > 2 {
      ChangedKeysMembership(keys, oldItem, newItem, r[0]);
      ChangedKeysMembership(keys, oldItem, newItem, r[1]);
      ChangedKeysMembership(keys, oldItem, newItem, r[2]);
      assert false;
    }
  }
}
