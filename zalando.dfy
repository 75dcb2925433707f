/**
 * The Zalando cart watcher (zalando/zalando.js): which intercepted browser
 * requests it replays, how it reads the reply, how it flattens the cart
 * payload into an id-keyed cart, and how it compares that cart with the
 * snapshot file and which Telegram notices it sends.
 */
module Zalando {
  import opened Js
  import opened Snapshots
  import opened Http
  import Utils

  /** The URL fragment of the cart request. */
  const CartEndpoint: string := "/api/cart-gateway/carts"
  /** The header that marks a request the watcher can replay. */
  const TokenHeader: string := "x-xsrf-token"
  /** Prefix of the product link shown in a notice. */
  const ShopPrefix: string := "https://www.zalando.es/"
  /** The pause after a 429 reply before the attempt ends, in milliseconds. */
  const RateLimitPauseMs: nat := 40000
  /** The number of name characters shown in a notice. */
  const ShortNameLength: nat := 30

  // ---------------------------------------------------------------------
  // Items and the parse of the cart payload
  // ---------------------------------------------------------------------

  /** The `articulo` object literal built from one article. */
  datatype Item = Item(id: Value, name: string, price: Value, badge: Value, stock: Value,
                       img: Value, available: Value, link: Value)
  {
    /** The item as a JS object, its keys in literal order. */
    function AsObject(): Value {
      Obj([Field("id", id), Field("name", Str(name)), Field("price", price), Field("badge", badge),
           Field("stock", stock), Field("img", img), Field("available", available), Field("link", link)])
    }
  }

  /** The three lists of the payload; each reads its id differently. */
  datatype Section = Grouped | OutOfStock | Unavailable

  /** The `id` of the article at position `index` of its list:
      `item_ids[0]` in a group, the whole `item_ids` among the out-of-stock
      articles, `item_ids[index]` among the unavailable ones. */
  function IdOf(section: Section, article: Value, index: nat): (r: Result<Value>)
    ensures r.Ok? ==> !IsNullish(article)
    ensures !IsNullish(article) ==>
              var ids := Get(article, "item_ids");
              match section
              case Grouped => r == MemberAt(ids, 0)
              case OutOfStock => r == Ok(ids)
              case Unavailable => r == MemberAt(ids, index)
  {
    var ids :- Member(article, "item_ids");
    match section
    case Grouped => MemberAt(ids, 0)
    case OutOfStock => Ok(ids)
    case Unavailable => MemberAt(ids, index)
  }

  /** Building `articulo`: it throws when the article, its `item_ids` (except
      for an out-of-stock article) or its `price` is null or undefined, or
      when its `name` is not a string; otherwise `stock` and `available` both
      hold `article.available` and the name is trimmed. */
  function Articulo(section: Section, article: Value, index: nat): (r: Result<Item>)
    ensures r.Ok? <==> IdOf(section, article, index).Ok? && Get(article, "name").Str?
                       && !IsNullish(Get(article, "price"))
    ensures r.Ok? ==>
              && r.value.id == IdOf(section, article, index).value
              && r.value.stock == Get(article, "available")
              && r.value.available == Get(article, "available")
              && r.value.name == Trim(Get(article, "name").s)
              && Trimmed(r.value.name)
              && r.value.price == Get(Get(article, "price"), "amount")
              && r.value.badge == Get(Get(article, "price"), "currency")
              && r.value.img == Get(article, "image_url")
              && r.value.link == Get(article, "shop_url")
  {
    var id :- IdOf(section, article, index);
    var name := Get(article, "name");
    var price := Get(article, "price");
    if !name.Str? || IsNullish(price) then Throws
    else
      TrimSpec(name.s);
      Ok(Item(id, Trim(name.s), Get(price, "amount"), Get(price, "currency"), Get(article, "available"),
              Get(article, "image_url"), Get(article, "available"), Get(article, "shop_url")))
  }

  /** The `forEach` callback of one list: push the article's `articulo`. */
  function Push(section: Section): (Value, nat) -> Result<seq<Item>> {
    (article: Value, index: nat) => (var item :- Articulo(section, article, index); Ok([item]))
  }

  /** What one list of articles pushes. */
  function ArticleItems(section: Section, articles: seq<Value>): Result<seq<Item>> {
    Collect(articles, Push(section))
  }

  /** What one group pushes: `group.articles.forEach(...)`, which throws
      when the group is nullish or `articles` is not an array. */
  function GroupItems(group: Value, index: nat): Result<seq<Item>> {
    var articles :- Member(group, "articles");
    var elems :- Elements(articles);
    ArticleItems(Grouped, elems)
  }

  /** What `data.groups?.forEach(...)` pushes. */
  function GroupedItems(data: Value): Result<seq<Item>> {
    var groups :- Member(data, "groups");
    var elems :- OptionalElements(groups);
    Collect(elems, GroupItems)
  }

  /** The elements `data[field]?.forEach(...)` visits. */
  function ListElements(data: Value, field: string): Result<seq<Value>> {
    var articles :- Member(data, field);
    OptionalElements(articles)
  }

  /** What `data[field]?.forEach(...)` pushes for an ungrouped list. */
  function ListItems(data: Value, field: string, section: Section): Result<seq<Item>> {
    var elems :- ListElements(data, field);
    ArticleItems(section, elems)
  }

  /** The `items` array at the end of the three loops: groups first, then
      out-of-stock articles, then unavailable ones. */
  function Pushes(data: Value): Result<seq<Item>> {
    var grouped :- GroupedItems(data);
    var outOfStock :- ListItems(data, "out_of_stock_articles", OutOfStock);
    var unavailable :- ListItems(data, "unavailable_articles", Unavailable);
    Ok(grouped + outOfStock + unavailable)
  }

  /** The property key of a pushed item: `String(item.id)`. */
  function ItemKey(item: Item): string {
    ToStr(item.id)
  }

  /** `parseData(data)`: the pushes, deduplicated by id, last write wins. */
  function Parse(data: Value): Result<Snapshot<Item>> {
    var items :- Pushes(data);
    Ok(LastWriteWins(Keyed(items, ItemKey)))
  }

  /** One list's `forEach` loop pushing onto `items`. */
  method PushArticles(section: Section, articles: seq<Value>, items: seq<Item>) returns (r: Result<seq<Item>>)
    ensures r == (match ArticleItems(section, articles) case Throws => Throws case Ok(more) => Ok(items + more))
  {
    var more: seq<Item> := [];
    assert articles[..0] == [];
    for j := 0 to |articles|
      invariant Collect(articles[..j], Push(section)) == Ok(more)
    {
      CollectStep(articles, Push(section), j);
      var item := Articulo(section, articles[j], j);
      if item.Throws? {
        CollectThrowsSticky(articles, Push(section), j + 1);
        return Throws;
      }
      more := more + [item.value];
    }
    assert articles[..|articles|] == articles;
    return Ok(items + more);
  }

  /** `parseData(data)`: the three push loops, then the fill loop. */
  method ParseData(data: Value) returns (r: Result<Snapshot<Item>>)
    ensures r == Parse(data)
  {
    var items: seq<Item> := [];
    var groupsField := Member(data, "groups");
    if groupsField.Throws? {
      return Throws;
    }
    var groups := OptionalElements(groupsField.value);
    if groups.Throws? {
      return Throws;
    }
    var gs := groups.value;
    for i := 0 to |gs|
      invariant Collect(gs[..i], GroupItems) == Ok(items)
    {
      CollectStep(gs, GroupItems, i);
      var articles := Member(gs[i], "articles");
      var elems := if articles.Ok? then Elements(articles.value) else Throws;
      if elems.Throws? {
        CollectThrowsSticky(gs, GroupItems, i + 1);
        return Throws;
      }
      var pushed := PushArticles(Grouped, elems.value, items);
      if pushed.Throws? {
        CollectThrowsSticky(gs, GroupItems, i + 1);
        return Throws;
      }
      items := pushed.value;
    }
    assert gs[..|gs|] == gs;
    ghost var grouped := items;

    var outOfStock := ListElements(data, "out_of_stock_articles");
    if outOfStock.Throws? {
      return Throws;
    }
    var pushed := PushArticles(OutOfStock, outOfStock.value, items);
    if pushed.Throws? {
      return Throws;
    }
    items := pushed.value;
    ghost var outOfStockItems := items[|grouped|..];

    var unavailable := ListElements(data, "unavailable_articles");
    if unavailable.Throws? {
      return Throws;
    }
    pushed := PushArticles(Unavailable, unavailable.value, items);
    if pushed.Throws? {
      return Throws;
    }
    assert pushed.value == grouped + outOfStockItems + pushed.value[|items|..];
    items := pushed.value;

    var uniqueItems := Unique(Keyed(items, ItemKey));
    return Ok(uniqueItems);
  }


  // ---------------------------------------------------------------------
  // What the parse promises
  // ---------------------------------------------------------------------

  /** `stock` and `available` agree and the name carries no outer blanks. */
  predicate WellFormed(item: Item) {
    item.stock == item.available && Trimmed(item.name)
  }

  lemma ArticleItemsWellFormed(section: Section, articles: seq<Value>)
    requires ArticleItems(section, articles).Ok?
    ensures forall item :: item in ArticleItems(section, articles).value ==> WellFormed(item)
  {
    forall item | item in ArticleItems(section, articles).value
      ensures WellFormed(item)
    {
      CollectMember(articles, Push(section), item);
      var i :| 0 <= i < |articles| && Push(section)(articles[i], i).Ok? && item in Push(section)(articles[i], i).value;
      assert Articulo(section, articles[i], i).Ok?;
    }
  }

  lemma PushesWellFormed(data: Value)
    requires Pushes(data).Ok?
    ensures forall item :: item in Pushes(data).value ==> WellFormed(item)
  {
    var groups := ListElements(data, "groups").value;
    forall item | item in GroupedItems(data).value
      ensures WellFormed(item)
    {
      CollectMember(groups, GroupItems, item);
      var i :| 0 <= i < |groups| && GroupItems(groups[i], i).Ok? && item in GroupItems(groups[i], i).value;
      ArticleItemsWellFormed(Grouped, Get(groups[i], "articles").elems);
    }
    ArticleItemsWellFormed(OutOfStock, ListElements(data, "out_of_stock_articles").value);
    ArticleItemsWellFormed(Unavailable, ListElements(data, "unavailable_articles").value);
  }

  /** Every parsed item is well formed and is stored under the string of its
      own id. */
  lemma ParsedItems(data: Value)
    requires Parse(data).Ok?
    ensures Valid(Parse(data).value)
    ensures forall k :: k in Parse(data).value.items ==>
              k == ToStr(Parse(data).value.items[k].id) && WellFormed(Parse(data).value.items[k])
  {
    var items := Pushes(data).value;
    var cart := LastWriteWins(Keyed(items, ItemKey));
    PushesWellFormed(data);
    LastWriteWinsValid(Keyed(items, ItemKey));
    forall k | k in cart.items
      ensures k == ToStr(cart.items[k].id) && WellFormed(cart.items[k])
    {
      KeyedLastWins(items, ItemKey, k);
      var i :| 0 <= i < |items| && ItemKey(items[i]) == k && cart.items[k] == items[i]
               && forall j :: i < j < |items| ==> ItemKey(items[j]) != k;
      assert items[i] in items;
    }
  }

  /** The keys of the cart are exactly the ids of the pushed articles, and
      each holds the last article pushed with that id. */
  lemma ParseKeepsLastPush(data: Value, k: string)
    requires Pushes(data).Ok?
    ensures var items := Pushes(data).value;
            var cart := Parse(data).value;
            && (k in cart.items <==> exists i :: 0 <= i < |items| && ToStr(items[i].id) == k)
            && (k in cart.items ==>
                  exists i :: 0 <= i < |items| && ToStr(items[i].id) == k && cart.items[k] == items[i]
                              && forall j :: i < j < |items| ==> ToStr(items[j].id) != k)
  {
    KeyedLastWins(Pushes(data).value, ItemKey, k);
  }

  /** An out-of-stock or unavailable article replaces a grouped article with
      the same id, and the unavailable list has the last word. */
  lemma LaterListsOverride(data: Value, k: string)
    requires Pushes(data).Ok?
    ensures var grouped := GroupedItems(data).value;
            var later := ListItems(data, "out_of_stock_articles", OutOfStock).value
                         + ListItems(data, "unavailable_articles", Unavailable).value;
            k in LastWriteWins(Keyed(later, ItemKey)).items ==>
              k in Parse(data).value.items && Parse(data).value.items[k] == LastWriteWins(Keyed(later, ItemKey)).items[k]
  {
    var grouped := GroupedItems(data).value;
    var outOfStock := ListItems(data, "out_of_stock_articles", OutOfStock).value;
    var unavailable := ListItems(data, "unavailable_articles", Unavailable).value;
    var later := outOfStock + unavailable;
    assert Pushes(data).value == grouped + outOfStock + unavailable;
    ConcatAssoc(grouped, outOfStock, unavailable);
    KeyedAppend(grouped, later, ItemKey);
    LastWriteWinsAppend(Keyed(grouped, ItemKey), Keyed(later, ItemKey), k);
  }

  /** A payload with none of the three lists parses to an empty cart. */
  lemma EmptyPayload(data: Value)
    requires data.Obj?
    requires IsNullish(Get(data, "groups")) && IsNullish(Get(data, "out_of_stock_articles"))
             && IsNullish(Get(data, "unavailable_articles"))
    ensures Parse(data) == Ok(Snapshot([], map[]))
  {
    assert GroupedItems(data) == Ok([]);
    assert ListItems(data, "out_of_stock_articles", OutOfStock) == Ok([]);
    assert ListItems(data, "unavailable_articles", Unavailable) == Ok([]);
    var none: seq<Item> := [];
    assert Pushes(data) == Ok(none + none + none);
    assert none + none + none == none;
    assert Keyed(none, ItemKey) == [];
  }

  /** The three ways of reading the id, for an article with one item id:
      a grouped article is keyed by that id, an out-of-stock one by the
      array, which prints the same, and an unavailable one at position 1 or
      later by "undefined", so such articles overwrite each other. */
  lemma IdQuirks(article: Value, id: Value, index: nat)
    requires article.Obj? && Get(article, "item_ids") == List([id]) && !IsNullish(id)
    ensures IdOf(Grouped, article, index) == Ok(id)
    ensures IdOf(OutOfStock, article, index) == Ok(List([id]))
    ensures ToStr(List([id])) == ToStr(id)
    ensures index == 0 ==> IdOf(Unavailable, article, index) == Ok(id)
    ensures index >= 1 ==> IdOf(Unavailable, article, index) == Ok(Undefined)
                           && ToStr(Undefined) == "undefined"
  {
  }

  // ---------------------------------------------------------------------
  // Notices
  // ---------------------------------------------------------------------

  /** One Telegram message: the changed key, the product link, the first 30
      characters of the name, the old and new value texts and the image. */
  datatype Notice = Notice(key: string, link: string, shortName: string,
                           oldText: string, newText: string, img: Value)

  /** The currency shown after a price, nothing after a stock value. */
  function Badge(key: string, item: Item): string {
    if key == "price" then " " + ToStr(item.badge) else ""
  }

  function NoticeFor(key: string, oldItem: Value, newItem: Item): Notice {
    Notice(key, ShopPrefix + ToStr(newItem.link), Prefix(newItem.name, ShortNameLength),
           ToStr(Get(oldItem, key)) + Badge(key, newItem),
           ToStr(Get(newItem.AsObject(), key)) + " " + Badge(key, newItem),
           newItem.img)
  }

  /** The HTML text of a notice. */
  function Caption(n: Notice): string {
    CaptionHead(n) + (n.link + ("\">" + (n.shortName + CaptionTail(n))))
  }

  function CaptionHead(n: Notice): string {
    "<u><b>ZALANDO CART</b></u>\n" + Utils.Capitalize(Str(n.key)).value + " of <a href=\""
  }

  function CaptionTail(n: Notice): string {
    "...</a> has changed.\n\n- Old " + n.key + ": " + n.oldText
      + "\n- New " + n.key + ": " + n.newText + "\n\n      "
  }

  /** The messages of `checkForChanges`, one per changed key, in order. */
  function NoticesFor(keys: seq<string>, oldItem: Value, newItem: Item): seq<Notice> {
    seq(|keys|, i requires 0 <= i < |keys| => NoticeFor(keys[i], oldItem, newItem))
  }

  lemma NoticesForAppend(keys: seq<string>, key: string, oldItem: Value, newItem: Item)
    ensures NoticesFor(keys + [key], oldItem, newItem) == NoticesFor(keys, oldItem, newItem) + [NoticeFor(key, oldItem, newItem)]
  {
  }

  /** The messages `checkForChanges(oldItem, newItem)` builds; it throws when
      the old item is null or undefined. */
  function ItemNotices(oldItem: Value, newItem: Item): Result<seq<Notice>> {
    var keys :- OwnKeys(oldItem);
    Ok(NoticesFor(ChangedKeys(keys, oldItem, newItem.AsObject()), oldItem, newItem))
  }

  /** What the un-awaited `checkForChanges` call sends: a call that throws
      sends nothing. */
  function Sent(oldItem: Value, newItem: Item): seq<Notice> {
    match ItemNotices(oldItem, newItem)
    case Ok(notices) => notices
    case Throws => []
  }

  function ItemObject(item: Item): Value {
    item.AsObject()
  }

  /** What one `checkUpdates` sends: the notices of the ids present in both
      the new cart and the old snapshot, in the new cart's key order; nothing
      when `Object.keys(oldItems)` throws. */
  function CycleNotices(file: FileState, newItems: Snapshot<Item>): seq<Notice> {
    var oldItems := OldItems(file);
    match OwnKeys(oldItems)
    case Throws => []
    case Ok(oldKeys) => DiffCommon(newItems.keys, oldKeys, oldItems, newItems.items, Sent)
  }

  /** The snapshot file after `checkUpdates`: the new cart, unless reading the
      old keys threw or the write fails. */
  function FileAfter(file: FileState, newItems: Snapshot<Item>, canWrite: bool): FileState {
    if canWrite && OwnKeys(OldItems(file)).Ok? then Json(Persisted(newItems, ItemObject)) else file
  }

  // ---------------------------------------------------------------------
  // What the diff promises
  // ---------------------------------------------------------------------

  /** A notice for a key is sent exactly when the key is one of the old
      item's keys, it is "stock" or "price" and the values differ under
      `!==`; a nullish old item sends nothing. */
  lemma NoticeIff(oldItem: Value, newItem: Item, key: string)
    ensures IsNullish(oldItem) ==> Sent(oldItem, newItem) == []
    ensures !IsNullish(oldItem) ==>
              ((exists n :: n in Sent(oldItem, newItem) && n.key == key) <==>
               key in OwnKeys(oldItem).value && IsRelevantChange(key, oldItem, newItem.AsObject()))
  {
    if !IsNullish(oldItem) {
      var changed := ChangedKeys(OwnKeys(oldItem).value, oldItem, newItem.AsObject());
      ChangedKeysMembership(OwnKeys(oldItem).value, oldItem, newItem.AsObject(), key);
      if key in changed {
        var i :| 0 <= i < |changed| && changed[i] == key;
        assert Sent(oldItem, newItem)[i].key == key;
      }
    }
  }

  /** An item whose keys are distinct sends at most two notices. */
  lemma AtMostTwoNotices(oldItem: Value, newItem: Item)
    requires oldItem.Obj? && DistinctKeys(oldItem.fields)
    ensures |Sent(oldItem, newItem)| <= 2
  {
    AtMostTwoChanges(KeysOf(oldItem.fields), oldItem, newItem.AsObject());
  }

  /** The fields of the stored form of an item, in key order. */
  function StoredFields(a: Item): seq<Field> {
    [Field("id", ToJson(a.id))] + ([Field("name", Str(a.name))] + StoredMiddle(a))
  }

  /** The stored fields from "price" on. */
  function StoredMiddle(a: Item): seq<Field> {
    [Field("price", ToJson(a.price))] + ([Field("badge", ToJson(a.badge))]
      + ([Field("stock", ToJson(a.stock))] + StoredTail(a)))
  }

  lemma StoredForm(a: Item)
    ensures ToJson(a.AsObject()) == Obj(Defined(StoredFields(a)))
    ensures Get(ToJson(a.AsObject()), "price") == ToJson(a.price)
    ensures Get(ToJson(a.AsObject()), "stock") == ToJson(a.stock)
  {
    StoredObject(a);
    StoredReads(a);
  }

  lemma StoredObject(a: Item)
    ensures ToJson(a.AsObject()) == Obj(Defined(StoredFields(a)))
  {
    var fs := a.AsObject().fields;
    StoredFieldsList(a);
    assert ToJson(Str(a.name)) == Str(a.name);
    assert seq(|fs|, i requires 0 <= i < |fs| => Field(fs[i].key, ToJson(fs[i].val))) == StoredList(a);
  }

  function StoredList(a: Item): seq<Field> {
    [Field("id", ToJson(a.id)), Field("name", Str(a.name)), Field("price", ToJson(a.price)),
     Field("badge", ToJson(a.badge)), Field("stock", ToJson(a.stock)), Field("img", ToJson(a.img)),
     Field("available", ToJson(a.available)), Field("link", ToJson(a.link))]
  }

  lemma StoredFieldsList(a: Item)
    ensures StoredFields(a) == StoredList(a)
  {
  }


  lemma StoredReads(a: Item)
    ensures Get(ToJson(a.AsObject()), "price") == ToJson(a.price)
    ensures Get(ToJson(a.AsObject()), "stock") == ToJson(a.stock)
  {
    var fs := a.AsObject().fields;
    assert DistinctKeys(fs);
    GetToJson(fs, "price");
    GetToJson(fs, "stock");
    LookupFinds(fs, 2);
    LookupFinds(fs, 4);
  }

  /** The stored fields after "stock": none of them is ever reported. */
  function StoredTail(a: Item): seq<Field> {
    [Field("img", ToJson(a.img)), Field("available", ToJson(a.available)), Field("link", ToJson(a.link))]
  }

  lemma StoredTailSilent(a: Item, stored: Value, current: Value)
    ensures ChangedKeys(KeysOf(Defined(StoredTail(a))), stored, current) == []
  {
    var t := StoredTail(a);
    assert t == [t[0]] + ([t[1]] + ([t[2]] + []));
    ChangedKeysSkip(t[2], [], stored, current);
    ChangedKeysSkip(t[1], [t[2]] + [], stored, current);
    ChangedKeysSkip(t[0], [t[1]] + ([t[2]] + []), stored, current);
  }

  /** The stored fields from "price" on report at most "price", then "stock". */
  lemma StoredMiddleChanged(a: Item, stored: Value, current: Value)
    ensures ChangedKeys(KeysOf(Defined(StoredMiddle(a))), stored, current) ==
              (if ToJson(a.price) != Undefined && IsRelevantChange("price", stored, current) then ["price"] else [])
              + (if ToJson(a.stock) != Undefined && IsRelevantChange("stock", stored, current) then ["stock"] else [])
  {
    StoredTailSilent(a, stored, current);
    PriceThenStock(Field("price", ToJson(a.price)), Field("badge", ToJson(a.badge)), Field("stock", ToJson(a.stock)),
                   StoredTail(a), stored, current);
  }

  /** Peeling the eight stored fields one by one: only "price" and "stock"
      can be reported, in that order, and only when they were stored. */
  lemma StoredKeysChanged(a: Item, stored: Value, current: Value)
    ensures ChangedKeys(KeysOf(Defined(StoredFields(a))), stored, current) ==
              (if ToJson(a.price) != Undefined && IsRelevantChange("price", stored, current) then ["price"] else [])
              + (if ToJson(a.stock) != Undefined && IsRelevantChange("stock", stored, current) then ["stock"] else [])
  {
    StoredMiddleChanged(a, stored, current);
    ChangedKeysSkip(Field("name", Str(a.name)), StoredMiddle(a), stored, current);
    ChangedKeysSkip(Field("id", ToJson(a.id)), [Field("name", Str(a.name))] + StoredMiddle(a), stored, current);
  }

  /** Comparing the stored form of item `a` with item `b`: a price notice,
      then a stock notice, each sent when the field was stored (not
      undefined) and differs under `!==`. */
  lemma StoredItemNotices(a: Item, b: Item)
    ensures Sent(ToJson(a.AsObject()), b) ==
              NoticesFor((if a.price != Undefined && Differs(ToJson(a.price), b.price) then ["price"] else [])
                         + (if a.stock != Undefined && Differs(ToJson(a.stock), b.stock) then ["stock"] else []),
                         ToJson(a.AsObject()), b)
  {
    var stored := ToJson(a.AsObject());
    var current := b.AsObject();
    StoredForm(a);
    ItemReads(b);
    StoredKeysChanged(a, stored, current);
    ToJsonUndefined(a.price);
    ToJsonUndefined(a.stock);
    assert OwnKeys(stored) == Ok(KeysOf(Defined(StoredFields(a))));
    assert IsRelevantChange("price", stored, current) == Differs(ToJson(a.price), b.price);
    assert IsRelevantChange("stock", stored, current) == Differs(ToJson(a.stock), b.stock);
  }

  /** Reading "price" and "stock" off an item object. */
  lemma ItemReads(b: Item)
    ensures Get(b.AsObject(), "price") == b.price && Get(b.AsObject(), "stock") == b.stock
  {
    var fs := b.AsObject().fields;
    assert DistinctKeys(fs);
    LookupFinds(fs, 2);
    LookupFinds(fs, 4);
  }

  /** Comparing an item with its own stored form sends nothing when its
      price and stock are primitive values. */
  lemma UnchangedItemSilent(a: Item)
    requires !IsObject(a.price) && !IsObject(a.stock)
    ensures Sent(ToJson(a.AsObject()), a) == []
  {
    StoredItemNotices(a, a);
  }

  /** When the snapshot holds this very cart and every price and stock is
      primitive, a cycle sends nothing. */
  lemma UnchangedCartSilent(cart: Snapshot<Item>)
    requires Valid(cart)
    requires forall k :: k in cart.items ==> !IsObject(cart.items[k].price) && !IsObject(cart.items[k].stock)
    ensures CycleNotices(Json(Persisted(cart, ItemObject)), cart) == []
  {
    var stored := Persisted(cart, ItemObject);
    var oldKeys := OwnKeys(stored).value;
    forall k | k in cart.keys && k in oldKeys && k in cart.items
      ensures Sent(Get(stored, k), cart.items[k]) == []
    {
      PersistedItem(cart, ItemObject, k);
      UnchangedItemSilent(cart.items[k]);
    }
    DiffCommonSilent(cart.keys, oldKeys, stored, cart.items, Sent);
  }

  /** The first run (an empty or unreadable snapshot) sends nothing. */
  lemma FirstRunSilent(file: FileState, newItems: Snapshot<Item>)
    requires file.Unreadable? || (file.Json? && OwnKeys(file.content) == Ok([]))
    ensures CycleNotices(file, newItems) == []
  {
    DiffCommonDisjoint(newItems.keys, [], OldItems(file), newItems.items, Sent);
  }

  /** Every notice of a cycle belongs to an id present in both the new cart
      and the old snapshot. */
  lemma OnlyCommonIds(file: FileState, newItems: Snapshot<Item>)
    ensures forall n :: n in CycleNotices(file, newItems) ==>
              exists k :: k in newItems.keys && k in OwnKeys(OldItems(file)).value && k in newItems.items
                          && n in Sent(Get(OldItems(file), k), newItems.items[k])
  {
    if OwnKeys(OldItems(file)).Ok? {
      DiffCommonSource(newItems.keys, OwnKeys(OldItems(file)).value, OldItems(file), newItems.items, Sent);
    }
  }

  /** The caption shows the product link and the short name. */
  lemma CaptionShows(n: Notice)
    ensures Includes(Caption(n), n.link) && Includes(Caption(n), n.shortName)
  {
    var a, b, tail := CaptionHead(n), "\">", CaptionTail(n);
    IncludesSplice(a, n.link, b + (n.shortName + tail));
    ConcatAssoc(a, n.link, b + (n.shortName + tail));
    ConcatAssoc(a + n.link, b, n.shortName + tail);
    var front := a + n.link + b;
    IncludesSplice(front, n.shortName, tail);
    ConcatAssoc(front, n.shortName, tail);
  }

  /** Every notice sent for an item is about "stock" or "price", links to the
      shop page of the new item, shows the first 30 characters of its name
      (all of a shorter name) and carries its image. */
  lemma NoticeContent(oldItem: Value, newItem: Item)
    ensures forall n :: n in Sent(oldItem, newItem) ==>
              && n.key in RelevantKeys
              && n.link == ShopPrefix + ToStr(newItem.link)
              && n.shortName == Prefix(newItem.name, ShortNameLength)
              && n.img == newItem.img
              && Includes(Caption(n), n.link) && Includes(Caption(n), n.shortName)
  {
    forall n | n in Sent(oldItem, newItem)
      ensures n.key in RelevantKeys && n.link == ShopPrefix + ToStr(newItem.link)
      ensures n.shortName == Prefix(newItem.name, ShortNameLength) && n.img == newItem.img
      ensures Includes(Caption(n), n.link) && Includes(Caption(n), n.shortName)
    {
      var keys := OwnKeys(oldItem).value;
      var changed := ChangedKeys(keys, oldItem, newItem.AsObject());
      var notices := NoticesFor(changed, oldItem, newItem);
      assert Sent(oldItem, newItem) == notices;
      var i :| 0 <= i < |notices| && notices[i] == n;
      assert n == NoticeFor(changed[i], oldItem, newItem);
      ChangedKeysMembership(keys, oldItem, newItem.AsObject(), changed[i]);
      CaptionShows(n);
    }
  }

  // ---------------------------------------------------------------------
  // Request gating and the reply
  // ---------------------------------------------------------------------

  /** `headers["x-xsrf-token"]` is truthy. */
  predicate HasToken(headers: map<string, string>) {
    TokenHeader in headers && headers[TokenHeader] != ""
  }

  /** The request listener replays a request exactly when its URL contains
      the cart endpoint and it carries the token header. */
  function Intercepts(url: string, headers: map<string, string>): (r: bool)
    ensures r <==> (exists i :: OccursAt(url, CartEndpoint, i)) && HasToken(headers)
  {
    IncludesIff(url, CartEndpoint);
    Includes(url, CartEndpoint) && HasToken(headers)
  }

  /** How a replayed request ends before the parse. */
  datatype Verdict = RateLimited | NotAnObject | RequestFailed | Proceed(data: Value)

  /** The guards of `replicateRequestWithAxios`: a rejected call ends in the
      catch block, a 429 status waits 40 seconds and stops, a body that is
      null or not an object stops; anything else is parsed. */
  function Classify(reply: Reply): (v: Verdict)
    ensures v.Proceed? <==> reply.Resolved? && reply.status != 429 && IsObject(reply.body)
    ensures v.Proceed? ==> v.data == reply.body
    ensures v == RateLimited <==> reply.Resolved? && reply.status == 429
    ensures v == RequestFailed <==> reply.Rejected?
  {
    match reply
    case Rejected(_) => RequestFailed
    case Resolved(status, body) =>
      if status == 429 then RateLimited
      else if !IsObject(body) then NotAnObject
      else Proceed(body)
  }

  /** With axios's default status check a 429 reply rejects, so the
      rate-limit branch is never taken. */
  lemma RateLimitUnreachable(reply: Reply)
    requires AxiosDefault(reply)
    ensures Classify(reply) != RateLimited
  {
  }

  /** How one `replicateRequestWithAxios` call ends. */
  datatype Outcome = NoToken | Declined(verdict: Verdict) | ParseFailed | Checked

  // ---------------------------------------------------------------------
  // The watcher's state: the snapshot file and the Telegram outbox
  // ---------------------------------------------------------------------

  class Watcher {
    var file: FileState
    var outbox: seq<Notice>

    constructor(file0: FileState)
      ensures file == file0 && outbox == []
    {
      file := file0;
      outbox := [];
    }

    /** `checkForChanges(oldItem, newItem)`: build the messages key by key,
        then send them in order. */
    method CheckForChanges(oldItem: Value, newItem: Item)
      modifies this`outbox
      ensures outbox == old(outbox) + Sent(oldItem, newItem)
    {
      var oldKeys := OwnKeys(oldItem);
      if oldKeys.Throws? {
        return;
      }
      var messages := Messages(oldKeys.value, oldItem, newItem);
      Send(messages);
    }

    /** The first loop of `checkForChanges`: one message per relevant
        change, in the order of the old item's keys. */
    method Messages(keys: seq<string>, oldItem: Value, newItem: Item) returns (messages: seq<Notice>)
      ensures messages == NoticesFor(ChangedKeys(keys, oldItem, newItem.AsObject()), oldItem, newItem)
    {
      var newObject := newItem.AsObject();
      messages := [];
      for i := 0 to |keys|
        invariant messages == NoticesFor(ChangedKeys(keys[..i], oldItem, newObject), oldItem, newItem)
      {
        ChangedKeysStep(keys, oldItem, newObject, i);
        var key := keys[i];
        if IsRelevantChange(key, oldItem, newObject) {
          NoticesForAppend(ChangedKeys(keys[..i], oldItem, newObject), key, oldItem, newItem);
          messages := messages + [NoticeFor(key, oldItem, newItem)];
        } else {
          assert ChangedKeys(keys[..i], oldItem, newObject) + [] == ChangedKeys(keys[..i], oldItem, newObject);
        }
      }
      assert keys[..|keys|] == keys;
    }

    /** The second loop of `checkForChanges`: one Telegram call per
        message, in order. */
    method Send(messages: seq<Notice>)
      modifies this`outbox
      ensures outbox == old(outbox) + messages
    {
      assert messages[..0] == [];
      for i := 0 to |messages|
        invariant outbox == old(outbox) + messages[..i]
      {
        assert messages[..i + 1] == messages[..i] + [messages[i]];
        outbox := outbox + [messages[i]];
      }
      assert messages[..|messages|] == messages;
    }

    /** `checkUpdates(newItems)`: read the snapshot (saving the cart at once
        when the snapshot is empty), check every id present in both, then
        overwrite the snapshot. */
    method CheckUpdates(newItems: Snapshot<Item>, canWrite: bool)
      requires Valid(newItems)
      modifies this`file, this`outbox
      ensures outbox == old(outbox) + CycleNotices(old(file), newItems)
      ensures file == FileAfter(old(file), newItems, canWrite)
    {
      ghost var file0 := file;
      var oldItems := Obj([]);
      if file.Json? {
        oldItems := file.content;
        var keys := OwnKeys(oldItems);
        if keys.Ok? && |keys.value| == 0 && canWrite {
          file := Json(Persisted(newItems, ItemObject));
        }
      }
      var oldKeys := OwnKeys(oldItems);
      if oldKeys.Throws? {
        return;
      }
      assert oldItems == OldItems(file0);
      CheckCommon(newItems.keys, oldKeys.value, oldItems, newItems.items);
      if canWrite {
        file := Json(Persisted(newItems, ItemObject));
      }
    }

    /** The loop of `checkUpdates`: `checkForChanges` for every id of the
        new cart that the old snapshot also holds, in the cart's order. */
    method CheckCommon(keys: seq<string>, oldKeys: seq<string>, oldItems: Value, items: map<string, Item>)
      requires forall k :: k in keys ==> k in items
      modifies this`outbox
      ensures outbox == old(outbox) + DiffCommon(keys, oldKeys, oldItems, items, Sent)
    {
      assert keys[..0] == [];
      for i := 0 to |keys|
        invariant outbox == old(outbox) + DiffCommon(keys[..i], oldKeys, oldItems, items, Sent)
      {
        ghost var prev := DiffCommon(keys[..i], oldKeys, oldItems, items, Sent);
        DiffCommonStep(keys, oldKeys, oldItems, items, Sent, i);
        ghost var sent := if keys[i] in oldKeys && keys[i] in items then Sent(Get(oldItems, keys[i]), items[keys[i]]) else [];
        CheckCommonKey(keys[i], oldKeys, oldItems, items);
        ConcatAssoc(old(outbox), prev, sent);
      }
      assert keys[..|keys|] == keys;
    }

    /** One turn of that loop. */
    method CheckCommonKey(key: string, oldKeys: seq<string>, oldItems: Value, items: map<string, Item>)
      requires key in items
      modifies this`outbox
      ensures outbox == old(outbox) + (if key in oldKeys && key in items then Sent(Get(oldItems, key), items[key]) else [])
    {
      if key in oldKeys {
        CheckForChanges(Get(oldItems, key), items[key]);
      } else {
        assert outbox == old(outbox) + [];
      }
    }

    /** `replicateRequestWithAxios(url, headers)` once the reply is known. */
    method Replicate(headers: map<string, string>, reply: Reply, canWrite: bool) returns (outcome: Outcome)
      modifies this
      ensures !HasToken(headers) ==> outcome == NoToken
      ensures HasToken(headers) && !Classify(reply).Proceed? ==> outcome == Declined(Classify(reply))
      ensures HasToken(headers) && Classify(reply).Proceed? ==>
                outcome == (if Parse(reply.body).Ok? then Checked else ParseFailed)
      ensures outcome == Checked ==>
                && outbox == old(outbox) + CycleNotices(old(file), Parse(reply.body).value)
                && file == FileAfter(old(file), Parse(reply.body).value, canWrite)
      ensures outcome != Checked ==> outbox == old(outbox) && file == old(file)
    {
      if !HasToken(headers) {
        return NoToken;
      }
      var verdict := Classify(reply);
      if !verdict.Proceed? {
        return Declined(verdict);
      }
      var parsed := ParseData(verdict.data);
      if parsed.Throws? {
        return ParseFailed;
      }
      ParsedItems(verdict.data);
      CheckUpdates(parsed.value, canWrite);
      return Checked;
    }
  }
}
