/**
 * The Zooplus cart watcher (zooplus/zooplus.js): the one-shot latch that
 * lets a single cart request through at a time, the guards on the replayed
 * reply, the parse of `cart.articles`, and the comparison with the snapshot
 * file, which is overwritten in a `finally` block.
 */
module Zooplus {
  import opened Js
  import opened Snapshots
  import opened Http
  import Utils

  /** The URL fragment of the cart state request. */
  const StateEndpoint: string := "/checkout/app/api/state/v1/get"
  /** Prefix of every product link. */
  const ShopOrigin: string := "https://www.zooplus.es"
  /** The number of title characters shown in a notice. */
  const ShortTitleLength: nat := 30
  /** The message of the SyntaxError that JSON.parse throws on an empty file. */
  const EndOfInput: string := "Unexpected end of JSON input"

  // ---------------------------------------------------------------------
  // Items and the parse of the cart payload
  // ---------------------------------------------------------------------

  /** The object that `products.map` builds for one article. */
  datatype Item = Item(id: Value, title: Value, stock: Value, price: Value, formattedPrice: Value,
                       img: Value, link: string)
  {
    /** The item as a JS object, its keys in literal order. */
    function AsObject(): Value {
      Obj([Field("id", id), Field("title", title), Field("stock", stock), Field("price", price),
           Field("formattedPrice", formattedPrice), Field("img", img), Field("link", Str(link))])
    }
  }

  function ItemObject(item: Item): Value {
    item.AsObject()
  }

  /** The `map` callback: it throws only on a null or undefined article. */
  function ParseArticle(article: Value): (r: Result<Item>)
    ensures r.Ok? <==> !IsNullish(article)
    ensures r.Ok? ==>
              && r.value.id == Get(article, "shop_id")
              && r.value.title == Get(article, "name")
              && r.value.stock == Get(article, "maxQuantity")
              && r.value.price == Get(article, "price")
              && r.value.formattedPrice == Get(article, "formattedPrice")
              && r.value.img == Get(article, "pictureUrl")
              && r.value.link == ShopOrigin + ToStr(Get(article, "productLink"))
  {
    if IsNullish(article) then Throws
    else
      Ok(Item(Get(article, "shop_id"), Get(article, "name"), Get(article, "maxQuantity"), Get(article, "price"),
              Get(article, "formattedPrice"), Get(article, "pictureUrl"),
              ShopOrigin + ToStr(Get(article, "productLink"))))
  }

  /** `products.map(...)`: it throws unless `products` is an array of
      articles that are neither null nor undefined. */
  function ParseArticles(products: Value): (r: Result<seq<Item>>)
    ensures r.Ok? <==> products.List? && forall i :: 0 <= i < |products.elems| ==> !IsNullish(products.elems[i])
    ensures r.Ok? ==> |r.value| == |products.elems|
                      && forall i :: 0 <= i < |r.value| ==> Ok(r.value[i]) == ParseArticle(products.elems[i])
  {
    if !products.List? then Throws
    else if exists i :: 0 <= i < |products.elems| && IsNullish(products.elems[i]) then Throws
    else Ok(seq(|products.elems|, i requires 0 <= i < |products.elems| => ParseArticle(products.elems[i]).value))
  }

  /** The property key of a parsed item: `String(item.id)`. */
  function ItemKey(item: Item): string {
    ToStr(item.id)
  }

  /** The mapped articles of `data.cart.articles`. */
  function Articles(data: Value): Result<seq<Item>> {
    var cart :- Member(data, "cart");
    var products :- Member(cart, "articles");
    ParseArticles(products)
  }

  /** `parseData(data)`: the mapped articles, deduplicated by id, last
      write wins. */
  function Parse(data: Value): Result<Snapshot<Item>> {
    var items :- Articles(data);
    Ok(LastWriteWins(Keyed(items, ItemKey)))
  }

  /** `parseData(data)`: the `map`, then the fill loop. */
  method ParseData(data: Value) returns (r: Result<Snapshot<Item>>)
    ensures r == Parse(data)
  {
    var cart := Member(data, "cart");
    if cart.Throws? {
      return Throws;
    }
    var products := Member(cart.value, "articles");
    if products.Throws? {
      return Throws;
    }
    var parsed := ParseArticles(products.value);
    if parsed.Throws? {
      return Throws;
    }
    var uniqueItems := Unique(Keyed(parsed.value, ItemKey));
    return Ok(uniqueItems);
  }

  /** Every parsed item is stored under the string of its shop id and links
      into the shop. */
  lemma ParsedItems(data: Value)
    requires Parse(data).Ok?
    ensures Valid(Parse(data).value)
    ensures forall k :: k in Parse(data).value.items ==>
              k == ToStr(Parse(data).value.items[k].id) && ShopOrigin <= Parse(data).value.items[k].link
  {
    var items := Articles(data).value;
    var cart := LastWriteWins(Keyed(items, ItemKey));
    LastWriteWinsValid(Keyed(items, ItemKey));
    forall k | k in cart.items
      ensures k == ToStr(cart.items[k].id) && ShopOrigin <= cart.items[k].link
    {
      KeyedLastWins(items, ItemKey, k);
      var i :| 0 <= i < |items| && ItemKey(items[i]) == k && cart.items[k] == items[i]
               && forall j :: i < j < |items| ==> ItemKey(items[j]) != k;
      assert Ok(items[i]) == ParseArticle(Get(Get(data, "cart"), "articles").elems[i]);
    }
  }

  /** The keys of the cart are exactly the shop ids of the articles, and each
      holds the item of the last article with that id. */
  lemma ParseKeepsLastArticle(data: Value, k: string)
    requires Articles(data).Ok?
    ensures var items := Articles(data).value;
            var cart := Parse(data).value;
            && (k in cart.items <==> exists i :: 0 <= i < |items| && ToStr(items[i].id) == k)
            && (k in cart.items ==>
                  exists i :: 0 <= i < |items| && ToStr(items[i].id) == k && cart.items[k] == items[i]
                              && forall j :: i < j < |items| ==> ToStr(items[j].id) != k)
  {
    KeyedLastWins(Articles(data).value, ItemKey, k);
  }

  // ---------------------------------------------------------------------
  // Notices
  // ---------------------------------------------------------------------

  /** One Telegram message: the changed key, the product link, the first 30
      characters of the title, the old and new value texts and the image. */
  datatype Notice = Notice(key: string, link: string, shortTitle: string,
                           oldText: string, newText: string, img: Value)

  /** The value shown for a key: `formattedPrice` for "price", the raw value
      otherwise, after one space. */
  function Shown(key: string, item: Value): string {
    if key == "price" then " " + ToStr(Get(item, "formattedPrice")) else " " + ToStr(Get(item, key))
  }

  function NoticeFor(key: string, oldItem: Value, newItem: Item, title: string): Notice {
    Notice(key, newItem.link, Prefix(title, ShortTitleLength), Shown(key, oldItem), Shown(key, newItem.AsObject()),
           newItem.img)
  }

  /** The HTML text of a notice. */
  function Caption(n: Notice): string {
    "<u><b>ZOOPLUS CART</b></u>\n" + Utils.Capitalize(Str(n.key)).value + " of <a href=\"" + n.link + "\">"
      + n.shortTitle + "...</a> has changed.\n\n- Old " + n.key + ":" + n.oldText
      + "\n- New " + n.key + ":" + n.newText + "\n"
  }

  /** The messages of `checkForChanges`, one per changed key, in order. */
  function NoticesFor(keys: seq<string>, oldItem: Value, newItem: Item, title: string): seq<Notice> {
    seq(|keys|, i requires 0 <= i < |keys| => NoticeFor(keys[i], oldItem, newItem, title))
  }

  lemma NoticesForAppend(keys: seq<string>, key: string, oldItem: Value, newItem: Item, title: string)
    ensures NoticesFor(keys + [key], oldItem, newItem, title)
            == NoticesFor(keys, oldItem, newItem, title) + [NoticeFor(key, oldItem, newItem, title)]
  {
  }

  /** The messages `checkForChanges(oldItem, newItem)` builds. It throws when
      the old item is null or undefined, or when a message is due and the
      title has no `substring` because it is not a string. */
  function ItemNotices(oldItem: Value, newItem: Item): Result<seq<Notice>> {
    var keys :- OwnKeys(oldItem);
    KeyNotices(keys, oldItem, newItem)
  }

  /** The messages built while walking `keys`: the first relevant change
      throws when the new item has no string title. */
  function KeyNotices(keys: seq<string>, oldItem: Value, newItem: Item): Result<seq<Notice>> {
    var changed := ChangedKeys(keys, oldItem, newItem.AsObject());
    if changed == [] then Ok([])
    else if !newItem.title.Str? then Throws
    else Ok(NoticesFor(changed, oldItem, newItem, newItem.title.s))
  }

  /** What the un-awaited `checkForChanges` call sends: a call that throws
      sends nothing, since every message is built before the first is sent. */
  function Sent(oldItem: Value, newItem: Item): seq<Notice> {
    match ItemNotices(oldItem, newItem)
    case Ok(notices) => notices
    case Throws => []
  }

  /** What one `checkUpdates` sends. */
  function CycleNotices(file: FileState, newItems: Snapshot<Item>): seq<Notice> {
    var oldItems := OldItems(file);
    match OwnKeys(oldItems)
    case Throws => []
    case Ok(oldKeys) => DiffCommon(newItems.keys, oldKeys, oldItems, newItems.items, Sent)
  }

  /** A notice for a key is sent exactly when the key is one of the old
      item's keys, it is "stock" or "price" and the values differ under
      `!==`, provided the title is a string; price notices show the
      formatted prices, stock notices the raw values. */
  lemma NoticeIff(oldItem: Value, newItem: Item, key: string)
    requires newItem.title.Str?
    ensures IsNullish(oldItem) ==> Sent(oldItem, newItem) == []
    ensures !IsNullish(oldItem) ==>
              ((exists n :: n in Sent(oldItem, newItem) && n.key == key) <==>
               key in OwnKeys(oldItem).value && IsRelevantChange(key, oldItem, newItem.AsObject()))
    ensures forall n :: n in Sent(oldItem, newItem) && n.key == "price" ==>
              n.oldText == " " + ToStr(Get(oldItem, "formattedPrice")) && n.newText == " " + ToStr(newItem.formattedPrice)
    ensures forall n :: n in Sent(oldItem, newItem) && n.key == "stock" ==>
              n.oldText == " " + ToStr(Get(oldItem, "stock")) && n.newText == " " + ToStr(newItem.stock)
  {
    if !IsNullish(oldItem) {
      NoticeKeyIff(oldItem, newItem, key);
    }
    NoticeTexts(oldItem, newItem);
  }

  lemma NoticeKeyIff(oldItem: Value, newItem: Item, key: string)
    requires newItem.title.Str? && !IsNullish(oldItem)
    ensures (exists n :: n in Sent(oldItem, newItem) && n.key == key) <==>
              key in OwnKeys(oldItem).value && IsRelevantChange(key, oldItem, newItem.AsObject())
  {
    var changed := ChangedKeys(OwnKeys(oldItem).value, oldItem, newItem.AsObject());
    ChangedKeysMembership(OwnKeys(oldItem).value, oldItem, newItem.AsObject(), key);
    if key in changed {
      var i :| 0 <= i < |changed| && changed[i] == key;
      assert Sent(oldItem, newItem)[i].key == key;
    }
  }

  lemma NoticeTexts(oldItem: Value, newItem: Item)
    requires newItem.title.Str?
    ensures forall n :: n in Sent(oldItem, newItem) && n.key == "price" ==>
              n.oldText == " " + ToStr(Get(oldItem, "formattedPrice")) && n.newText == " " + ToStr(newItem.formattedPrice)
    ensures forall n :: n in Sent(oldItem, newItem) && n.key == "stock" ==>
              n.oldText == " " + ToStr(Get(oldItem, "stock")) && n.newText == " " + ToStr(newItem.stock)
  {
    ItemReads(newItem);
  }


  /** A title that is not a string silences every item that has a change. */
  lemma TitleNotStringSilent(oldItem: Value, newItem: Item)
    requires !newItem.title.Str?
    ensures Sent(oldItem, newItem) == []
  {
  }

  /** Reading the fields the notices use off an item object. */
  lemma ItemReads(b: Item)
    ensures Get(b.AsObject(), "stock") == b.stock && Get(b.AsObject(), "price") == b.price
    ensures Get(b.AsObject(), "formattedPrice") == b.formattedPrice
  {
    var fs := b.AsObject().fields;
    assert DistinctKeys(fs);
    LookupFinds(fs, 2);
    LookupFinds(fs, 3);
    LookupFinds(fs, 4);
  }

  /** An item whose keys are distinct sends at most two notices. */
  lemma AtMostTwoNotices(oldItem: Value, newItem: Item)
    requires oldItem.Obj? && DistinctKeys(oldItem.fields)
    ensures |Sent(oldItem, newItem)| <= 2
  {
    AtMostTwoChanges(KeysOf(oldItem.fields), oldItem, newItem.AsObject());
  }

  /** Comparing an item with its own stored form sends nothing when its
      stock and price are primitive values. */
  lemma UnchangedItemSilent(a: Item)
    requires !IsObject(a.stock) && !IsObject(a.price)
    ensures Sent(ToJson(a.AsObject()), a) == []
  {
    var fs := a.AsObject().fields;
    var stored := ToJson(a.AsObject());
    assert DistinctKeys(fs);
    GetToJson(fs, "stock");
    GetToJson(fs, "price");
    LookupFinds(fs, 2);
    LookupFinds(fs, 3);
    ItemReads(a);
    NothingRelevantChanged(OwnKeys(stored).value, stored, a.AsObject());
  }

  /** When the snapshot holds this very cart and every stock and price is
      primitive, a cycle sends nothing. */
  lemma UnchangedCartSilent(cart: Snapshot<Item>)
    requires Valid(cart)
    requires forall k :: k in cart.items ==> !IsObject(cart.items[k].stock) && !IsObject(cart.items[k].price)
    ensures CycleNotices(Json(Persisted(cart, ItemObject)), cart) == []
  {
    var stored := Persisted(cart, ItemObject);
    var oldKeys := OwnKeys(stored).value;
    forall k | k in cart.keys && k in oldKeys && k in cart.items
      ensures Sent(Get(stored, k), cart.items[k]) == []
    {
      PersistedItem(cart, ItemObject, k);
      UnchangedItemSilent(cart.items[k]);
    }
    DiffCommonSilent(cart.keys, oldKeys, stored, cart.items, Sent);
  }

  /** The first run (an empty or unreadable snapshot) sends nothing. */
  lemma FirstRunSilent(file: FileState, newItems: Snapshot<Item>)
    requires file.Unreadable? || (file.Json? && OwnKeys(file.content) == Ok([]))
    ensures CycleNotices(file, newItems) == []
  {
    DiffCommonDisjoint(newItems.keys, [], OldItems(file), newItems.items, Sent);
  }

  /** Every notice of a cycle belongs to an id present in both the new cart
      and the old snapshot. */
  lemma OnlyCommonIds(file: FileState, newItems: Snapshot<Item>)
    ensures forall n :: n in CycleNotices(file, newItems) ==>
              exists k :: k in newItems.keys && k in OwnKeys(OldItems(file)).value && k in newItems.items
                          && n in Sent(Get(OldItems(file), k), newItems.items[k])
  {
    if OwnKeys(OldItems(file)).Ok? {
      DiffCommonSource(newItems.keys, OwnKeys(OldItems(file)).value, OldItems(file), newItems.items, Sent);
    }
  }

  // ---------------------------------------------------------------------
  // The guarded read of the snapshot and its error log
  // ---------------------------------------------------------------------

  /** An error caught around the read of the snapshot. */
  datatype FileError = SyntaxError(message: string) | OtherError(message: string)

  /** The left operand of an `instanceof` test: an error object, or a
      primitive value. */
  datatype Operand = ErrorObject(error: FileError) | Primitive(v: Value)

  predicate InstanceOfSyntaxError(x: Operand) {
    x.ErrorObject? && x.error.SyntaxError?
  }

  /** The guard as written: `!` binds tighter than `instanceof`, so the left
      operand is the boolean `!error`, which is `false` for an error object,
      and a boolean is never an instance of SyntaxError. */
  predicate LoggedAsWritten(e: FileError) {
    InstanceOfSyntaxError(Primitive(Bool(!Truthy(Obj([]))))) && !Includes(e.message, EndOfInput)
  }

  /** The guard as intended: log every error that is not a SyntaxError and
      does not report an empty file. */
  predicate Logged(e: FileError) {
    !InstanceOfSyntaxError(ErrorObject(e)) && !Includes(e.message, EndOfInput)
  }

  /** As written the guard never logs, not even a failed read of a file that
      does not exist. */
  lemma GuardNeverLogs(e: FileError)
    ensures !LoggedAsWritten(e)
    ensures e.OtherError? && |e.message| < |EndOfInput| ==> Logged(e)
  {
    if e.OtherError? && |e.message| < |EndOfInput| {
      IncludesIff(e.message, EndOfInput);
    }
  }

  /** The intended guard stays silent on a JSON syntax error and on an
      empty file, and logs the remaining errors. */
  lemma LoggedIff(e: FileError)
    ensures Logged(e) <==> e.OtherError? && !exists i :: OccursAt(e.message, EndOfInput, i)
  {
    IncludesIff(e.message, EndOfInput);
  }

  /** Whether the guarded block (read, parse, empty check, first-run write)
      throws: the file cannot be read or parsed, it parses to null, or the
      first-run write fails. */
  predicate ReadBlockThrows(file: FileState, canWrite: bool) {
    match file
    case Unreadable => true
    case Json(v) => OwnKeys(v).Throws? || (OwnKeys(v).value == [] && !canWrite)
  }

  // ---------------------------------------------------------------------
  // Request gating and the reply
  // ---------------------------------------------------------------------

  /** `data?.cart?.articles`. */
  function CartArticles(data: Value): Value {
    if IsNullish(data) || IsNullish(Get(data, "cart")) then Undefined else Get(Get(data, "cart"), "articles")
  }

  /** How a replayed request ends before the parse. */
  datatype Verdict =
    | NotOk          // resolved with a status other than 200
    | NoCart         // the body is null, not an object, or has no cart articles
    | Transient      // rejected with a 503 response
    | RequestFailed  // rejected with another response
    | HandlerThrows  // rejected without a response: `error.response.status` throws
    | Proceed(data: Value)

  /** The guards of `replicateRequestWithAxios`. */
  function Classify(reply: Reply): (v: Verdict)
    ensures v.Proceed? <==> reply.Resolved? && reply.status == 200 && IsObject(reply.body)
                            && Truthy(CartArticles(reply.body))
    ensures v.Proceed? ==> v.data == reply.body
    ensures v == Transient <==> reply == Rejected(Some(503))
    ensures v == HandlerThrows <==> reply == Rejected(None)
  {
    match reply
    case Resolved(status, body) =>
      if status != 200 then NotOk
      else if !IsObject(body) || !Truthy(CartArticles(body)) then NoCart
      else Proceed(body)
    case Rejected(None) => HandlerThrows
    case Rejected(Some(status)) => if status == 503 then Transient else RequestFailed
  }

  /** With axios's default status check a resolved reply that is not 200
      still has a 2xx status. */
  lemma NotOkIsSuccess(reply: Reply)
    requires AxiosDefault(reply) && Classify(reply) == NotOk
    ensures 200 < reply.status < 300
  {
  }

  /** A reply that passes the guards has cart articles, so the parse reads
      `data.cart.articles` without throwing on the way. */
  lemma ProceedReadsArticles(reply: Reply)
    requires Classify(reply).Proceed?
    ensures Member(reply.body, "cart").Ok? && Member(Get(reply.body, "cart"), "articles").Ok?
    ensures Get(Get(reply.body, "cart"), "articles") == CartArticles(reply.body)
  {
  }

  /** How one `replicateRequestWithAxios` call ends. `ParseFailed` and
      `WriteFailed` end in the catch block, where `error.response.status`
      throws again because those errors carry no response; that second
      throw, like `Declined(HandlerThrows)`, rejects a promise nobody awaits,
      which ends the process on Node 15 and later. */
  datatype Outcome = Declined(verdict: Verdict) | ParseFailed | WriteFailed | Checked

  // ---------------------------------------------------------------------
  // The watcher's state: the latch, the snapshot file, the outbox, the log
  // ---------------------------------------------------------------------

  class Watcher {
    /** `targetedIntercepted`: set while a received cart is being processed. */
    var targetedIntercepted: bool
    var file: FileState
    var outbox: seq<Notice>
    var errorLog: seq<FileError>

    constructor(file0: FileState)
      ensures !targetedIntercepted && file == file0 && outbox == [] && errorLog == []
    {
      targetedIntercepted := false;
      file := file0;
      outbox := [];
      errorLog := [];
    }

    /** The request listener replays a request exactly when its URL contains
        the state endpoint and no received cart is being processed. */
    function Intercepts(url: string): (r: bool)
      reads this
      ensures r <==> (exists i :: OccursAt(url, StateEndpoint, i)) && !targetedIntercepted
    {
      IncludesIff(url, StateEndpoint);
      Includes(url, StateEndpoint) && !targetedIntercepted
    }

    /** The first part of `replicateRequestWithAxios`: the guards, and the
        latch set once a cart arrived; on the other paths the `finally`
        block clears it. */
    method Receive(reply: Reply) returns (v: Verdict)
      modifies this`targetedIntercepted
      ensures v == Classify(reply)
      ensures targetedIntercepted <==> v.Proceed?
    {
      v := Classify(reply);
      if v.Proceed? {
        targetedIntercepted := true;
      } else {
        targetedIntercepted := false;
      }
    }

    /** `checkForChanges(oldItem, newItem)`: build the messages key by key,
        then send them in order. */
    method CheckForChanges(oldItem: Value, newItem: Item)
      modifies this`outbox
      ensures outbox == old(outbox) + Sent(oldItem, newItem)
    {
      var oldKeys := OwnKeys(oldItem);
      if oldKeys.Throws? {
        return;
      }
      var messages := Messages(oldKeys.value, oldItem, newItem);
      if messages.Ok? {
        Send(messages.value);
      }
    }

    /** The first loop of `checkForChanges`: one message per relevant
        change, in the order of the old item's keys; reading the title of
        a new item that has none throws. */
    method Messages(keys: seq<string>, oldItem: Value, newItem: Item) returns (r: Result<seq<Notice>>)
      ensures r == KeyNotices(keys, oldItem, newItem)
    {
      var newObject := newItem.AsObject();
      var messages: seq<Notice> := [];
      for i := 0 to |keys|
        invariant !newItem.title.Str? ==> ChangedKeys(keys[..i], oldItem, newObject) == [] && messages == []
        invariant newItem.title.Str? ==>
                    messages == NoticesFor(ChangedKeys(keys[..i], oldItem, newObject), oldItem, newItem, newItem.title.s)
      {
        ChangedKeysStep(keys, oldItem, newObject, i);
        var key := keys[i];
        if IsRelevantChange(key, oldItem, newObject) {
          if !newItem.title.Str? {
            ChangedKeysGrows(keys, oldItem, newObject, i + 1);
            assert key in ChangedKeys(keys[..i + 1], oldItem, newObject);
            return Throws;
          }
          NoticesForAppend(ChangedKeys(keys[..i], oldItem, newObject), key, oldItem, newItem, newItem.title.s);
          messages := messages + [NoticeFor(key, oldItem, newItem, newItem.title.s)];
        } else {
          assert ChangedKeys(keys[..i], oldItem, newObject) + [] == ChangedKeys(keys[..i], oldItem, newObject);
        }
      }
      assert keys[..|keys|] == keys;
      return Ok(messages);
    }

    /** The second loop of `checkForChanges`: one Telegram call per
        message, in order. */
    method Send(messages: seq<Notice>)
      modifies this`outbox
      ensures outbox == old(outbox) + messages
    {
      assert messages[..0] == [];
      for i := 0 to |messages|
        invariant outbox == old(outbox) + messages[..i]
      {
        assert messages[..i + 1] == messages[..i] + [messages[i]];
        outbox := outbox + [messages[i]];
      }
      assert messages[..|messages|] == messages;
    }

    /** The guarded block of `checkUpdates`: read and parse the snapshot,
        and save the cart at once when the snapshot has no keys. When the
        block throws, `oldItems` keeps what it held and the catch block logs
        `readError` if its guard lets it through. `readError` is the error the
        caller says was thrown, and nothing ties its kind to the step that
        threw: a caller may pass a `SyntaxError` where `Object.keys(null)`
        would throw a TypeError. */
    method ReadSnapshot(newItems: Snapshot<Item>, canWrite: bool, readError: FileError) returns (oldItems: Value)
      modifies this`file, this`errorLog
      ensures oldItems == OldItems(old(file))
      ensures file == if old(file).Json? && OwnKeys(oldItems) == Ok([]) && canWrite
                      then Json(Persisted(newItems, ItemObject)) else old(file)
      ensures errorLog == old(errorLog) + if ReadBlockThrows(old(file), canWrite) && Logged(readError) then [readError] else []
    {
      oldItems := Obj([]);
      var threw := true;
      if file.Json? {
        oldItems := file.content;
        var keys := OwnKeys(oldItems);
        if keys.Ok? {
          if |keys.value| == 0 {
            if canWrite {
              file := Json(Persisted(newItems, ItemObject));
              threw := false;
            }
          } else {
            threw := false;
          }
        }
      }
      if threw && Logged(readError) {
        errorLog := errorLog + [readError];
      }
    }

    /** `checkUpdates(newItems)`: the guarded read, a check of every id
        present in both, and the overwrite of the snapshot in `finally`.
        `readError` is the error the guarded read throws, when it throws;
        `written` tells whether the final write succeeded (when it fails,
        the call rejects). */
    method CheckUpdates(newItems: Snapshot<Item>, canWrite: bool, readError: FileError) returns (written: bool)
      requires Valid(newItems)
      modifies this`file, this`outbox, this`errorLog
      ensures written == canWrite
      ensures outbox == old(outbox) + CycleNotices(old(file), newItems)
      ensures file == if canWrite then Json(Persisted(newItems, ItemObject)) else old(file)
      ensures errorLog == old(errorLog) + if ReadBlockThrows(old(file), canWrite) && Logged(readError) then [readError] else []
    {
      ghost var file0 := file;
      var oldItems := ReadSnapshot(newItems, canWrite, readError);
      ghost var notices := CycleNotices(file0, newItems);
      var oldKeys := OwnKeys(oldItems);
      if oldKeys.Ok? {
        CheckCommon(newItems.keys, oldKeys.value, oldItems, newItems.items);
      }
      assert outbox == old(outbox) + notices;
      // finally
      if canWrite {
        file := Json(Persisted(newItems, ItemObject));
      }
      written := canWrite;
    }

    /** The loop of `checkUpdates`: `checkForChanges` for every id of the
        new cart that the old snapshot also holds, in the cart's order. */
    method CheckCommon(keys: seq<string>, oldKeys: seq<string>, oldItems: Value, items: map<string, Item>)
      requires forall k :: k in keys ==> k in items
      modifies this`outbox
      ensures outbox == old(outbox) + DiffCommon(keys, oldKeys, oldItems, items, Sent)
    {
      assert keys[..0] == [];
      for i := 0 to |keys|
        invariant outbox == old(outbox) + DiffCommon(keys[..i], oldKeys, oldItems, items, Sent)
      {
        ghost var prev := DiffCommon(keys[..i], oldKeys, oldItems, items, Sent);
        DiffCommonStep(keys, oldKeys, oldItems, items, Sent, i);
        ghost var sent := if keys[i] in oldKeys && keys[i] in items then Sent(Get(oldItems, keys[i]), items[keys[i]]) else [];
        CheckCommonKey(keys[i], oldKeys, oldItems, items);
        ConcatAssoc(old(outbox), prev, sent);
      }
      assert keys[..|keys|] == keys;
    }

    /** One turn of that loop. */
    method CheckCommonKey(key: string, oldKeys: seq<string>, oldItems: Value, items: map<string, Item>)
      requires key in items
      modifies this`outbox
      ensures outbox == old(outbox) + (if key in oldKeys && key in items then Sent(Get(oldItems, key), items[key]) else [])
    {
      if key in oldKeys {
        CheckForChanges(Get(oldItems, key), items[key]);
      } else {
        assert outbox == old(outbox) + [];
      }
    }

    /** The rest of `replicateRequestWithAxios` once a cart arrived: parse,
        check, and clear the latch in `finally`. */
    method Process(data: Value, canWrite: bool, readError: FileError) returns (outcome: Outcome)
      modifies this
      ensures !targetedIntercepted
      ensures outcome == (if Parse(data).Throws? then ParseFailed else if canWrite then Checked else WriteFailed)
      ensures Parse(data).Throws? ==> file == old(file) && outbox == old(outbox) && errorLog == old(errorLog)
      ensures Parse(data).Ok? ==>
                var newItems := Parse(data).value;
                && outbox == old(outbox) + CycleNotices(old(file), newItems)
                && file == (if canWrite then Json(Persisted(newItems, ItemObject)) else old(file))
                && errorLog == old(errorLog)
                               + if ReadBlockThrows(old(file), canWrite) && Logged(readError) then [readError] else []
    {
      var parsed := ParseData(data);
      if parsed.Throws? {
        outcome := ParseFailed;
      } else {
        ParsedItems(data);
        var written := CheckUpdates(parsed.value, canWrite, readError);
        outcome := if written then Checked else WriteFailed;
      }
      targetedIntercepted := false;
    }

    /** One whole `replicateRequestWithAxios` call: whatever the reply, the
        latch is clear when it ends, and only a reply that passes the guards
        is parsed or touches the snapshot. */
    method Replicate(reply: Reply, canWrite: bool, readError: FileError) returns (outcome: Outcome)
      modifies this
      ensures !targetedIntercepted
      ensures !Classify(reply).Proceed? ==>
                outcome == Declined(Classify(reply))
                && file == old(file) && outbox == old(outbox) && errorLog == old(errorLog)
      ensures Classify(reply).Proceed? ==>
                outcome == (if Parse(reply.body).Throws? then ParseFailed else if canWrite then Checked else WriteFailed)
      ensures Classify(reply).Proceed? && Parse(reply.body).Throws? ==>
                file == old(file) && outbox == old(outbox) && errorLog == old(errorLog)
      ensures Classify(reply).Proceed? && Parse(reply.body).Ok? ==>
                var newItems := Parse(reply.body).value;
                && outbox == old(outbox) + CycleNotices(old(file), newItems)
                && file == (if canWrite then Json(Persisted(newItems, ItemObject)) else old(file))
                && errorLog == old(errorLog)
                               + if ReadBlockThrows(old(file), canWrite) && Logged(readError) then [readError] else []
    {
      var verdict := Receive(reply);
      if !verdict.Proceed? {
        return Declined(verdict);
      }
      outcome := Process(verdict.data, canWrite, readError);
    }
  }

  /** Indexing further into the key list only adds reported keys. */
  lemma {:induction false} ChangedKeysGrows(keys: seq<string>, oldItem: Value, newItem: Value, i: nat)
    requires i <= |keys|
    ensures forall k :: k in ChangedKeys(keys[..i], oldItem, newItem) ==> k in ChangedKeys(keys, oldItem, newItem)
  {
    forall k | k in ChangedKeys(keys[..i], oldItem, newItem)
      ensures k in ChangedKeys(keys, oldItem, newItem)
    {
      ChangedKeysMembership(keys[..i], oldItem, newItem, k);
      ChangedKeysMembership(keys, oldItem, newItem, k);
    }
  }
}
