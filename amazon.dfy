/**
 * The Amazon cart watcher (amazon/amazon.js): the rows scraped from the cart
 * page folded into an asin-keyed object, the comparison of that object with
 * the snapshot file, the price-change notice with its direction word, and the
 * fatal end of the process on any snapshot failure.
 */
module Amazon {
  import opened Js
  import opened Snapshots

  /** Prefix of every product link in a notice. */
  const ProductPrefix: string := "https://www.amazon.es/gp/product/"
  /** The number of title characters shown in a notice. */
  const ShortTitleLength: nat := 30

  // ---------------------------------------------------------------------
  // The scraped rows and the asin-keyed product map
  // ---------------------------------------------------------------------

  /** What the page offers for one cart row (`[data-itemtype="active"]` or
      `[data-itemtype="saved"]`): the text of its `.sc-product-title` element
      and the `src` of its `.sc-product-image` element (None when the element
      is missing), its `data-asin`, `data-outofstock` and `data-price`
      attributes (None when absent), and what `JSON.parse` makes of its
      `data-subtotal` attribute (Throws when that is not JSON). */
  datatype CartRow = CartRow(titleText: Option<string>, asin: Option<string>, outOfStock: Option<string>,
                             price: Option<string>, imageSrc: Option<string>, subtotal: Result<Value>)

  /** The object the `map` callback builds for one row. */
  datatype Product = Product(title: Value, asin: Value, stock: Value, price: Value, img: string, badge: Value)
  {
    /** The product as a JS object, its keys in literal order. */
    function AsObject(): Value {
      Obj([Field("title", title), Field("asin", asin), Field("stock", stock), Field("price", price),
           Field("img", Str(img)), Field("badge", badge)])
    }
  }

  function ProductObject(p: Product): Value {
    p.AsObject()
  }

  /** `getAttribute`: the attribute's text, or null. */
  function Attribute(a: Option<string>): Value {
    match a
    case Some(s) => Str(s)
    case None => Null
  }

  /** The title, asin, stock and price of a scraped product are strings or
      null, as text content and attributes are. */
  predicate Scraped(p: Product) {
    && (p.title.Str? || p.title.Null?)
    && (p.asin.Str? || p.asin.Null?)
    && (p.stock.Str? || p.stock.Null?)
    && (p.price.Str? || p.price.Null?)
  }

  /** The `map` callback: a row without a title or image element throws, and
      so does a `data-subtotal` that is not JSON or whose `subtotal` is null
      or missing. */
  function ProductOf(row: CartRow): (r: Result<Product>)
    ensures r.Ok? <==>
              && row.titleText.Some? && row.imageSrc.Some? && row.subtotal.Ok?
              && !IsNullish(row.subtotal.value) && !IsNullish(Get(row.subtotal.value, "subtotal"))
    ensures r.Ok? ==>
              && Scraped(r.value)
              && r.value.asin == Attribute(row.asin)
              && r.value.stock == Attribute(row.outOfStock)
              && r.value.price == Attribute(row.price)
              && r.value.img == row.imageSrc.value
              && r.value.badge == Get(Get(row.subtotal.value, "subtotal"), "code")
  {
    if row.titleText.None? || row.imageSrc.None? || row.subtotal.Throws? then Throws
    else
      var subtotal :- Member(row.subtotal.value, "subtotal");
      var badge :- Member(subtotal, "code");
      var text := Trim(row.titleText.value);
      Ok(Product(if text == "" then Null else Str(text), Attribute(row.asin), Attribute(row.outOfStock),
                 Attribute(row.price), row.imageSrc.value, badge))
  }

  /** `textContent.trim() || null`: the title is null exactly when the text is
      all whitespace, and otherwise it is the trimmed text, non-empty and with
      no whitespace at either end. */
  lemma ProductTitle(row: CartRow)
    requires ProductOf(row).Ok?
    ensures var title := ProductOf(row).value.title;
      && (title == Null <==> AllSpace(row.titleText.value))
      && (title.Str? ==> title.s == Trim(row.titleText.value) && title.s != "" && Trimmed(title.s))
  {
    TrimSpec(row.titleText.value);
    TrimEmptyIff(row.titleText.value);
  }

  /** `totalItems.map(...)`: every row's product, or Throws when any row's
      callback throws. */
  function Products(rows: seq<CartRow>): (r: Result<seq<Product>>)
    ensures r.Ok? <==> forall i :: 0 <= i < |rows| ==> ProductOf(rows[i]).Ok?
    ensures r.Ok? ==> |r.value| == |rows| && forall i :: 0 <= i < |rows| ==> r.value[i] == ProductOf(rows[i]).value
    decreases |rows|
  {
    if rows == [] then Ok([])
    else
      var n := |rows| - 1;
      var done :- Products(rows[..n]);
      var last :- ProductOf(rows[n]);
      Ok(done + [last])
  }

  /** The property key the `reduce` assigns a product to: its asin. */
  function AsinKey(p: Product): string {
    ToStr(p.asin)
  }

  /** The `page.evaluate` callback: the products of the active rows followed
      by those of the saved rows, reduced into an object by
      `acc[product.asin] = product`. */
  function BasketItems(active: seq<CartRow>, saved: seq<CartRow>): Result<Snapshot<Product>> {
    var products :- Products(active + saved);
    Ok(LastWriteWins(Keyed(products, AsinKey)))
  }

  /** The map of the saved rows alone, or of the active rows alone. */
  function RowMap(rows: seq<CartRow>): Snapshot<Product>
    requires Products(rows).Ok?
  {
    LastWriteWins(Keyed(Products(rows).value, AsinKey))
  }

  /** A saved row overrides an active row with the same asin; an asin that
      no saved row carries keeps its active product. */
  lemma SavedOverridesActive(active: seq<CartRow>, saved: seq<CartRow>, k: string)
    requires BasketItems(active, saved).Ok?
    ensures Products(active).Ok? && Products(saved).Ok?
    ensures var all := BasketItems(active, saved).value;
      && (k in RowMap(saved).items ==> k in all.items && all.items[k] == RowMap(saved).items[k])
      && (k !in RowMap(saved).items ==>
            (k in all.items <==> k in RowMap(active).items)
            && (k in all.items ==> all.items[k] == RowMap(active).items[k]))
  {
    ProductsAppend(active, saved);
    var a := Products(active).value;
    var s := Products(saved).value;
    KeyedAppend(a, s, AsinKey);
    LastWriteWinsAppend(Keyed(a, AsinKey), Keyed(s, AsinKey), k);
  }

  lemma ProductsAppend(a: seq<CartRow>, b: seq<CartRow>)
    requires Products(a + b).Ok?
    ensures Products(a).Ok? && Products(b).Ok?
    ensures Products(a + b).value == Products(a).value + Products(b).value
  {
    var rows := a + b;
    forall i | 0 <= i < |a| ensures ProductOf(a[i]).Ok? {
      assert rows[i] == a[i];
    }
    forall i | 0 <= i < |b| ensures ProductOf(b[i]).Ok? {
      assert rows[|a| + i] == b[i];
    }
    var pa := Products(a).value;
    var pb := Products(b).value;
    forall i | 0 <= i < |rows| ensures Products(rows).value[i] == (pa + pb)[i] {
      if i < |a| {
        assert rows[i] == a[i];
      } else {
        assert rows[i] == b[i - |a|];
      }
    }
  }

  /** The map is keyed by asin: every key holds a product whose asin prints
      as that key, built from some row that no later row with the same asin
      follows. */
  lemma KeyedByAsin(active: seq<CartRow>, saved: seq<CartRow>, k: string)
    requires BasketItems(active, saved).Ok?
    ensures var all := BasketItems(active, saved).value;
      && Valid(all)
      && (k in all.items ==>
            && ToStr(all.items[k].asin) == k
            && exists i :: 0 <= i < |active + saved| && all.items[k] == ProductOf((active + saved)[i]).value
                           && forall j :: i < j < |active + saved| ==> ToStr(ProductOf((active + saved)[j]).value.asin) != k)
  {
    var rows := active + saved;
    LastWriteWinsValid(Keyed(Products(rows).value, AsinKey));
    if k in RowMap(rows).items {
      RowMapValue(rows, k);
    }
  }

  lemma RowMapValue(rows: seq<CartRow>, k: string)
    requires Products(rows).Ok? && k in RowMap(rows).items
    ensures ToStr(RowMap(rows).items[k].asin) == k
    ensures exists i :: 0 <= i < |rows| && RowMap(rows).items[k] == ProductOf(rows[i]).value
                        && forall j :: i < j < |rows| ==> ToStr(ProductOf(rows[j]).value.asin) != k
  {
    var products := Products(rows).value;
    KeyedLastWins(products, AsinKey, k);
    var i :| 0 <= i < |products| && AsinKey(products[i]) == k && RowMap(rows).items[k] == products[i]
             && forall j :: i < j < |products| ==> AsinKey(products[j]) != k;
    forall j | i < j < |rows| ensures ToStr(ProductOf(rows[j]).value.asin) != k {
      assert AsinKey(products[j]) != k;
    }
  }


  // ---------------------------------------------------------------------
  // parseFloat and the direction of a price change
  // ---------------------------------------------------------------------

  /** A JS number as far as comparisons go. */
  datatype Number = NaN | Finite(r: real) | PosInf | NegInf

  /** The number of leading decimal digits. */
  function LeadingDigits(s: string): (n: nat)
    ensures n <= |s| && AllDigits(s[..n]) && (n < |s| ==> !IsDigit(s[n]))
    decreases |s|
  {
    if s != [] && IsDigit(s[0]) then
      var m := LeadingDigits(s[1..]);
      assert s[..m + 1] == [s[0]] + s[1..][..m];
      m + 1
    else 0
  }

  /** `10 ** e`; never zero, so `Scale` and the fraction may divide by it. */
  function Pow10(e: nat): (p: nat)
    ensures p >= 1
  {
    if e == 0 then 1 else 10 * Pow10(e - 1)
  }

  /** `10 ** e` for a possibly negative exponent. */
  function Scale(e: int): real {
    if e >= 0 then Pow10(e) as real else 1.0 / Pow10(-e) as real
  }

  /** The exponent part `e[+-]digits` at the head of `s`, or 0 when there is
      none (an `e` without digits is not part of the numeral). */
  function Exponent(s: string): int {
    if s == [] || (s[0] != 'e' && s[0] != 'E') then 0
    else
      var t := s[1..];
      var signed := t != [] && (t[0] == '+' || t[0] == '-');
      var u := if signed then t[1..] else t;
      var d := LeadingDigits(u);
      if d == 0 then 0
      else if signed && t[0] == '-' then -(DigitsValue(u[..d]) as int)
      else DigitsValue(u[..d])
  }

  /** The value of the longest unsigned decimal numeral at the head of `s`
      (`12`, `12.`, `12.5`, `.5`, each with an optional exponent), or None
      when `s` does not start with one. */
  function UnsignedDecimal(s: string): Option<real> {
    var a := LeadingDigits(s);
    var rest := s[a..];
    var dot := rest != [] && rest[0] == '.';
    var b := if dot then LeadingDigits(rest[1..]) else 0;
    if a == 0 && b == 0 then None
    else
      var whole := DigitsValue(s[..a]) as real;
      var fraction := if b == 0 then 0.0 else DigitsValue(rest[1..][..b]) as real / Pow10(b) as real;
      var after := if dot then rest[1..][b..] else rest;
      Some((whole + fraction) * Scale(Exponent(after)))
  }

  /** `parseFloat(s)`: leading whitespace is skipped, then an optional sign
      and "Infinity" or the longest decimal numeral; anything else is NaN. */
  function ParseFloat(s: string): Number {
    var t := TrimStart(s);
    var negative := t != [] && t[0] == '-';
    var u := if t != [] && (t[0] == '-' || t[0] == '+') then t[1..] else t;
    if |u| >= 8 && u[..8] == "Infinity" then (if negative then NegInf else PosInf)
    else
      match UnsignedDecimal(u)
      case None => NaN
      case Some(m) => Finite(if negative then -m else m)
  }

  lemma {:induction false} LeadingDigitsAll(s: string)
    requires AllDigits(s)
    ensures LeadingDigits(s) == |s|
    decreases |s|
  {
    if s != [] {
      LeadingDigitsAll(s[1..]);
    }
  }

  /** A whole-number price reads back as that number. */
  lemma ParseFloatNumeral(n: nat)
    ensures ParseFloat(NatToString(n)) == Finite(n as real)
  {
    var s := NatToString(n);
    NatToStringShape(n);
    LeadingDigitsAll(s);
    assert s[..|s|] == s;
    assert !IsSpace(s[0]);
    assert TrimStart(s) == s;
    assert s[0] != '-' && s[0] != '+';
    if |s| >= 8 {
      assert s[..8][0] == s[0];
    }
  }

  /** A missing price (undefined) and a null price both read as NaN. */
  lemma MissingPriceIsNaN()
    ensures ParseFloat(ToStr(Undefined)) == NaN
    ensures ParseFloat(ToStr(Null)) == NaN
  {
    ParseFloatWord(ToStr(Undefined));
    ParseFloatWord(ToStr(Null));
  }

  /** A string that starts with a lower-case letter holds no numeral. */
  lemma ParseFloatWord(s: string)
    requires s != [] && 'a' <= s[0] <= 'z'
    ensures ParseFloat(s) == NaN
  {
    assert !IsSpace(s[0]);
    assert TrimStart(s) == s;
    if |s| >= 8 {
      assert s[..8][0] == s[0];
    }
    assert LeadingDigits(s) == 0;
    assert s[0..] == s;
  }

  /** `a > b` on numbers: false whenever either side is NaN. */
  predicate Above(a: Number, b: Number) {
    match a
    case NaN => false
    case NegInf => false
    case PosInf => !b.NaN? && !b.PosInf?
    case Finite(x) => b.NegInf? || (b.Finite? && x > b.r)
  }

  /** `oldPrice > newPrice ? "decreased" : "increased"`. */
  function Direction(oldPrice: Number, newPrice: Number): string {
    if Above(oldPrice, newPrice) then "decreased" else "increased"
  }

  /** The word is "decreased" exactly when the old price is above the new
      one; equal prices and any NaN (an unparsable or missing price) read as
      "increased". */
  lemma DirectionIff(oldPrice: Number, newPrice: Number)
    ensures Direction(oldPrice, newPrice) == "decreased" || Direction(oldPrice, newPrice) == "increased"
    ensures oldPrice.Finite? && newPrice.Finite? ==>
              (Direction(oldPrice, newPrice) == "decreased" <==> oldPrice.r > newPrice.r)
    ensures oldPrice == newPrice ==> Direction(oldPrice, newPrice) == "increased"
    ensures oldPrice.NaN? || newPrice.NaN? ==> Direction(oldPrice, newPrice) == "increased"
    ensures Direction(oldPrice, newPrice) == "decreased" ==> Direction(newPrice, oldPrice) == "increased"
  {
    assert "decreased" != "increased";
  }

  // ---------------------------------------------------------------------
  // The price-change notice
  // ---------------------------------------------------------------------

  /** `oldItem.title?.substring(0, 30)` as a template literal prints it: a
      null or undefined title prints as "undefined"; any other non-string has
      no `substring`, so the call throws. */
  function ShortTitle(title: Value): (r: Result<string>)
    ensures r.Ok? <==> IsNullish(title) || title.Str?
    ensures IsNullish(title) ==> r == Ok("undefined")
    ensures title.Str? ==>
              && r.value <= title.s
              && |r.value| == if |title.s| <= ShortTitleLength then |title.s| else ShortTitleLength
  {
    if IsNullish(title) then Ok("undefined")
    else if title.Str? then Ok(Prefix(title.s, ShortTitleLength))
    else Throws
  }

  /** What `notifyPriceChange` hands to the Telegram sender: the parts of the
      message and the photo. */
  datatype PriceNotice = PriceNotice(link: string, shortTitle: string, direction: string,
                                     oldPrice: Number, newPrice: Number, badge: string, img: string)

  /** `notifyPriceChange(oldItem, newItem)` up to the send: the link and
      badge come from the new product, the title from the old one, and the two
      prices are read with `parseFloat`. It throws (and the rejected promise
      sends nothing) when the old title is neither a string nor nullish. */
  function NotifyPriceChange(oldItem: Value, newItem: Product): (r: Result<PriceNotice>)
    ensures r.Ok? <==> IsNullish(Get(oldItem, "title")) || Get(oldItem, "title").Str?
    ensures r.Ok? ==>
              && r.value.link == ProductPrefix + ToStr(newItem.asin) + "/"
              && r.value.shortTitle == ShortTitle(Get(oldItem, "title")).value
              && r.value.oldPrice == ParseFloat(ToStr(Get(oldItem, "price")))
              && r.value.newPrice == ParseFloat(ToStr(newItem.price))
              && (r.value.direction == "decreased" <==> Above(r.value.oldPrice, r.value.newPrice))
              && r.value.badge == ToStr(newItem.badge)
              && r.value.img == newItem.img
  {
    var shortTitle :- ShortTitle(Get(oldItem, "title"));
    var oldPrice := ParseFloat(ToStr(Get(oldItem, "price")));
    var newPrice := ParseFloat(ToStr(newItem.price));
    DirectionIff(oldPrice, newPrice);
    Ok(PriceNotice(ProductPrefix + ToStr(newItem.asin) + "/", shortTitle, Direction(oldPrice, newPrice),
                   oldPrice, newPrice, ToStr(newItem.badge), newItem.img))
  }

  /** `${price}` for a number; `show` is the formatting of a finite value. */
  function NumberText(x: Number, show: real -> string): string {
    match x
    case NaN => "NaN"
    case PosInf => "Infinity"
    case NegInf => "-Infinity"
    case Finite(r) => show(r)
  }

  /** The HTML caption of the notice, written as the template reads:
      opening, link, title, direction, prices. */
  function Caption(n: PriceNotice, show: real -> string): string {
    "<u><b>AMAZON CART</b></u>\nPrice of <a href=\""
    + (n.link + ("\">" + (n.shortTitle + ("...</a> has <u>" + (n.direction + Prices(n, show))))))
  }

  function Prices(n: PriceNotice, show: real -> string): string {
    ".</u>\n\n- Old Price: " + NumberText(n.oldPrice, show) + " " + n.badge
    + "\n- New Price: " + NumberText(n.newPrice, show) + " " + n.badge
  }

  /** The caption links to the product and shows the title and the direction. */
  lemma CaptionShows(n: PriceNotice, show: real -> string)
    ensures Includes(Caption(n, show), n.link)
    ensures Includes(Caption(n, show), n.shortTitle)
    ensures Includes(Caption(n, show), n.direction)
  {
    var a := "<u><b>AMAZON CART</b></u>\nPrice of <a href=\"";
    var b := "\">";
    var c := "...</a> has <u>";
    var tail := c + (n.direction + Prices(n, show));
    IncludesSplice(a, n.link, b + (n.shortTitle + tail));
    ConcatAssoc(a, n.link, b + (n.shortTitle + tail));
    var front := a + n.link + b;
    ConcatAssoc(a + n.link, b, n.shortTitle + tail);
    ConcatAssoc(a, n.link, b);
    IncludesSplice(front, n.shortTitle, tail);
    ConcatAssoc(front, n.shortTitle, tail);
    var front2 := front + n.shortTitle + c;
    ConcatAssoc(front + n.shortTitle, c, n.direction + Prices(n, show));
    ConcatAssoc(front, n.shortTitle, c + (n.direction + Prices(n, show)));
    IncludesSplice(front2, n.direction, Prices(n, show));
    ConcatAssoc(front2, n.direction, Prices(n, show));
  }

  // ---------------------------------------------------------------------
  // Comparing one item
  // ---------------------------------------------------------------------

  /** A line of the change log. */
  datatype LogLine =
    | Changed(asin: string, key: string)   // `Amazon ${oldItem.asin} : "${key}" has changed`
    | Resized(count: nat)                  // `Amazon's cart updated, ${count} items removed or added.`

  /** The keys of the old item, in their order, whose values differ in the new
      one. */
  function DifferingKeys(keys: seq<string>, oldItem: Value, newItem: Value): seq<string>
    decreases |keys|
  {
    if keys == [] then []
    else
      var n := |keys| - 1;
      DifferingKeys(keys[..n], oldItem, newItem)
        + (if Differs(Get(oldItem, keys[n]), Get(newItem, keys[n])) then [keys[n]] else [])
  }

  lemma DifferingKeysStep(keys: seq<string>, oldItem: Value, newItem: Value, i: nat)
    requires i < |keys|
    ensures DifferingKeys(keys[..i + 1], oldItem, newItem) ==
              DifferingKeys(keys[..i], oldItem, newItem)
              + (if Differs(Get(oldItem, keys[i]), Get(newItem, keys[i])) then [keys[i]] else [])
  {
    assert keys[..i + 1][..i] == keys[..i];
  }

  /** A key is logged exactly when it is one of the old item's keys and its
      values differ. */
  lemma {:induction false} DifferingKeysMembership(keys: seq<string>, oldItem: Value, newItem: Value, k: string)
    ensures k in DifferingKeys(keys, oldItem, newItem) <==> k in keys && Differs(Get(oldItem, k), Get(newItem, k))
    decreases |keys|
  {
    if keys != [] {
      var n := |keys| - 1;
      DifferingKeysMembership(keys[..n], oldItem, newItem, k);
      assert keys == keys[..n] + [keys[n]];
    }
  }

  lemma {:induction false} DifferingKeysDistinct(keys: seq<string>, oldItem: Value, newItem: Value)
    requires Distinct(keys)
    ensures Distinct(DifferingKeys(keys, oldItem, newItem))
    decreases |keys|
  {
    if keys != [] {
      var n := |keys| - 1;
      assert Distinct(keys[..n]);
      DifferingKeysDistinct(keys[..n], oldItem, newItem);
      var k := keys[n];
      forall i | 0 <= i < n ensures keys[..n][i] != k {
        assert keys[i] != keys[n];
      }
      DifferingKeysMembership(keys[..n], oldItem, newItem, k);
    }
  }

  /** The log lines for the differing keys of an item with the given asin. */
  function ChangeLines(asin: string, keys: seq<string>): seq<LogLine> {
    seq(|keys|, i requires 0 <= i < |keys| => Changed(asin, keys[i]))
  }

  /** The notices the differing keys trigger: one for every "price" among
      them, when building the notice does not throw. */
  function Triggered(keys: seq<string>, notice: Result<PriceNotice>): seq<PriceNotice>
    decreases |keys|
  {
    if keys == [] then []
    else
      var n := |keys| - 1;
      Triggered(keys[..n], notice) + (if keys[n] == "price" && notice.Ok? then [notice.value] else [])
  }

  lemma TriggeredAppend(keys: seq<string>, key: string, notice: Result<PriceNotice>)
    ensures Triggered(keys + [key], notice) ==
              Triggered(keys, notice) + (if key == "price" && notice.Ok? then [notice.value] else [])
  {
    assert (keys + [key])[..|keys|] == keys;
  }

  /** What one more key adds to the change lines and the notices. */
  lemma ReportStep(asin: string, keys: seq<string>, oldItem: Value, newObject: Value,
                   notice: Result<PriceNotice>, i: nat)
    requires i < |keys|
    ensures var prev := DifferingKeys(keys[..i], oldItem, newObject);
            var differs := Differs(Get(oldItem, keys[i]), Get(newObject, keys[i]));
      && ChangeLines(asin, DifferingKeys(keys[..i + 1], oldItem, newObject))
           == ChangeLines(asin, prev) + (if differs then [Changed(asin, keys[i])] else [])
      && Triggered(DifferingKeys(keys[..i + 1], oldItem, newObject), notice)
           == Triggered(prev, notice) + (if differs && keys[i] == "price" && notice.Ok? then [notice.value] else [])
  {
    var prev := DifferingKeys(keys[..i], oldItem, newObject);
    DifferingKeysStep(keys, oldItem, newObject, i);
    if Differs(Get(oldItem, keys[i]), Get(newObject, keys[i])) {
      ChangeLinesAppend(asin, prev, keys[i]);
      TriggeredAppend(prev, keys[i], notice);
    } else {
      assert prev + [] == prev;
      assert ChangeLines(asin, prev) + [] == ChangeLines(asin, prev);
      assert Triggered(prev, notice) + [] == Triggered(prev, notice);
    }
  }

  lemma ChangeLinesAppend(asin: string, keys: seq<string>, key: string)
    ensures ChangeLines(asin, keys + [key]) == ChangeLines(asin, keys) + [Changed(asin, key)]
  {
  }

  /** Among distinct keys, "price" triggers its notice once, and nothing else
      triggers one. */
  lemma {:induction false} TriggeredOnce(keys: seq<string>, notice: Result<PriceNotice>)
    requires Distinct(keys)
    ensures Triggered(keys, notice) == if "price" in keys && notice.Ok? then [notice.value] else []
    decreases |keys|
  {
    if keys != [] {
      var n := |keys| - 1;
      assert Distinct(keys[..n]);
      TriggeredOnce(keys[..n], notice);
      assert keys == keys[..n] + [keys[n]];
      if keys[n] == "price" {
        forall i | 0 <= i < n ensures keys[..n][i] != "price" {
          assert keys[i] != keys[n];
        }
      }
    }
  }

  /** `checkForChanges(oldItem, newItem)`: the log lines of the differing
      keys (none when `Object.keys(oldItem)` throws). */
  function ItemLog(oldItem: Value, newItem: Product): seq<LogLine> {
    match OwnKeys(oldItem)
    case Throws => []
    case Ok(keys) => ChangeLines(ToStr(Get(oldItem, "asin")), DifferingKeys(keys, oldItem, newItem.AsObject()))
  }

  /** `checkForChanges(oldItem, newItem)`: the notices it sends. */
  function ItemSent(oldItem: Value, newItem: Product): seq<PriceNotice> {
    match OwnKeys(oldItem)
    case Throws => []
    case Ok(keys) => Triggered(DifferingKeys(keys, oldItem, newItem.AsObject()), NotifyPriceChange(oldItem, newItem))
  }

  /** Reading the fields of a product object. */
  lemma ProductReads(p: Product)
    ensures Get(p.AsObject(), "title") == p.title && Get(p.AsObject(), "price") == p.price
  {
    var fs := p.AsObject().fields;
    assert DistinctKeys(fs);
    LookupFinds(fs, 0);
    LookupFinds(fs, 3);
  }

  /** Every differing key is logged, but only a differing "price" sends a
      notice, so an item with distinct keys sends at most one. */
  lemma PriceNoticeIff(oldItem: Value, newItem: Product)
    requires !IsNullish(oldItem) && Distinct(OwnKeys(oldItem).value)
    ensures var keys := OwnKeys(oldItem).value;
            var notice := NotifyPriceChange(oldItem, newItem);
      && ItemSent(oldItem, newItem) ==
           (if "price" in keys && Differs(Get(oldItem, "price"), newItem.price) && notice.Ok? then [notice.value] else [])
      && |ItemSent(oldItem, newItem)| <= 1
      && |ItemLog(oldItem, newItem)| == |DifferingKeys(keys, oldItem, newItem.AsObject())|
  {
    var keys := OwnKeys(oldItem).value;
    var dk := DifferingKeys(keys, oldItem, newItem.AsObject());
    ProductReads(newItem);
    DifferingKeysDistinct(keys, oldItem, newItem.AsObject());
    DifferingKeysMembership(keys, oldItem, newItem.AsObject(), "price");
    TriggeredOnce(dk, NotifyPriceChange(oldItem, newItem));
  }

  /** An item whose price did not change sends nothing. */
  lemma {:induction false} NoPriceNoNotice(keys: seq<string>, notice: Result<PriceNotice>)
    requires "price" !in keys
    ensures Triggered(keys, notice) == []
    decreases |keys|
  {
    if keys != [] {
      var n := |keys| - 1;
      assert keys[n] in keys;
      assert forall k :: k in keys[..n] ==> k in keys;
      NoPriceNoNotice(keys[..n], notice);
    }
  }

  // ---------------------------------------------------------------------
  // One run of evaluateItems
  // ---------------------------------------------------------------------

  /** What the common-key walk leaves behind: the log lines and notices so
      far, and whether an `Object.keys` of a null or undefined old item threw. */
  datatype Effects = Effects(log: seq<LogLine>, sent: seq<PriceNotice>, fatal: bool)

  /** `newItemsKeys.forEach((key) => { if (oldItemsKeys.includes(key))
      checkForChanges(oldItems[key], newItems[key]); })`: the effects of the
      calls in order, stopping at the first one that throws. */
  function Compare(order: seq<string>, oldKeys: seq<string>, oldItems: Value, items: map<string, Product>): Effects
    decreases |order|
  {
    if order == [] then Effects([], [], false)
    else
      var n := |order| - 1;
      var prev := Compare(order[..n], oldKeys, oldItems, items);
      var k := order[n];
      if prev.fatal || k !in oldKeys || k !in items then prev
      else if IsNullish(Get(oldItems, k)) then prev.(fatal := true)
      else Effects(prev.log + ItemLog(Get(oldItems, k), items[k]), prev.sent + ItemSent(Get(oldItems, k), items[k]), false)
  }

  lemma CompareStep(order: seq<string>, oldKeys: seq<string>, oldItems: Value, items: map<string, Product>, i: nat)
    requires i < |order|
    ensures var prev := Compare(order[..i], oldKeys, oldItems, items);
            var k := order[i];
      Compare(order[..i + 1], oldKeys, oldItems, items) ==
        if prev.fatal || k !in oldKeys || k !in items then prev
        else if IsNullish(Get(oldItems, k)) then prev.(fatal := true)
        else Effects(prev.log + ItemLog(Get(oldItems, k), items[k]), prev.sent + ItemSent(Get(oldItems, k), items[k]), false)
  {
    assert order[..i + 1][..i] == order[..i];
  }

  /** Once a call has thrown, the later keys change nothing. */
  lemma {:induction false} CompareFatalSticky(order: seq<string>, oldKeys: seq<string>, oldItems: Value,
                                              items: map<string, Product>, i: nat)
    requires i <= |order| && Compare(order[..i], oldKeys, oldItems, items).fatal
    ensures Compare(order, oldKeys, oldItems, items) == Compare(order[..i], oldKeys, oldItems, items)
    decreases |order| - i
  {
    if i < |order| {
      CompareStep(order, oldKeys, oldItems, items, i);
      CompareFatalSticky(order, oldKeys, oldItems, items, i + 1);
    } else {
      assert order[..i] == order;
    }
  }

  /** The walk logs only per-key change lines. */
  lemma {:induction false} CompareLogsChanges(order: seq<string>, oldKeys: seq<string>, oldItems: Value,
                                              items: map<string, Product>)
    ensures forall line :: line in Compare(order, oldKeys, oldItems, items).log ==> line.Changed?
    decreases |order|
  {
    if order != [] {
      var n := |order| - 1;
      CompareLogsChanges(order[..n], oldKeys, oldItems, items);
      var k := order[n];
      if k in oldKeys && k in items && !IsNullish(Get(oldItems, k)) {
        assert forall line :: line in ItemLog(Get(oldItems, k), items[k]) ==> line.Changed?;
      }
    }
  }

  /** Every notice comes from an id present in both snapshots whose old item
      is an object-like value. */
  lemma {:induction false} CompareSource(order: seq<string>, oldKeys: seq<string>, oldItems: Value,
                                         items: map<string, Product>)
    ensures forall x :: x in Compare(order, oldKeys, oldItems, items).sent ==>
              exists k :: k in order && k in oldKeys && k in items && !IsNullish(Get(oldItems, k))
                          && x in ItemSent(Get(oldItems, k), items[k])
    decreases |order|
  {
    if order != [] {
      var n := |order| - 1;
      CompareSource(order[..n], oldKeys, oldItems, items);
      assert order[n] in order;
      assert forall k :: k in order[..n] ==> k in order;
    }
  }

  /** When no common item's price changed, nothing is sent. */
  lemma {:induction false} CompareSilent(order: seq<string>, oldKeys: seq<string>, oldItems: Value,
                                         items: map<string, Product>)
    requires forall k :: k in order && k in oldKeys && k in items && !IsNullish(Get(oldItems, k)) ==>
               ItemSent(Get(oldItems, k), items[k]) == []
    ensures Compare(order, oldKeys, oldItems, items).sent == []
    decreases |order|
  {
    if order != [] {
      var n := |order| - 1;
      assert order[n] in order;
      assert forall k :: k in order[..n] ==> k in order;
      CompareSilent(order[..n], oldKeys, oldItems, items);
    }
  }

  /** `Math.abs(a - b)`. */
  function Distance(a: nat, b: nat): nat {
    if a >= b then a - b else b - a
  }

  /** How a run ends: the scrape threw (an unhandled rejection, which ends
      the process on Node 15 and later), the empty
      snapshot was filled, the carts were compared and the snapshot
      overwritten, or the catch block closed the browser and exited with
      status 1. */
  datatype Outcome = ScrapeFailed | FirstRun | Compared | Fatal

  /** The new file, what was appended to the log and the outbox, and the
      outcome of one `evaluateItems` call. */
  datatype Cycle = Cycle(file: FileState, log: seq<LogLine>, sent: seq<PriceNotice>, outcome: Outcome)

  /** `evaluateItems(newItems)`: any read, parse or write failure, and any
      throw inside the walk, ends in Fatal; an old snapshot without keys is
      overwritten without comparing; otherwise the common ids are compared,
      the snapshot is overwritten and, when the key counts differ, their
      distance is logged. */
  function Evaluate(file: FileState, newItems: Snapshot<Product>, canWrite: bool): Cycle {
    match file
    case Unreadable => Cycle(file, [], [], Fatal)
    case Json(oldItems) =>
      match OwnKeys(oldItems)
      case Throws => Cycle(file, [], [], Fatal)
      case Ok(oldKeys) =>
        if |oldKeys| == 0 then
          if canWrite then Cycle(Json(Persisted(newItems, ProductObject)), [], [], FirstRun)
          else Cycle(file, [], [], Fatal)
        else
          var e := Compare(newItems.keys, oldKeys, oldItems, newItems.items);
          if e.fatal || !canWrite then Cycle(file, e.log, e.sent, Fatal)
          else
            var resized := if |newItems.keys| != |oldKeys| then [Resized(Distance(|oldKeys|, |newItems.keys|))] else [];
            Cycle(Json(Persisted(newItems, ProductObject)), e.log + resized, e.sent, Compared)
  }

  /** A run either overwrites the snapshot with the new cart or ends in Fatal
      with the file as it was; an unreadable file or one that is null ends in
      Fatal at once, having logged and sent nothing. */
  lemma EvaluateOutcomes(file: FileState, newItems: Snapshot<Product>, canWrite: bool)
    ensures var c := Evaluate(file, newItems, canWrite);
      && (c.outcome == Fatal || c.outcome == FirstRun || c.outcome == Compared)
      && (c.outcome == Fatal ==> c.file == file)
      && (c.outcome != Fatal ==> c.file == Json(Persisted(newItems, ProductObject)) && canWrite)
      && (!canWrite ==> c.outcome == Fatal)
      && ((file.Unreadable? || (file.Json? && IsNullish(file.content))) ==> c == Cycle(file, [], [], Fatal))
  {
  }

  /** An old snapshot without keys is simply overwritten: nothing is logged or
      sent. */
  lemma FirstRunSilent(file: FileState, newItems: Snapshot<Product>, canWrite: bool)
    requires file.Json? && OwnKeys(file.content) == Ok([])
    ensures var c := Evaluate(file, newItems, canWrite);
      c.log == [] && c.sent == [] && (c.outcome == FirstRun <==> canWrite)
  {
  }

  /** After a comparison, the "items removed or added" line is logged
      exactly when the key counts differ, and it reports their distance. */
  lemma ResizeNotice(file: FileState, newItems: Snapshot<Product>, canWrite: bool)
    requires Evaluate(file, newItems, canWrite).outcome == Compared
    ensures file.Json? && OwnKeys(file.content).Ok?
    ensures var c := Evaluate(file, newItems, canWrite);
            var oldCount := |OwnKeys(file.content).value|;
      && ((exists count :: Resized(count) in c.log) <==> oldCount != |newItems.keys|)
      && (forall count :: Resized(count) in c.log ==>
            count == Distance(oldCount, |newItems.keys|) && count > 0)
  {
    var oldKeys := OwnKeys(file.content).value;
    var e := Compare(newItems.keys, oldKeys, file.content, newItems.items);
    CompareLogsChanges(newItems.keys, oldKeys, file.content, newItems.items);
    var c := Evaluate(file, newItems, canWrite);
    if oldKeys != [] && |oldKeys| != |newItems.keys| {
      assert c.log == e.log + [Resized(Distance(|oldKeys|, |newItems.keys|))];
      assert Resized(Distance(|oldKeys|, |newItems.keys|)) in c.log;
    }
  }

  /** One item removed and another added leave the count unchanged, so the
      run logs no "items removed or added" line. */
  lemma SwapGoesUnlogged(file: FileState, newItems: Snapshot<Product>, canWrite: bool, gone: string, added: string)
    requires file.Json? && OwnKeys(file.content).Ok?
    requires gone in OwnKeys(file.content).value && gone !in newItems.keys
    requires added in newItems.keys && added !in OwnKeys(file.content).value
    requires |OwnKeys(file.content).value| == |newItems.keys|
    ensures forall count :: Resized(count) !in Evaluate(file, newItems, canWrite).log
  {
    var oldKeys := OwnKeys(file.content).value;
    CompareLogsChanges(newItems.keys, oldKeys, file.content, newItems.items);
  }

  /** Every notice sent comes from an id present in both snapshots. */
  lemma OnlyCommonIds(file: FileState, newItems: Snapshot<Product>, canWrite: bool)
    ensures forall x :: x in Evaluate(file, newItems, canWrite).sent ==>
              && file.Json? && OwnKeys(file.content).Ok?
              && exists k :: k in newItems.keys && k in OwnKeys(file.content).value && k in newItems.items
                             && x in ItemSent(Get(file.content, k), newItems.items[k])
  {
    if file.Json? && OwnKeys(file.content).Ok? {
      CompareSource(newItems.keys, OwnKeys(file.content).value, file.content, newItems.items);
    }
  }

  /** Comparing a scraped cart with its own snapshot sends no notice. */
  lemma UnchangedCartSilent(cart: Snapshot<Product>, canWrite: bool)
    requires Valid(cart) && forall k :: k in cart.items ==> Scraped(cart.items[k])
    ensures Evaluate(Json(Persisted(cart, ProductObject)), cart, canWrite).sent == []
  {
    var stored := Persisted(cart, ProductObject);
    var oldKeys := OwnKeys(stored);
    if oldKeys.Ok? {
      forall k | k in cart.keys && k in oldKeys.value && k in cart.items && !IsNullish(Get(stored, k))
        ensures ItemSent(Get(stored, k), cart.items[k]) == []
      {
        PersistedItem(cart, ProductObject, k);
        StoredPriceSilent(cart.items[k]);
      }
      CompareSilent(cart.keys, oldKeys.value, stored, cart.items);
    }
  }

  /** The stored form of a scraped product sends nothing against it. */
  lemma StoredPriceSilent(p: Product)
    requires Scraped(p)
    ensures ItemSent(ToJson(p.AsObject()), p) == []
  {
    var fs := p.AsObject().fields;
    var stored := ToJson(p.AsObject());
    assert DistinctKeys(fs);
    GetToJson(fs, "price");
    ProductReads(p);
    assert Get(stored, "price") == p.price;
    var keys := OwnKeys(stored).value;
    DifferingKeysMembership(keys, stored, p.AsObject(), "price");
    NoPriceNoNotice(DifferingKeys(keys, stored, p.AsObject()), NotifyPriceChange(stored, p));
  }

  // ---------------------------------------------------------------------
  // The watcher
  // ---------------------------------------------------------------------

  /** The state the Amazon watcher keeps between runs: the snapshot file,
      the change log, and the notices handed to the Telegram sender. */
  class Watcher {
    var file: FileState
    var log: seq<LogLine>
    var outbox: seq<PriceNotice>

    constructor(initial: FileState)
      ensures file == initial && log == [] && outbox == []
    {
      file := initial;
      log := [];
      outbox := [];
    }

    /** `checkForChanges(oldItem, newItem)`: log every differing key of the
        old item and send a price notice when the key is "price". `threw`
        tells whether `Object.keys(oldItem)` threw, which the caller's catch
        turns into the fatal exit. */
    method CheckForChanges(oldItem: Value, newItem: Product) returns (threw: bool)
      modifies this`log, this`outbox
      ensures threw <==> IsNullish(oldItem)
      ensures log == old(log) + ItemLog(oldItem, newItem)
      ensures outbox == old(outbox) + ItemSent(oldItem, newItem)
    {
      var oldKeys := OwnKeys(oldItem);
      if oldKeys.Throws? {
        return true;
      }
      threw := false;
      CompareKeys(oldKeys.value, oldItem, newItem.AsObject(), NotifyPriceChange(oldItem, newItem));
    }

    /** The `oldItemKeys.forEach` loop of `checkForChanges`, where `notice`
        is what `notifyPriceChange(oldItem, newItem)` builds. Building it
        depends only on the two items, so the loop sends that one value each
        time the differing key is "price". */
    method CompareKeys(keys: seq<string>, oldItem: Value, newObject: Value, notice: Result<PriceNotice>)
      modifies this`log, this`outbox
      ensures log == old(log) + ChangeLines(ToStr(Get(oldItem, "asin")), DifferingKeys(keys, oldItem, newObject))
      ensures outbox == old(outbox) + Triggered(DifferingKeys(keys, oldItem, newObject), notice)
    {
      var asin := ToStr(Get(oldItem, "asin"));
      assert keys[..0] == [];
      for i := 0 to |keys|
        invariant log == old(log) + ChangeLines(asin, DifferingKeys(keys[..i], oldItem, newObject))
        invariant outbox == old(outbox) + Triggered(DifferingKeys(keys[..i], oldItem, newObject), notice)
      {
        ghost var prev := DifferingKeys(keys[..i], oldItem, newObject);
        ReportStep(asin, keys, oldItem, newObject, notice, i);
        var key := keys[i];
        var differs := Differs(Get(oldItem, key), Get(newObject, key));
        ghost var lines := if differs then [Changed(asin, key)] else [];
        ghost var sent := if differs && key == "price" && notice.Ok? then [notice.value] else [];
        Report(asin, key, differs, notice);
        ConcatAssoc(old(log), ChangeLines(asin, prev), lines);
        ConcatAssoc(old(outbox), Triggered(prev, notice), sent);
      }
      assert keys[..|keys|] == keys;
    }

    /** One turn of that loop: a differing key is logged, and a differing
        price sends the notice. */
    method Report(asin: string, key: string, differs: bool, notice: Result<PriceNotice>)
      modifies this`log, this`outbox
      ensures log == old(log) + (if differs then [Changed(asin, key)] else [])
      ensures outbox == old(outbox) + (if differs && key == "price" && notice.Ok? then [notice.value] else [])
    {
      if differs {
        log := log + [Changed(asin, key)];
        if key == "price" && notice.Ok? {
          outbox := outbox + [notice.value];
        } else {
          assert outbox == old(outbox) + [];
        }
      } else {
        assert log == old(log) + [] && outbox == old(outbox) + [];
      }
    }

    /** `evaluateItems(newItems)`, with `canWrite` telling whether writing
        the snapshot succeeds. */
    method EvaluateItems(newItems: Snapshot<Product>, canWrite: bool) returns (outcome: Outcome)
      requires Valid(newItems)
      modifies this`file, this`log, this`outbox
      ensures var c := Evaluate(old(file), newItems, canWrite);
        && file == c.file && log == old(log) + c.log && outbox == old(outbox) + c.sent
        && outcome == c.outcome
    {
      if file.Unreadable? {
        return Fatal;
      }
      var oldItems := file.content;
      var oldKeys := OwnKeys(oldItems);
      if oldKeys.Throws? {
        return Fatal;
      }
      if |oldKeys.value| == 0 {
        if !canWrite {
          return Fatal;
        }
        file := Json(Persisted(newItems, ProductObject));
        return FirstRun;
      }
      var fatal := CompareAll(newItems.keys, oldKeys.value, oldItems, newItems.items);
      if fatal {
        return Fatal;
      }
      if !canWrite {
        return Fatal;
      }
      file := Json(Persisted(newItems, ProductObject));
      if |newItems.keys| != |oldKeys.value| {
        log := log + [Resized(Distance(|oldKeys.value|, |newItems.keys|))];
      }
      outcome := Compared;
    }

    /** The `forEach` over the new cart's keys, stopping at the first
        `checkForChanges` call that throws; `fatal` tells whether one did. */
    method CompareAll(keys: seq<string>, oldKeys: seq<string>, oldItems: Value, items: map<string, Product>)
      returns (fatal: bool)
      requires forall k :: k in keys ==> k in items
      modifies this`log, this`outbox
      ensures var e := Compare(keys, oldKeys, oldItems, items);
        fatal == e.fatal && log == old(log) + e.log && outbox == old(outbox) + e.sent
    {
      assert keys[..0] == [];
      for i := 0 to |keys|
        invariant !Compare(keys[..i], oldKeys, oldItems, items).fatal
        invariant log == old(log) + Compare(keys[..i], oldKeys, oldItems, items).log
        invariant outbox == old(outbox) + Compare(keys[..i], oldKeys, oldItems, items).sent
      {
        ghost var prev := Compare(keys[..i], oldKeys, oldItems, items);
        CompareStep(keys, oldKeys, oldItems, items, i);
        ghost var lines := if keys[i] in oldKeys then ItemLog(Get(oldItems, keys[i]), items[keys[i]]) else [];
        ghost var sent := if keys[i] in oldKeys then ItemSent(Get(oldItems, keys[i]), items[keys[i]]) else [];
        var threw := CompareKey(keys[i], oldKeys, oldItems, items);
        if threw {
          CompareFatalSticky(keys, oldKeys, oldItems, items, i + 1);
          return true;
        }
        ConcatAssoc(old(log), prev.log, lines);
        ConcatAssoc(old(outbox), prev.sent, sent);
      }
      assert keys[..|keys|] == keys;
      fatal := false;
    }

    /** One turn of that loop. */
    method CompareKey(key: string, oldKeys: seq<string>, oldItems: Value, items: map<string, Product>)
      returns (threw: bool)
      requires key in items
      modifies this`log, this`outbox
      ensures threw <==> key in oldKeys && IsNullish(Get(oldItems, key))
      ensures threw ==> log == old(log) && outbox == old(outbox)
      ensures log == old(log) + (if key in oldKeys then ItemLog(Get(oldItems, key), items[key]) else [])
      ensures outbox == old(outbox) + (if key in oldKeys then ItemSent(Get(oldItems, key), items[key]) else [])
    {
      if key in oldKeys {
        threw := CheckForChanges(Get(oldItems, key), items[key]);
      } else {
        threw := false;
        assert log == old(log) + [] && outbox == old(outbox) + [];
      }
    }

    /** One `basketObserver` run: scrape the active and saved rows, then
        evaluate; a scrape that throws changes nothing. */
    method Observe(active: seq<CartRow>, saved: seq<CartRow>, canWrite: bool) returns (outcome: Outcome)
      modifies this
      ensures BasketItems(active, saved).Throws? ==>
                outcome == ScrapeFailed && file == old(file) && log == old(log) && outbox == old(outbox)
      ensures BasketItems(active, saved).Ok? ==>
                var c := Evaluate(old(file), BasketItems(active, saved).value, canWrite);
                && file == c.file && log == old(log) + c.log && outbox == old(outbox) + c.sent
                && outcome == c.outcome
    {
      var items := BasketItems(active, saved);
      if items.Throws? {
        return ScrapeFailed;
      }
      LastWriteWinsValid(Keyed(Products(active + saved).value, AsinKey));
      outcome := EvaluateItems(items.value, canWrite);
    }
  }
}
