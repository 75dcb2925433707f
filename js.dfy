/**
 * The slice of JavaScript semantics that the three cart watchers rely on:
 * JSON-shaped values, property reads (with the TypeError that reading a
 * property of null or undefined raises), `Object.keys`, `String(v)` as used
 * by template literals and string concatenation, strict inequality `!==`,
 * the `JSON.parse(JSON.stringify(v))` round trip of the snapshot file, and
 * the string methods `trim`, `includes` and `substring`.
 */
module Js {

  datatype Option<T> = None | Some(value: T)

  /** The outcome of an expression that may throw. Every exception on the
      modelled code paths is a TypeError, so the failure carries no payload. */
  datatype Result<T> = Ok(value: T) | Throws {
    predicate IsFailure() {
      Throws?
    }

    function PropagateFailure<U>(): Result<U>
      requires Throws?
    {
      Throws
    }

    function Extract(): T
      requires Ok?
    {
      value
    }
  }

  /** Numbers are modelled as integers (prices as integral amounts); NaN and
      fractional numbers do not arise in the model. */
  datatype Value =
    | Undefined
    | Null
    | Bool(b: bool)
    | Num(n: int)
    | Str(s: string)
    | List(elems: seq<Value>)
    | Obj(fields: seq<Field>)

  /** One own property of an object, in the object's key order. */
  datatype Field = Field(key: string, val: Value)

  predicate IsNullish(v: Value) {
    v.Undefined? || v.Null?
  }

  /** `typeof v === "object" && v !== null`: arrays and plain objects. */
  predicate IsObject(v: Value) {
    v.List? || v.Obj?
  }

  predicate Truthy(v: Value) {
    match v
    case Undefined => false
    case Null => false
    case Bool(b) => b
    case Num(n) => n != 0
    case Str(s) => s != ""
    case _ => true
  }

  // ---------------------------------------------------------------------
  // Decimal numerals: Number-to-string and array-index keys
  // ---------------------------------------------------------------------

  predicate IsDigit(c: char) {
    '0' <= c <= '9'
  }

  predicate AllDigits(s: string) {
    forall i :: 0 <= i < |s| ==> IsDigit(s[i])
  }

  function DigitChar(d: nat): (c: char)
    requires d < 10
    ensures IsDigit(c) && c as int - '0' as int == d
  {
    ('0' as int + d) as char
  }

  /** The decimal numeral of `n`, as `String(n)` writes it. */
  function NatToString(n: nat): string
    decreases n
  {
    if n < 10 then [DigitChar(n)] else NatToString(n / 10) + [DigitChar(n % 10)]
  }

  function IntToString(i: int): string {
    if i < 0 then "-" + NatToString(-i) else NatToString(i)
  }

  /** The value of a string of decimal digits. */
  function DigitsValue(s: string): nat
    requires AllDigits(s)
    decreases |s|
  {
    if s == [] then 0
    else DigitsValue(s[..|s| - 1]) * 10 + (s[|s| - 1] as int - '0' as int)
  }

  /** A property key read as an array index: only canonical numerals
      ("0", "17", never "017" or "") name an element. */
  function ParseIndex(k: string): Option<nat> {
    if k == [] || (|k| > 1 && k[0] == '0') || !AllDigits(k) then None
    else Some(DigitsValue(k))
  }

  lemma {:induction false} NatToStringShape(n: nat)
    ensures |NatToString(n)| > 0 && AllDigits(NatToString(n))
    ensures DigitsValue(NatToString(n)) == n
    ensures n >= 10 ==> NatToString(n)[0] != '0'
    decreases n
  {
    if n >= 10 {
      NatToStringShape(n / 10);
      var s := NatToString(n);
      assert s == NatToString(n / 10) + [DigitChar(n % 10)];
      assert s[..|s| - 1] == NatToString(n / 10);
      assert n / 10 >= 10 ==> NatToString(n / 10)[0] != '0';
      assert n / 10 < 10 ==> NatToString(n / 10) == [DigitChar(n / 10)];
    }
  }

  /** The numeral of an index reads back as that index. */
  lemma ParseIndexRoundTrip(n: nat)
    ensures ParseIndex(NatToString(n)) == Some(n)
  {
    NatToStringShape(n);
  }

  // ---------------------------------------------------------------------
  // Property access and Object.keys
  // ---------------------------------------------------------------------

  /** The value of the first field named `k`, or undefined. */
  function Lookup(fields: seq<Field>, k: string): Value {
    if fields == [] then Undefined
    else if fields[0].key == k then fields[0].val
    else Lookup(fields[1..], k)
  }

  /** `v[k]` for a string key `k` on a value that is not null or undefined
      (for those, see Member). Prototype properties such as `length` are not
      modelled. */
  function Get(v: Value, k: string): Value {
    match v
    case Obj(fs) => Lookup(fs, k)
    case List(xs) =>
      (match ParseIndex(k)
       case Some(i) => if i < |xs| then xs[i] else Undefined
       case None => Undefined)
    case Str(s) =>
      (match ParseIndex(k)
       case Some(i) => if i < |s| then Str([s[i]]) else Undefined
       case None => Undefined)
    case _ => Undefined
  }

  /** `v[i]` for a number `i`. */
  function Index(v: Value, i: nat): Value {
    match v
    case Obj(fs) => Lookup(fs, NatToString(i))
    case List(xs) => if i < |xs| then xs[i] else Undefined
    case Str(s) => if i < |s| then Str([s[i]]) else Undefined
    case _ => Undefined
  }

  /** Indexing with a number and with its numeral read the same property. */
  lemma IndexIsGet(v: Value, i: nat)
    ensures Index(v, i) == Get(v, NatToString(i))
  {
    ParseIndexRoundTrip(i);
  }

  /** `v.k`: throws when `v` is null or undefined. */
  function Member(v: Value, k: string): (r: Result<Value>)
    ensures r.Throws? <==> IsNullish(v)
  {
    if IsNullish(v) then Throws else Ok(Get(v, k))
  }

  /** `v[i]`: throws when `v` is null or undefined. */
  function MemberAt(v: Value, i: nat): (r: Result<Value>)
    ensures r.Throws? <==> IsNullish(v)
  {
    if IsNullish(v) then Throws else Ok(Index(v, i))
  }

  function KeysOf(fs: seq<Field>): seq<string> {
    seq(|fs|, i requires 0 <= i < |fs| => fs[i].key)
  }

  function Numerals(n: nat): seq<string> {
    seq(n, i requires 0 <= i < n => NatToString(i))
  }

  /** `Object.keys(v)`: throws on null and undefined. */
  function OwnKeys(v: Value): (r: Result<seq<string>>)
    ensures r.Throws? <==> IsNullish(v)
  {
    match v
    case Undefined => Throws
    case Null => Throws
    case Obj(fs) => Ok(KeysOf(fs))
    case List(xs) => Ok(Numerals(|xs|))
    case Str(s) => Ok(Numerals(|s|))
    case _ => Ok([])
  }

  predicate DistinctKeys(fs: seq<Field>) {
    forall i, j :: 0 <= i < j < |fs| ==> fs[i].key != fs[j].key
  }

  lemma {:induction false} LookupFinds(fs: seq<Field>, i: nat)
    requires i < |fs| && DistinctKeys(fs)
    ensures Lookup(fs, fs[i].key) == fs[i].val
  {
    if i > 0 {
      assert fs[0].key != fs[i].key;
      assert fs[1..][i - 1] == fs[i];
      LookupFinds(fs[1..], i - 1);
    }
  }

  lemma {:induction false} LookupMisses(fs: seq<Field>, k: string)
    requires forall i :: 0 <= i < |fs| ==> fs[i].key != k
    ensures Lookup(fs, k) == Undefined
  {
    if fs != [] {
      assert fs[0].key != k;
      assert forall i :: 0 <= i < |fs[1..]| ==> fs[1..][i] == fs[i + 1];
      LookupMisses(fs[1..], k);
    }
  }

  lemma ConcatAssoc<T>(a: seq<T>, b: seq<T>, c: seq<T>)
    ensures a + b + c == a + (b + c)
  {
  }

  /** The elements `v.forEach(...)` visits: an array's elements; any other
      value has no `forEach`, so the call throws. */
  function Elements(v: Value): (r: Result<seq<Value>>)
    ensures r.Ok? <==> v.List?
  {
    if v.List? then Ok(v.elems) else Throws
  }

  /** The elements `v?.forEach(...)` visits: none for null or undefined. */
  function OptionalElements(v: Value): (r: Result<seq<Value>>)
    ensures IsNullish(v) ==> r == Ok([])
    ensures r.Ok? <==> IsNullish(v) || v.List?
  {
    if IsNullish(v) then Ok([]) else Elements(v)
  }

  /** `xs.forEach((x, index) => { ... items.push(...) })` where the callback
      may throw: what all the calls push, in order, or the exception of the
      first call that throws. */
  function Collect<A, B>(xs: seq<A>, f: (A, nat) -> Result<seq<B>>): Result<seq<B>>
    decreases |xs|
  {
    if xs == [] then Ok([])
    else
      var n := |xs| - 1;
      var done :- Collect(xs[..n], f);
      var more :- f(xs[n], n);
      Ok(done + more)
  }

  lemma CollectStep<A, B>(xs: seq<A>, f: (A, nat) -> Result<seq<B>>, i: nat)
    requires i < |xs|
    ensures Collect(xs[..i + 1], f) ==
              match Collect(xs[..i], f)
              case Throws => Throws
              case Ok(done) => (match f(xs[i], i) case Throws => Throws case Ok(more) => Ok(done + more))
  {
    assert xs[..i + 1][..i] == xs[..i];
  }

  lemma {:induction false} CollectThrowsSticky<A, B>(xs: seq<A>, f: (A, nat) -> Result<seq<B>>, i: nat)
    requires i <= |xs| && Collect(xs[..i], f) == Throws
    ensures Collect(xs, f) == Throws
    decreases |xs| - i
  {
    if i < |xs| {
      CollectStep(xs, f, i);
      CollectThrowsSticky(xs, f, i + 1);
    } else {
      assert xs[..i] == xs;
    }
  }

  /** Everything pushed was pushed by the callback for some element. */
  lemma {:induction false} CollectMember<A, B>(xs: seq<A>, f: (A, nat) -> Result<seq<B>>, y: B)
    requires Collect(xs, f).Ok? && y in Collect(xs, f).value
    ensures exists i :: 0 <= i < |xs| && f(xs[i], i).Ok? && y in f(xs[i], i).value
    decreases |xs|
  {
    var n := |xs| - 1;
    var done := Collect(xs[..n], f).value;
    if y in done {
      CollectMember(xs[..n], f, y);
      var i :| 0 <= i < n && f(xs[..n][i], i).Ok? && y in f(xs[..n][i], i).value;
      assert xs[..n][i] == xs[i];
    }
  }

  // ---------------------------------------------------------------------
  // String(v) and strict inequality
  // ---------------------------------------------------------------------

  /** `parts.join(sep)`. */
  function Join(parts: seq<string>, sep: string): string
    decreases |parts|
  {
    if |parts| == 0 then ""
    else if |parts| == 1 then parts[0]
    else parts[0] + sep + Join(parts[1..], sep)
  }

  /** `String(v)`, which is also what a template literal and `"..." + v`
      produce and what a property key becomes: arrays are joined with ","
      (null and undefined elements print as nothing), objects print as
      "[object Object]". */
  function ToStr(v: Value): string
    decreases v
  {
    match v
    case Undefined => "undefined"
    case Null => "null"
    case Bool(b) => if b then "true" else "false"
    case Num(n) => IntToString(n)
    case Str(s) => s
    case List(xs) =>
      Join(seq(|xs|, i requires 0 <= i < |xs| => if IsNullish(xs[i]) then "" else ToStr(xs[i])), ",")
    case Obj(_) => "[object Object]"
  }

  /** `stored !== current`, where `stored` was read back from the snapshot file
      and `current` belongs to a newly parsed item. The two never share an
      object identity, so an array or object on either side always differs;
      primitives compare by type and value. */
  predicate Differs(stored: Value, current: Value) {
    IsObject(stored) || IsObject(current) || stored != current
  }

  // ---------------------------------------------------------------------
  // The snapshot file round trip
  // ---------------------------------------------------------------------

  /** The fields whose value is not undefined, in order. */
  function Defined(fs: seq<Field>): (r: seq<Field>)
    ensures forall i :: 0 <= i < |r| ==> r[i].val != Undefined && r[i] in fs
    decreases |fs|
  {
    if fs == [] then []
    else (if fs[0].val == Undefined then [] else [fs[0]]) + Defined(fs[1..])
  }

  /** `JSON.parse(JSON.stringify(v))`: properties whose value is undefined
      vanish, undefined array elements become null, everything else is kept.
      (A bare undefined stringifies to nothing; it is kept as undefined here
      and only ever occurs as a property value, which is dropped.) */
  function ToJson(v: Value): Value
    decreases v
  {
    match v
    case List(xs) =>
      List(seq(|xs|, i requires 0 <= i < |xs| => if xs[i].Undefined? then Null else ToJson(xs[i])))
    case Obj(fs) =>
      Obj(Defined(seq(|fs|, i requires 0 <= i < |fs| => Field(fs[i].key, ToJson(fs[i].val)))))
    case _ => v
  }

  lemma ToJsonUndefined(v: Value)
    ensures ToJson(v) == Undefined <==> v == Undefined
  {
  }

  /** The keys kept from an object with a leading field `f`. */
  lemma DefinedCons(f: Field, fs: seq<Field>)
    ensures KeysOf(Defined([f] + fs)) == (if f.val == Undefined then [] else [f.key]) + KeysOf(Defined(fs))
  {
    var head := if f.val == Undefined then [] else [f];
    DefinedUnfold(f, fs);
    KeysOfAppend(head, Defined(fs));
    assert KeysOf(head) == if f.val == Undefined then [] else [f.key];
  }

  lemma DefinedUnfold(f: Field, fs: seq<Field>)
    ensures Defined([f] + fs) == (if f.val == Undefined then [] else [f]) + Defined(fs)
  {
    assert ([f] + fs)[1..] == fs;
  }

  lemma KeysOfAppend(a: seq<Field>, b: seq<Field>)
    ensures KeysOf(a + b) == KeysOf(a) + KeysOf(b)
  {
    var l, r := KeysOf(a + b), KeysOf(a) + KeysOf(b);
    assert |l| == |r|;
    forall i | 0 <= i < |l| ensures l[i] == r[i] {
      if i < |a| { assert (a + b)[i] == a[i]; } else { assert (a + b)[i] == b[i - |a|]; }
    }
  }

  lemma {:induction false} DefinedKeys(fs: seq<Field>, k: string)
    ensures (exists i :: 0 <= i < |Defined(fs)| && Defined(fs)[i].key == k) ==>
              (exists i :: 0 <= i < |fs| && fs[i].key == k)
    decreases |fs|
  {
    if fs != [] {
      DefinedKeys(fs[1..], k);
      var d := Defined(fs);
      var rest := Defined(fs[1..]);
      assert d == (if fs[0].val == Undefined then [] else [fs[0]]) + rest;
      if i :| 0 <= i < |d| && d[i].key == k {
        if fs[0].val != Undefined && i == 0 {
          assert fs[0].key == k;
        } else {
          var j := if fs[0].val == Undefined then i else i - 1;
          assert rest[j].key == k;
          var m :| 0 <= m < |fs[1..]| && fs[1..][m].key == k;
          assert fs[m + 1].key == k;
        }
      }
    }
  }

  lemma {:induction false} DefinedDistinct(fs: seq<Field>)
    requires DistinctKeys(fs)
    ensures DistinctKeys(Defined(fs))
    decreases |fs|
  {
    if fs != [] {
      assert DistinctKeys(fs[1..]) by {
        forall i, j | 0 <= i < j < |fs[1..]| ensures fs[1..][i].key != fs[1..][j].key {
          assert fs[1..][i] == fs[i + 1] && fs[1..][j] == fs[j + 1];
        }
      }
      DefinedDistinct(fs[1..]);
      var rest := Defined(fs[1..]);
      if fs[0].val != Undefined {
        forall j | 0 <= j < |rest| ensures rest[j].key != fs[0].key {
          DefinedKeys(fs[1..], rest[j].key);
          var m :| 0 <= m < |fs[1..]| && fs[1..][m].key == rest[j].key;
          assert fs[m + 1].key == rest[j].key;
        }
        assert Defined(fs) == [fs[0]] + rest;
      }
    }
  }

  /** Dropping the undefined-valued fields of an object with distinct keys
      changes no property read: an absent property reads as undefined too. */
  lemma {:induction false} GetDefined(fs: seq<Field>, k: string)
    requires DistinctKeys(fs)
    ensures Lookup(Defined(fs), k) == Lookup(fs, k)
    decreases |fs|
  {
    if fs != [] {
      assert DistinctKeys(fs[1..]) by {
        forall i, j | 0 <= i < j < |fs[1..]| ensures fs[1..][i].key != fs[1..][j].key {
          assert fs[1..][i] == fs[i + 1] && fs[1..][j] == fs[j + 1];
        }
      }
      GetDefined(fs[1..], k);
      var rest := Defined(fs[1..]);
      if fs[0].val == Undefined {
        assert Defined(fs) == rest;
        if fs[0].key == k {
          forall i | 0 <= i < |fs[1..]| ensures fs[1..][i].key != k {
            assert fs[1..][i] == fs[i + 1];
          }
          LookupMisses(fs[1..], k);
        }
      } else {
        assert Defined(fs) == [fs[0]] + rest;
        assert ([fs[0]] + rest)[1..] == rest;
      }
    }
  }

  /** The stored form of an object with distinct keys answers every property
      read with the stored form of the original property. */
  lemma GetToJson(fs: seq<Field>, k: string)
    requires DistinctKeys(fs)
    ensures Get(ToJson(Obj(fs)), k) == ToJson(Get(Obj(fs), k))
  {
    var mapped := seq(|fs|, i requires 0 <= i < |fs| => Field(fs[i].key, ToJson(fs[i].val)));
    assert DistinctKeys(mapped);
    GetDefined(mapped, k);
    LookupMapped(fs, k);
  }

  lemma {:induction false} LookupMapped(fs: seq<Field>, k: string)
    ensures Lookup(seq(|fs|, i requires 0 <= i < |fs| => Field(fs[i].key, ToJson(fs[i].val))), k) == ToJson(Lookup(fs, k))
    decreases |fs|
  {
    var mapped := seq(|fs|, i requires 0 <= i < |fs| => Field(fs[i].key, ToJson(fs[i].val)));
    if fs != [] {
      LookupMapped(fs[1..], k);
      assert mapped[1..] == seq(|fs[1..]|, i requires 0 <= i < |fs[1..]| => Field(fs[1..][i].key, ToJson(fs[1..][i].val)));
    }
  }

  // ---------------------------------------------------------------------
  // String methods
  // ---------------------------------------------------------------------

  /** The characters `String.prototype.trim` strips: JavaScript's WhiteSpace
      and LineTerminator code points. */
  predicate IsSpace(c: char) {
    c == '\t' || c == '\n' || c == '\U{000B}' || c == '\U{000C}' || c == '\r' || c == ' '
    || c == '\U{00A0}' || c == '\U{1680}' || ('\U{2000}' <= c <= '\U{200A}')
    || c == '\U{2028}' || c == '\U{2029}' || c == '\U{202F}' || c == '\U{205F}'
    || c == '\U{3000}' || c == '\U{FEFF}'
  }

  predicate AllSpace(s: string) {
    forall i :: 0 <= i < |s| ==> IsSpace(s[i])
  }

  /** No whitespace at either end. */
  predicate Trimmed(s: string) {
    s == [] || (!IsSpace(s[0]) && !IsSpace(s[|s| - 1]))
  }

  function TrimStart(s: string): string
    decreases |s|
  {
    if s != [] && IsSpace(s[0]) then TrimStart(s[1..]) else s
  }

  function TrimEnd(s: string): string
    decreases |s|
  {
    if s != [] && IsSpace(s[|s| - 1]) then TrimEnd(s[..|s| - 1]) else s
  }

  /** `s.trim()`. */
  function Trim(s: string): string {
    TrimEnd(TrimStart(s))
  }

  lemma {:induction false} TrimStartSlice(s: string) returns (i: nat)
    ensures i <= |s| && TrimStart(s) == s[i..] && AllSpace(s[..i])
    ensures TrimStart(s) == [] || !IsSpace(TrimStart(s)[0])
    decreases |s|
  {
    if s != [] && IsSpace(s[0]) {
      var j := TrimStartSlice(s[1..]);
      i := j + 1;
      assert s[1..][j..] == s[i..];
      assert forall k :: 0 < k < i ==> s[k] == s[1..][..j][k - 1];
    } else {
      i := 0;
    }
  }

  lemma {:induction false} TrimEndSlice(s: string) returns (j: nat)
    ensures j <= |s| && TrimEnd(s) == s[..j] && AllSpace(s[j..])
    ensures TrimEnd(s) == [] || !IsSpace(TrimEnd(s)[|TrimEnd(s)| - 1])
    decreases |s|
  {
    if s != [] && IsSpace(s[|s| - 1]) {
      var n := |s| - 1;
      j := TrimEndSlice(s[..n]);
      assert s[..n][..j] == s[..j];
      forall k | 0 <= k < |s[j..]| ensures IsSpace(s[j..][k]) {
        if j + k < n {
          assert s[j..][k] == s[..n][j..][k];
        } else {
          assert s[j..][k] == s[n];
        }
      }
    } else {
      j := |s|;
    }
  }

  lemma {:induction false} TrimEndKeepsStart(s: string)
    requires s == [] || !IsSpace(s[0])
    ensures TrimEnd(s) == [] || !IsSpace(TrimEnd(s)[0])
    decreases |s|
  {
    if s != [] && IsSpace(s[|s| - 1]) {
      var n := |s| - 1;
      if n > 0 {
        assert s[..n][0] == s[0];
      }
      TrimEndKeepsStart(s[..n]);
    }
  }

  /** `s.trim()` is the stretch of `s` left once the whitespace at both ends
      is removed: a slice of `s`, surrounded only by whitespace, and with no
      whitespace at either end of its own. */
  lemma TrimSpec(s: string)
    ensures Trimmed(Trim(s))
    ensures exists i, j :: 0 <= i <= j <= |s| && Trim(s) == s[i..j] && AllSpace(s[..i]) && AllSpace(s[j..])
  {
    var i := TrimStartSlice(s);
    var t := s[i..];
    var j := TrimEndSlice(t);
    TrimEndKeepsStart(t);
    assert Trim(s) == s[i..i + j];
    var rest := s[i + j..];
    forall k | 0 <= k < |rest| ensures IsSpace(rest[k]) {
      assert rest[k] == t[j..][k];
    }
  }

  /** Trimming leaves nothing exactly when the string is all whitespace. */
  lemma TrimEmptyIff(s: string)
    ensures Trim(s) == "" <==> AllSpace(s)
  {
    TrimSpec(s);
    var i, j :| 0 <= i <= j <= |s| && Trim(s) == s[i..j] && AllSpace(s[..i]) && AllSpace(s[j..]);
    if Trim(s) == "" {
      assert i == j;
      forall k | 0 <= k < |s| ensures IsSpace(s[k]) {
        if k < i {
          assert s[k] == s[..i][k];
        } else {
          assert s[k] == s[j..][k - j];
        }
      }
    } else {
      assert !IsSpace(Trim(s)[0]) && Trim(s)[0] == s[i];
    }
  }

  lemma {:induction false} TrimStartTrimmed(s: string)
    requires s == [] || !IsSpace(s[0])
    ensures TrimStart(s) == s
  {
  }

  lemma {:induction false} TrimEndTrimmed(s: string)
    requires s == [] || !IsSpace(s[|s| - 1])
    ensures TrimEnd(s) == s
  {
  }

  /** Trimming a trimmed string changes nothing. */
  lemma TrimIdempotent(s: string)
    ensures Trim(Trim(s)) == Trim(s)
  {
    TrimSpec(s);
    var t := Trim(s);
    TrimStartTrimmed(t);
    TrimEndTrimmed(t);
  }

  /** `s.includes(t)`. */
  predicate Includes(s: string, t: string)
    decreases |s|
  {
    |t| <= |s| && (s[..|t|] == t || (s != [] && Includes(s[1..], t)))
  }

  predicate OccursAt(s: string, t: string, i: int) {
    0 <= i && i + |t| <= |s| && s[i..i + |t|] == t
  }

  /** `s.includes(t)` holds exactly when `t` occurs somewhere in `s`. */
  lemma {:induction false} IncludesIff(s: string, t: string)
    ensures Includes(s, t) <==> exists i :: OccursAt(s, t, i)
    decreases |s|
  {
    if |t| <= |s| {
      if s[..|t|] == t {
        assert s[0..0 + |t|] == s[..|t|];
        assert OccursAt(s, t, 0);
      }
      if s != [] {
        IncludesIff(s[1..], t);
        if exists i :: OccursAt(s[1..], t, i) {
          var i :| OccursAt(s[1..], t, i);
          assert s[i + 1..i + 1 + |t|] == s[1..][i..i + |t|];
          assert OccursAt(s, t, i + 1);
        }
        if i :| OccursAt(s, t, i) {
          if i > 0 {
            assert s[1..][i - 1..i - 1 + |t|] == s[i..i + |t|];
            assert OccursAt(s[1..], t, i - 1);
          } else {
            assert s[..|t|] == s[0..0 + |t|];
          }
        }
      }
    }
  }

  /** Whatever is spliced between two strings is included in the result. */
  lemma IncludesSplice(a: string, t: string, b: string)
    ensures Includes(a + t + b, t)
  {
    var s := a + t + b;
    assert s[|a|..|a| + |t|] == t;
    assert OccursAt(s, t, |a|);
    IncludesIff(s, t);
  }

  /** `s.substring(0, n)`: the first `n` characters, or all of a shorter string. */
  function Prefix(s: string, n: nat): (r: string)
    ensures |r| == if |s| < n then |s| else n
    ensures r <= s
  {
    if |s| <= n then s else s[..n]
  }
}
