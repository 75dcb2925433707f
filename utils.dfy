/**
 * The shared string helper of the watchers (utils/utils.js): `capitalize`,
 * which upper-cases the first character of a word and lower-cases the rest.
 * Case mapping is modelled for the ASCII letters only.
 */
module Utils {
  import opened Js

  /** `c.toUpperCase()` for one ASCII character. */
  function Upper(c: char): char {
    if 'a' <= c <= 'z' then (c as int - 32) as char else c
  }

  /** `c.toLowerCase()` for one ASCII character. */
  function Lower(c: char): char {
    if 'A' <= c <= 'Z' then (c as int + 32) as char else c
  }

  /** `s.toLowerCase()`. */
  function LowerAll(s: string): string
    decreases |s|
  {
    if s == [] then [] else [Lower(s[0])] + LowerAll(s[1..])
  }

  /** `capitalize(word)`: a falsy word (null, undefined, "", 0, false) gives
      ""; a string gives its first character upper-cased followed by the rest
      lower-cased; any other value has no `charAt`, so the call throws. */
  function Capitalize(word: Value): (r: Result<string>)
    ensures !Truthy(word) ==> r == Ok("")
    ensures word.Str? ==> r.Ok?
    ensures Truthy(word) && !word.Str? ==> r == Throws
  {
    if !Truthy(word) then Ok("")
    else if word.Str? then Ok([Upper(word.s[0])] + LowerAll(word.s[1..]))
    else Throws
  }

  lemma {:induction false} LowerAllAt(s: string)
    ensures |LowerAll(s)| == |s|
    ensures forall i :: 0 <= i < |s| ==> LowerAll(s)[i] == Lower(s[i])
    decreases |s|
  {
    if s != [] {
      LowerAllAt(s[1..]);
      assert forall i :: 1 <= i < |s| ==> s[1..][i - 1] == s[i];
    }
  }

  /** For a non-empty string, the result keeps the length, starts with the
      upper case of the first character and continues with the lower case of
      every later one. */
  lemma CapitalizeShape(w: string)
    requires w != ""
    ensures Capitalize(Str(w)).Ok?
    ensures var r := Capitalize(Str(w)).value;
      && |r| == |w|
      && r[0] == Upper(w[0])
      && forall i :: 1 <= i < |w| ==> r[i] == Lower(w[i])
  {
    LowerAllAt(w[1..]);
  }

  /** Capitalising twice is capitalising once. */
  lemma CapitalizeIdempotent(w: string)
    ensures Capitalize(Str(w)).Ok?
    ensures Capitalize(Str(Capitalize(Str(w)).value)) == Capitalize(Str(w))
  {
    if w != "" {
      var r := Capitalize(Str(w)).value;
      CapitalizeShape(w);
      CapitalizeShape(r);
      var rr := Capitalize(Str(r)).value;
      assert |rr| == |r|;
      forall i | 0 <= i < |r| ensures rr[i] == r[i] {
      }
      assert rr == r;
    }
  }
}
