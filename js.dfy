/** JavaScript values as the program sees them (parsed JSON plus `undefined`),
    with the handful of built-in operations the core applies to them:
    truthiness, `||`, property reads, `Array.isArray`, `toLowerCase`,
    `includes`, `endsWith`, `split`, string conversion and `+ 1`. */
module Js {
  import opened Wrappers

  /** A JavaScript value. Numbers are integers here: fractional numbers and
      NaN never reach the modelled decisions. An object is a map from keys
      to values; the order of its keys is not observed by the core. */
  datatype Json =
    | Undefined
    | Null
    | Bool(b: bool)
    | Num(n: int)
    | Str(s: string)
    | Arr(items: seq<Json>)
    | Obj(fields: map<string, Json>)

  /** JavaScript truthiness: `undefined`, `null`, `false`, `0` and `""` are falsy. */
  predicate Truthy(v: Json) {
    match v
    case Undefined => false
    case Null => false
    case Bool(b) => b
    case Num(n) => n != 0
    case Str(s) => s != ""
    case Arr(_) => true
    case Obj(_) => true
  }

  /** `v == null`: reading a property of such a value throws a TypeError. */
  predicate Nullish(v: Json) {
    v.Undefined? || v.Null?
  }

  /** `v.k` on a receiver that is not nullish: an object's own field, and
      `undefined` for every other key and every other kind of value. */
  function Get(v: Json, k: string): Json {
    if v.Obj? && k in v.fields then v.fields[k] else Undefined
  }

  /** The keys an object literal inherits from `Object.prototype` whose
      names are all lower case, so that a lookup by a lower-cased name can
      reach them: `constructor` is the function `Object`, and `__proto__`
      is `Object.prototype` itself, which cannot be called. */
  predicate InheritedKey(k: string) {
    k == "constructor" || k == "__proto__"
  }

  /** `v.k` in full: throws when `v` is `null` or `undefined`. */
  function Prop(v: Json, k: string): (r: Result<Json>)
    ensures r.Throw? <==> Nullish(v)
    ensures r.Ok? ==> r.value == Get(v, k)
  {
    if Nullish(v) then Throw else Ok(Get(v, k))
  }

  /** `a || b`. */
  function Or(a: Json, b: Json): (r: Json)
    ensures Truthy(a) ==> r == a
    ensures !Truthy(a) ==> r == b
  {
    if Truthy(a) then a else b
  }

  /** Concatenation regrouped, as a step of its own. */
  lemma Assoc<T>(a: seq<T>, b: seq<T>, c: seq<T>)
    ensures a + b + c == a + (b + c)
  {
  }

  /** `s || dflt` on a string: the default replaces only the empty string. */
  lemma OrString(s: string, dflt: string)
    ensures Or(Str(s), Str(dflt)) == Str(if s == "" then dflt else s)
  {
  }

  /** `a || null`: a truthy value or `null`, never `undefined`. */
  function OrNull(a: Json): (r: Json)
    ensures !r.Undefined?
    ensures Truthy(r) <==> Truthy(a)
    ensures Truthy(a) ==> r == a
  {
    Or(a, Null)
  }

  /** `Array.isArray(v) ? v : []`. */
  function ListOrEmpty(v: Json): (r: seq<Json>)
    ensures v.Arr? ==> r == v.items
    ensures !v.Arr? ==> r == []
  {
    if v.Arr? then v.items else []
  }

  /** `Array.isArray(v) ? v : [v]`: a lone value becomes a one-element list. */
  function Wrap(v: Json): (r: seq<Json>)
    ensures |r| >= 1 || v.Arr?
    ensures !v.Arr? ==> r == [v]
  {
    if v.Arr? then v.items else [v]
  }

  /** `{ ...v }` for a value that is not nullish, seen as an object's fields.
      Spreading a string or an array would give index keys; the core never
      spreads those into anything it reads back. */
  function Fields(v: Json): map<string, Json> {
    if v.Obj? then v.fields else map[]
  }

  /** `v.length` where it is a number: arrays and strings, and objects
      whose own `length` field is a number. */
  function LengthOf(v: Json): (r: Option<int>)
    ensures v.Arr? ==> r == Some(|v.items|)
    ensures v.Str? ==> r == Some(|v.s|)
    ensures r.Some? ==> v.Arr? || v.Str? || v.Obj?
  {
    match v
    case Arr(items) => Some(|items|)
    case Str(s) => Some(|s|)
    case Obj(_) => var n := Get(v, "length"); if n.Num? then Some(n.n) else None
    case _ => None
  }

  /** `v[i]`: an array's element, a string's one-character string, or the
      object field named by the decimal index. */
  function At(v: Json, i: nat): Json {
    match v
    case Arr(items) => if i < |items| then items[i] else Undefined
    case Str(s) => if i < |s| then Str([s[i]]) else Undefined
    case Obj(_) => Get(v, NatToString(i))
    case _ => Undefined
  }

  /** `v[0], ..., v[v.length - 1]`, read by a counting loop. */
  function Elements(v: Json): (r: seq<Json>)
    ensures v.Arr? ==> r == v.items
    ensures LengthOf(v).Some? && LengthOf(v).value > 0 ==> |r| == LengthOf(v).value
    ensures !(LengthOf(v).Some? && LengthOf(v).value > 0) ==> r == []
    ensures forall i :: 0 <= i < |r| ==> r[i] == At(v, i)
  {
    if v.Arr? then v.items
    else match LengthOf(v)
      case Some(n) => if n > 0 then seq(n, i requires 0 <= i < n => At(v, i)) else []
      case None => []
  }

  // ---------------------------------------------------------------------
  // Strings

  function LowerChar(c: char): char {
    if 'A' <= c <= 'Z' then (c as int + 32) as char else c
  }

  /** `s.toLowerCase()` on ASCII letters (other characters are kept). */
  function Lower(s: string): (r: string)
    ensures |r| == |s|
  {
    seq(|s|, i requires 0 <= i < |s| => LowerChar(s[i]))
  }

  lemma LowerIdempotent(s: string)
    ensures Lower(Lower(s)) == Lower(s)
  {
  }

  /** A string with no upper-case ASCII letter is its own lower case. */
  lemma LowerNoOp(s: string)
    requires forall i :: 0 <= i < |s| ==> !('A' <= s[i] <= 'Z')
    ensures Lower(s) == s
  {
  }

  lemma LowerNoUpper(s: string, i: int)
    requires 0 <= i < |s|
    ensures !('A' <= Lower(s)[i] <= 'Z')
  {
  }

  predicate StartsWith(s: string, p: string) {
    |p| <= |s| && s[..|p|] == p
  }

  /** `s.endsWith(p)`. */
  predicate EndsWith(s: string, p: string) {
    |p| <= |s| && s[|s| - |p|..] == p
  }

  /** `s.includes(sub)`, searched from the left one position at a time. */
  predicate Contains(s: string, sub: string)
    decreases |s|
  {
    StartsWith(s, sub) || (s != [] && Contains(s[1..], sub))
  }

  /** `sub` occurs in `s` starting at position `i`. */
  predicate OccursAt(s: string, sub: string, i: nat) {
    i + |sub| <= |s| && s[i..i + |sub|] == sub
  }

  /** Contains holds exactly when `sub` occurs at some position of `s`. */
  lemma {:induction false} ContainsIffOccurs(s: string, sub: string)
    ensures Contains(s, sub) <==> exists i: nat :: OccursAt(s, sub, i)
    decreases |s|
  {
    if StartsWith(s, sub) {
      assert OccursAt(s, sub, 0);
    } else if s == [] {
      assert |sub| > 0;
    } else {
      ContainsIffOccurs(s[1..], sub);
      if Contains(s[1..], sub) {
        var j: nat :| OccursAt(s[1..], sub, j);
        assert s[j + 1..j + 1 + |sub|] == s[1..][j..j + |sub|];
        assert OccursAt(s, sub, j + 1);
      }
      if exists i: nat :: OccursAt(s, sub, i) {
        var i: nat :| OccursAt(s, sub, i);
        if |sub| <= |s| {
          assert s[0..0 + |sub|] == s[..|sub|];
        }
        assert i != 0;
        assert s[1..][i - 1..i - 1 + |sub|] == s[i..i + |sub|];
        assert OccursAt(s[1..], sub, i - 1);
      }
    }
  }

  /** An occurrence in a suffix is an occurrence in the whole string. */
  lemma {:induction false} ContainsSuffix(s: string, k: nat, sub: string)
    requires k <= |s| && Contains(s[k..], sub)
    ensures Contains(s, sub)
    decreases k
  {
    if k > 0 {
      assert s[1..][k - 1..] == s[k..];
      ContainsSuffix(s[1..], k - 1, sub);
    }
  }

  /** `v.includes(sub)` on any value: strings search for a substring, arrays
      for an element equal to the string; anything else has no `includes`
      method and throws. */
  function Includes(v: Json, sub: string): (r: Result<bool>)
    ensures r.Ok? <==> v.Str? || v.Arr?
    ensures v.Str? ==> r == Ok(Contains(v.s, sub))
    ensures v.Arr? ==> r == Ok(Str(sub) in v.items)
  {
    match v
    case Str(s) => Ok(Contains(s, sub))
    case Arr(items) => Ok(Str(sub) in items)
    case _ => Throw
  }

  /** `v.toLowerCase()` on any value: only strings have the method. */
  function LowerOf(v: Json): (r: Result<string>)
    ensures r.Ok? <==> v.Str?
    ensures v.Str? ==> r == Ok(Lower(v.s))
  {
    if v.Str? then Ok(Lower(v.s)) else Throw
  }

  // ---------------------------------------------------------------------
  // split('.') and the last segment

  /** `s.split([c])`: the pieces between occurrences of `c`, in order. */
  function Split(s: string, c: char): (parts: seq<string>)
    ensures |parts| >= 1
    ensures forall i :: 0 <= i < |parts| ==> c !in parts[i]
    decreases |s|
  {
    if s == [] then [""]
    else
      var rest := Split(s[1..], c);
      if s[0] == c then [""] + rest
      else [[s[0]] + rest[0]] + rest[1..]
  }

  /** `parts.join([c])`. */
  function Join(parts: seq<string>, c: char): string
    requires |parts| >= 1
    decreases |parts|
  {
    if |parts| == 1 then parts[0] else parts[0] + [c] + Join(parts[1..], c)
  }

  /** Joining the pieces of a split gives back the string. */
  lemma {:induction false} JoinSplit(s: string, c: char)
    ensures Join(Split(s, c), c) == s
    decreases |s|
  {
    if s != [] {
      var rest := Split(s[1..], c);
      JoinSplit(s[1..], c);
      if s[0] == c {
        assert Split(s, c) == [""] + rest;
        assert Split(s, c)[1..] == rest;
      } else {
        var parts := Split(s, c);
        assert parts == [[s[0]] + rest[0]] + rest[1..];
        if |rest| == 1 {
          assert |parts| == 1;
        } else {
          assert parts[1..] == rest[1..];
          assert Join(rest, c) == rest[0] + [c] + Join(rest[1..], c);
        }
      }
    }
  }

  /** Splitting a join of separator-free pieces gives back the pieces. */
  lemma {:induction false} SplitJoin(parts: seq<string>, c: char)
    requires |parts| >= 1
    requires forall i :: 0 <= i < |parts| ==> c !in parts[i]
    ensures Split(Join(parts, c), c) == parts
    decreases |parts|, |parts[0]|
  {
    var p := parts[0];
    if |parts| == 1 {
      SplitNoSeparator(p, c);
    } else if p == [] {
      var tail := Join(parts[1..], c);
      assert Join(parts, c) == [c] + tail;
      assert ([c] + tail)[1..] == tail;
      SplitJoin(parts[1..], c);
      assert Split(Join(parts, c), c) == [""] + parts[1..];
    } else {
      var shorter := [p[1..]] + parts[1..];
      assert shorter[1..] == parts[1..];
      assert forall i :: 0 <= i < |shorter| ==> c !in shorter[i] by {
        forall i | 0 <= i < |shorter| ensures c !in shorter[i] {
          if i == 0 {
            assert forall x :: x in p[1..] ==> x in p;
          } else {
            assert shorter[i] == parts[i];
          }
        }
      }
      SplitJoin(shorter, c);
      var j := Join(parts, c);
      assert j == [p[0]] + Join(shorter, c);
      assert j[1..] == Join(shorter, c);
      assert j[0] == p[0] && p[0] != c;
      assert [p[0]] + p[1..] == p;
    }
  }

  lemma {:induction false} SplitNoSeparator(s: string, c: char)
    requires c !in s
    ensures Split(s, c) == [s]
    decreases |s|
  {
    if s != [] {
      assert c !in s[1..] by {
        assert forall x :: x in s[1..] ==> x in s;
      }
      SplitNoSeparator(s[1..], c);
      assert [s[0]] + s[1..] == s;
    }
  }

  /** `s.split([c]).pop()`: what follows the last `c` (all of `s` if none). */
  function LastSegment(s: string, c: char): (r: string)
    ensures c !in r
  {
    var parts := Split(s, c);
    parts[|parts| - 1]
  }

  /** The last segment is a suffix of the string. */
  lemma {:induction false} LastSegmentIsSuffix(s: string, c: char)
    ensures EndsWith(s, LastSegment(s, c))
    decreases |s|
  {
    if s != [] {
      LastSegmentIsSuffix(s[1..], c);
      var rest := Split(s[1..], c);
      var r := LastSegment(s, c);
      if s[0] == c || |rest| > 1 {
        assert r == rest[|rest| - 1];
        assert s[|s| - |r|..] == s[1..][|s[1..]| - |r|..];
      } else {
        JoinSplit(s[1..], c);
        assert r == [s[0]] + rest[0];
        assert rest[0] == s[1..];
        assert s == [s[0]] + s[1..];
      }
    }
  }

  // ---------------------------------------------------------------------
  // Number and value to string

  function Digit(d: nat): (c: char)
    requires d < 10
    ensures '0' <= c <= '9'
  {
    ('0' as int + d) as char
  }

  /** The decimal numeral of `n`, as a template literal prints it. */
  function NatToString(n: nat): (r: string)
    ensures |r| >= 1
    ensures forall i :: 0 <= i < |r| ==> '0' <= r[i] <= '9'
    ensures r[0] == '0' ==> n == 0
    decreases n
  {
    if n < 10 then [Digit(n)] else NatToString(n / 10) + [Digit(n % 10)]
  }

  /** Reads back a string of decimal digits. */
  function ParseDigits(s: string): nat
    requires forall i :: 0 <= i < |s| ==> '0' <= s[i] <= '9'
    decreases |s|
  {
    if s == [] then 0
    else 10 * ParseDigits(s[..|s| - 1]) + (s[|s| - 1] as int - '0' as int)
  }

  /** NatToString loses nothing: reading the numeral back gives `n`. */
  lemma {:induction false} ParseNatToString(n: nat)
    ensures ParseDigits(NatToString(n)) == n
    decreases n
  {
    var r := NatToString(n);
    if n >= 10 {
      ParseNatToString(n / 10);
      assert r[..|r| - 1] == NatToString(n / 10);
    }
  }

  /** Two different numbers never print the same. */
  lemma NatToStringInjective(m: nat, n: nat)
    requires NatToString(m) == NatToString(n)
    ensures m == n
  {
    ParseNatToString(m);
    ParseNatToString(n);
  }

  function IntToString(n: int): string {
    if n < 0 then "-" + NatToString(-n) else NatToString(n)
  }

  /** `String(v)`, the conversion a template literal applies: arrays join
      their elements with commas (null and undefined elements print empty),
      objects print `[object Object]`. */
  function Show(v: Json): string
    decreases v
  {
    match v
    case Undefined => "undefined"
    case Null => "null"
    case Bool(b) => if b then "true" else "false"
    case Num(n) => IntToString(n)
    case Str(s) => s
    case Arr(items) => ShowItems(v, 0)
    case Obj(_) => "[object Object]"
  }

  function ShowItems(v: Json, k: nat): string
    requires v.Arr? && k <= |v.items|
    decreases v, |v.items| - k
  {
    if k == |v.items| then ""
    else
      var e := v.items[k];
      var here := if Nullish(e) then "" else Show(e);
      if k + 1 == |v.items| then here else here + "," + ShowItems(v, k + 1)
  }

  /** `v + 1` for a value that is not `undefined` (which would give NaN):
      numbers add, null and booleans convert to numbers, strings, arrays and
      objects concatenate the text "1". */
  function AddOne(v: Json): (r: Json)
    requires !v.Undefined?
    ensures v.Num? ==> r == Num(v.n + 1)
    ensures v.Str? ==> r == Str(v.s + "1")
  {
    match v
    case Null => Num(1)
    case Bool(b) => Num(if b then 2 else 1)
    case Num(n) => Num(n + 1)
    case _ => Str(Show(v) + "1")
  }
}
