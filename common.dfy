/**
 * Values and helpers shared by every part of the model: optional values,
 * JSON request bodies, JavaScript numbers, and the string operations the
 * TypeScript code relies on (`trim`, `toLowerCase`, `split`, `join`,
 * `Number(...)`, comparison).
 */
module Common {

  datatype Option<T> = None | Some(value: T)

  /** A JavaScript number as produced by `Number(...)`: finite, NaN or infinite. */
  datatype Number = Finite(v: real) | NaN | PosInf | NegInf

  /** A JSON value as read from a request body or a file; `Missing` is `undefined`. */
  datatype Json =
    | Missing
    | Null
    | Bool(b: bool)
    | Num(n: real)
    | Str(s: string)
    | Arr(items: seq<Json>)
    | Obj(fields: map<string, Json>)

  /** JavaScript truthiness of a JSON value (`!!v`). */
  predicate Truthy(j: Json) {
    match j
    case Missing => false
    case Null => false
    case Bool(b) => b
    case Num(n) => n != 0.0
    case Str(s) => s != ""
    case Arr(_) => true
    case Obj(_) => true
  }

  /** Property access `v.key`: `undefined` unless `v` is an object holding `key`. */
  function Get(j: Json, key: string): Json {
    if j.Obj? && key in j.fields then j.fields[key] else Missing
  }

  /** `Number.isInteger(n)` */
  predicate IsInteger(n: Number) {
    n.Finite? && n.v.Floor as real == n.v
  }

  /** `Number.isFinite(n)` */
  predicate IsFinite(n: Number) {
    n.Finite?
  }

  // ---------------------------------------------------------------------
  // Characters

  /** The characters JavaScript's `trim` removes and regular expression `\s` matches. */
  predicate IsSpace(c: char) {
    var k := c as int;
    k == 9 || k == 10 || k == 11 || k == 12 || k == 13 || k == 32 || k == 0xA0 || k == 0x1680
    || (0x2000 <= k <= 0x200A) || k == 0x2028 || k == 0x2029 || k == 0x202F || k == 0x205F
    || k == 0x3000 || k == 0xFEFF
  }

  predicate IsDigit(c: char) {
    '0' <= c <= '9'
  }

  predicate AllDigits(s: string) {
    forall i :: 0 <= i < |s| ==> IsDigit(s[i])
  }

  /** `toLowerCase`, restricted to the ASCII letters. */
  function Lower(c: char): (r: char)
    ensures IsDigit(c) ==> r == c
    ensures IsSpace(c) <==> IsSpace(r)
  {
    if 'A' <= c <= 'Z' then (c as int + 32) as char else c
  }

  function LowerStr(s: string): (r: string)
    ensures |r| == |s|
    ensures forall i :: 0 <= i < |s| ==> r[i] == Lower(s[i])
  {
    if s == [] then [] else [Lower(s[0])] + LowerStr(s[1..])
  }

  lemma LowerIdempotent(c: char)
    ensures Lower(Lower(c)) == c || Lower(Lower(c)) == Lower(c)
    ensures Lower(Lower(c)) == Lower(c)
  {
  }

  lemma {:induction false} LowerStrIdempotent(s: string)
    ensures LowerStr(LowerStr(s)) == LowerStr(s)
  {
    var t := LowerStr(s);
    assert forall i :: 0 <= i < |s| ==> LowerStr(t)[i] == Lower(Lower(s[i]));
    forall i | 0 <= i < |s| ensures LowerStr(t)[i] == t[i] {
      LowerIdempotent(s[i]);
    }
  }

  /** Case-insensitive equality as the code writes it: `a.toLowerCase() === b.toLowerCase()`. */
  predicate EqualsIgnoreCase(a: string, b: string) {
    LowerStr(a) == LowerStr(b)
  }

  // ---------------------------------------------------------------------
  // trim

  function TrimStart(s: string): (r: string)
    ensures |r| <= |s| && r == s[|s| - |r|..]
    ensures r == [] || !IsSpace(r[0])
    ensures forall i :: 0 <= i < |s| - |r| ==> IsSpace(s[i])
  {
    if |s| > 0 && IsSpace(s[0]) then TrimStart(s[1..]) else s
  }

  function TrimEnd(s: string): (r: string)
    ensures |r| <= |s| && r == s[..|r|]
    ensures r == [] || !IsSpace(r[|r| - 1])
    ensures forall i :: |r| <= i < |s| ==> IsSpace(s[i])
  {
    if |s| > 0 && IsSpace(s[|s| - 1]) then TrimEnd(s[..|s| - 1]) else s
  }

  /** `s.trim()`: the longest infix with no white space at either end. */
  function Trim(s: string): (r: string)
    ensures r == [] || (!IsSpace(r[0]) && !IsSpace(r[|r| - 1]))
    ensures |r| <= |s|
  {
    TrimEnd(TrimStart(s))
  }

  lemma TrimIdempotent(s: string)
    ensures Trim(Trim(s)) == Trim(s)
  {
    var t := Trim(s);
    assert TrimStart(t) == t;
    assert TrimEnd(t) == t;
  }

  /** A string that consists of white space only, i.e. `s.trim().length === 0`. */
  predicate Blank(s: string) {
    forall i :: 0 <= i < |s| ==> IsSpace(s[i])
  }

  lemma TrimStartBlank(s: string)
    ensures TrimStart(s) == [] <==> Blank(s)
  {
    var r := TrimStart(s);
    if r != [] {
      assert r[0] == s[|s| - |r|];
    }
  }

  lemma TrimEmptyIffBlank(s: string)
    ensures Trim(s) == [] <==> Blank(s)
  {
    TrimStartBlank(s);
    var t := TrimStart(s);
    if t != [] {
      assert !IsSpace(t[0]);
      assert TrimEnd(t) != [];
    }
  }

  // ---------------------------------------------------------------------
  // Prefixes, suffixes, padding

  predicate StartsWith(s: string, p: string) {
    |p| <= |s| && s[..|p|] == p
  }

  predicate EndsWith(s: string, p: string) {
    |p| <= |s| && s[|s| - |p|..] == p
  }

  /** `s.padStart(width, c)` for a one-character pad. */
  function PadStart(s: string, width: nat, c: char): (r: string)
    ensures |r| == if |s| >= width then |s| else width
    ensures EndsWith(r, s)
    ensures forall i :: 0 <= i < |r| - |s| ==> r[i] == c
  {
    if |s| >= width then s
    else
      var pad := seq(width - |s|, _ => c);
      assert (pad + s)[|pad|..] == s;
      pad + s
  }

  /** White space in front of a string that does not start with white space is what `trimStart` removes. */
  lemma {:induction false} TrimStartBlankPrefix(pre: string, s: string)
    requires Blank(pre)
    requires s == [] || !IsSpace(s[0])
    ensures TrimStart(pre + s) == s
  {
    if pre != [] {
      assert (pre + s)[1..] == pre[1..] + s;
      TrimStartBlankPrefix(pre[1..], s);
    } else {
      assert pre + s == s;
    }
  }

  /** `s.replaceAll(c, "")`: `s` with every `c` removed. */
  function RemoveChar(s: string, c: char): (r: string)
    ensures c !in r
    ensures |r| <= |s|
  {
    if s == [] then [] else (if s[0] == c then [] else [s[0]]) + RemoveChar(s[1..], c)
  }

  // ---------------------------------------------------------------------
  // Concatenation, joining, splitting

  function Concat(ss: seq<string>): (r: string)
  {
    if ss == [] then "" else ss[0] + Concat(ss[1..])
  }

  lemma {:induction false} ConcatAppend(a: seq<string>, b: seq<string>)
    ensures Concat(a + b) == Concat(a) + Concat(b)
  {
    if a == [] {
      assert a + b == b;
    } else {
      assert (a + b)[1..] == a[1..] + b;
      ConcatAppend(a[1..], b);
    }
  }

  /** `s.includes(t)` */
  predicate Contains(s: string, t: string) {
    exists i :: 0 <= i <= |s| && StartsWith(s[i..], t)
  }

  /** `ss.join(sep)` */
  function Join(ss: seq<string>, sep: string): string
  {
    if ss == [] then "" else if |ss| == 1 then ss[0] else ss[0] + sep + Join(ss[1..], sep)
  }

  lemma {:induction false} JoinSnoc(ss: seq<string>, x: string, sep: string)
    requires ss != []
    ensures Join(ss + [x], sep) == Join(ss, sep) + sep + x
  {
    if |ss| == 1 {
      assert ss + [x] == [ss[0], x];
    } else {
      assert (ss + [x])[1..] == ss[1..] + [x];
      JoinSnoc(ss[1..], x, sep);
    }
  }

  /** Joining two non-empty lists puts one separator between their joins. */
  lemma {:induction false} JoinAppend(a: seq<string>, b: seq<string>, sep: string)
    requires a != [] && b != []
    ensures Join(a + b, sep) == Join(a, sep) + sep + Join(b, sep)
  {
    if |a| == 1 {
      assert (a + b)[1..] == b;
    } else {
      assert (a + b)[1..] == a[1..] + b;
      JoinAppend(a[1..], b, sep);
    }
  }

  lemma {:induction false} JoinLength(ss: seq<string>, sep: string)
    ensures ss != [] ==> |Join(ss, sep)| >= |ss[0]|
    ensures |Join(ss, sep)| == SumLengths(ss) + (if ss == [] then 0 else (|ss| - 1) * |sep|)
  {
    if |ss| > 1 {
      JoinLength(ss[1..], sep);
    }
  }

  function SumLengths(ss: seq<string>): nat
  {
    if ss == [] then 0 else |ss[0]| + SumLengths(ss[1..])
  }

  /** The index of the first occurrence of `c` in `s`, or `|s|`. */
  function IndexOf(s: string, c: char): (k: nat)
    ensures k <= |s|
    ensures forall i :: 0 <= i < k ==> s[i] != c
    ensures k < |s| ==> s[k] == c
  {
    if s == [] then 0 else if s[0] == c then 0 else 1 + IndexOf(s[1..], c)
  }

  /** `s.split(c)` for a one-character separator. */
  function Split(s: string, c: char): (r: seq<string>)
    ensures |r| >= 1
    ensures forall i :: 0 <= i < |r| ==> c !in r[i]
    decreases |s|
  {
    var k := IndexOf(s, c);
    if k == |s| then [s] else [s[..k]] + Split(s[k + 1..], c)
  }

  lemma {:induction false} SplitJoin(s: string, c: char)
    ensures Join(Split(s, c), [c]) == s
    decreases |s|
  {
    var k := IndexOf(s, c);
    if k < |s| {
      SplitJoin(s[k + 1..], c);
      var rest := Split(s[k + 1..], c);
      assert Split(s, c) == [s[..k]] + rest;
      assert s == s[..k] + [c] + s[k + 1..];
    }
  }

  lemma {:induction false} JoinSplit(ss: seq<string>, c: char)
    requires ss != []
    requires forall i :: 0 <= i < |ss| ==> c !in ss[i]
    ensures Split(Join(ss, [c]), c) == ss
  {
    if |ss| == 1 {
      NoSepSplit(ss[0], c);
    } else {
      JoinSplit(ss[1..], c);
      var j := Join(ss, [c]);
      assert j == ss[0] + [c] + Join(ss[1..], [c]);
      IndexOfPrefix(ss[0], Join(ss[1..], [c]), c);
      assert j[|ss[0]| + 1..] == Join(ss[1..], [c]);
      assert j[..|ss[0]|] == ss[0];
    }
  }

  lemma NoSepSplit(s: string, c: char)
    requires c !in s
    ensures Split(s, c) == [s]
  {
    assert forall i :: 0 <= i < |s| ==> s[i] != c;
  }

  lemma {:induction false} IndexOfPrefix(a: string, b: string, c: char)
    requires c !in a
    ensures IndexOf(a + [c] + b, c) == |a|
  {
    if a != [] {
      assert (a + [c] + b)[1..] == a[1..] + [c] + b;
      IndexOfPrefix(a[1..], b, c);
    }
  }

  /** The index of the first white-space character of `s`, or `|s|`. */
  function IndexOfSpace(s: string): (k: nat)
    ensures k <= |s|
    ensures forall i :: 0 <= i < k ==> !IsSpace(s[i])
    ensures k < |s| ==> IsSpace(s[k])
  {
    if s == [] then 0 else if IsSpace(s[0]) then 0 else 1 + IndexOfSpace(s[1..])
  }

  /** A word without white space is a single piece. */
  lemma {:induction false} IndexOfSpaceNone(w: string)
    requires forall i :: 0 <= i < |w| ==> !IsSpace(w[i])
    ensures IndexOfSpace(w) == |w|
  {
    if w != [] {
      assert forall i :: 0 <= i < |w[1..]| ==> w[1..][i] == w[i + 1];
      IndexOfSpaceNone(w[1..]);
    }
  }

  /** `s.split(/\s+/)`: the pieces between maximal runs of white space. */
  function SplitWs(s: string): (r: seq<string>)
    ensures |r| >= 1
    ensures forall i :: 0 <= i < |r| ==> forall j :: 0 <= j < |r[i]| ==> !IsSpace(r[i][j])
    decreases |s|
  {
    var k := IndexOfSpace(s);
    if k == |s| then [s] else [s[..k]] + SplitWs(TrimStart(s[k..]))
  }

  lemma {:induction false} SplitWsTokens(s: string)
    requires s == Trim(s) && s != []
    ensures forall i :: 0 <= i < |SplitWs(s)| ==> SplitWs(s)[i] != []
  {
    SplitWsNonEmptyFrom(s);
  }

  lemma {:induction false} SplitWsNonEmptyFrom(s: string)
    requires s != [] && !IsSpace(s[0]) && !IsSpace(s[|s| - 1])
    ensures forall i :: 0 <= i < |SplitWs(s)| ==> SplitWs(s)[i] != []
    decreases |s|
  {
    var k := IndexOfSpace(s);
    if k < |s| {
      var rest := TrimStart(s[k..]);
      assert k > 0;
      assert !IsSpace(s[k..][|s| - 1 - k]);
      assert rest != [];
      assert rest[|rest| - 1] == s[|s| - 1];
      SplitWsNonEmptyFrom(rest);
    }
  }

  // ---------------------------------------------------------------------
  // Numbers and their text

  function DigitsValue(s: string): (n: nat)
    requires AllDigits(s)
  {
    if s == [] then 0 else DigitsValue(s[..|s| - 1]) * 10 + (s[|s| - 1] as int - '0' as int)
  }

  function Pow10(k: nat): (p: nat)
    ensures p >= 1
  {
    if k == 0 then 1 else 10 * Pow10(k - 1)
  }

  /** Decimal digits of a natural number. */
  function NatToString(n: nat): (s: string)
    ensures s != [] && AllDigits(s)
    ensures DigitsValue(s) == n
  {
    if n < 10 then [('0' as int + n) as char]
    else
      var p := NatToString(n / 10);
      var s := p + [('0' as int + n % 10) as char];
      assert s[..|s| - 1] == p;
      s
  }

  /** `String(n)` for an integer. */
  function IntToString(n: int): string
  {
    if n < 0 then "-" + NatToString(-n) else NatToString(n)
  }

  /**
   * The numeric value of a trimmed decimal literal: an optional sign, then
   * digits with an optional fraction (`12`, `-3.5`, `.5`, `7.`), or `None`.
   */
  function DecimalValue(t: string): Option<real>
  {
    var neg := |t| > 0 && t[0] == '-';
    var u := if |t| > 0 && (t[0] == '-' || t[0] == '+') then t[1..] else t;
    var k := IndexOf(u, '.');
    var whole := u[..k];
    var frac := if k < |u| then u[k + 1..] else "";
    if !AllDigits(whole) || !AllDigits(frac) || (whole == [] && frac == []) then None
    else
      var mag := DigitsValue(whole) as real + DigitsValue(frac) as real / Pow10(|frac|) as real;
      Some(if neg then -mag else mag)
  }

  /**
   * `Number(s)` for a string: white space around the literal is ignored, the
   * empty string is 0, `Infinity` may carry a sign.
   */
  function StrToNumber(s: string): (n: Number)
    ensures Trim(s) == "" ==> n == Finite(0.0)
  {
    var t := Trim(s);
    if t == "" then Finite(0.0)
    else if t == "Infinity" || t == "+Infinity" then PosInf
    else if t == "-Infinity" then NegInf
    else match DecimalValue(t)
      case Some(v) => Finite(v)
      case None => NaN
  }

  lemma DecimalValueOfDigits(s: string)
    requires s != [] && AllDigits(s)
    ensures DecimalValue(s) == Some(DigitsValue(s) as real)
  {
    assert IsDigit(s[0]);
    IndexOfAbsent(s, '.');
    assert s[..|s|] == s;
    assert DigitsValue("") == 0;
  }

  /** A character that does not occur is found at the end. */
  lemma {:induction false} IndexOfAbsent(s: string, c: char)
    requires forall i :: 0 <= i < |s| ==> s[i] != c
    ensures IndexOf(s, c) == |s|
  {
    if s != [] {
      IndexOfAbsent(s[1..], c);
    }
  }

  lemma StrToNumberOfDigits(s: string)
    requires s != [] && AllDigits(s)
    ensures StrToNumber(s) == Finite(DigitsValue(s) as real)
  {
    assert !IsSpace(s[0]) && !IsSpace(s[|s| - 1]);
    assert TrimStart(s) == s;
    assert TrimEnd(s) == s;
    assert IsDigit(s[0]);
    assert s != "Infinity" && s != "+Infinity" && s != "-Infinity";
    DecimalValueOfDigits(s);
  }

  /** `Number(v)` for a JSON value; arrays and objects are NaN. */
  function ToNumber(j: Json): Number
  {
    match j
    case Missing => NaN
    case Null => Finite(0.0)
    case Bool(b) => Finite(if b then 1.0 else 0.0)
    case Num(n) => Finite(n)
    case Str(s) => StrToNumber(s)
    case Arr(_) => NaN
    case Obj(_) => NaN
  }

  /** `a || b` on JSON values: `a` when it is truthy, else `b`. */
  function Or(a: Json, b: Json): (r: Json)
    ensures Truthy(a) ==> r == a
    ensures !Truthy(a) ==> r == b
  {
    if Truthy(a) then a else b
  }

  /**
   * `String(n)` for a number: the digits of an integer; a fractional
   * number's shortest round-trip text is the parameter `fracText`.
   */
  function NumberText(n: real, fracText: real -> string): string
  {
    if n.Floor as real == n then IntToString(n.Floor) else fracText(n)
  }

  /** `String(v)`: arrays are their elements' texts joined by ",", with `null` and `undefined` elements empty. */
  function JsText(j: Json, fracText: real -> string): string
  {
    match j
    case Missing => "undefined"
    case Null => "null"
    case Bool(b) => if b then "true" else "false"
    case Num(n) => NumberText(n, fracText)
    case Str(s) => s
    case Arr(items) => ItemsText(items, fracText)
    case Obj(_) => "[object Object]"
  }

  function ItemsText(items: seq<Json>, fracText: real -> string): string
    decreases items
  {
    if items == [] then ""
    else
      var first := if items[0].Missing? || items[0].Null? then "" else JsText(items[0], fracText);
      if |items| == 1 then first else first + "," + ItemsText(items[1..], fracText)
  }

  /** `String(n)` for any JavaScript number. */
  function NumberToText(n: Number, fracText: real -> string): string
  {
    match n
    case Finite(v) => NumberText(v, fracText)
    case NaN => "NaN"
    case PosInf => "Infinity"
    case NegInf => "-Infinity"
  }

  /** JavaScript truthiness of a number (`!n`) is false for 0 and NaN. */
  predicate NumberTruthy(n: Number) {
    !(n == NaN || n == Finite(0.0))
  }

  /** `Math.round`: the nearest integer, halves rounded up. */
  function Round(x: real): (r: int)
    ensures x - 0.5 < r as real <= x + 0.5
  {
    (x + 0.5).Floor
  }

  lemma RoundInt(n: int, x: real)
    ensures Round(n as real + x) == n + Round(x)
  {
    assert (n as real + x + 0.5).Floor == n + (x + 0.5).Floor;
  }

  // ---------------------------------------------------------------------
  // Ordering and sorting

  /** Lexicographic order on strings by character code. */
  predicate StrLe(a: string, b: string)
    decreases |a|
  {
    a == [] || (b != [] && (a[0] < b[0] || (a[0] == b[0] && StrLe(a[1..], b[1..]))))
  }

  lemma {:induction false} StrLeTotal(a: string, b: string)
    ensures StrLe(a, b) || StrLe(b, a)
    decreases |a|
  {
    if a != [] && b != [] && a[0] == b[0] {
      StrLeTotal(a[1..], b[1..]);
    }
  }

  lemma {:induction false} StrLeTrans(a: string, b: string, c: string)
    requires StrLe(a, b) && StrLe(b, c)
    ensures StrLe(a, c)
    decreases |a|
  {
    if a != [] && b != [] && c != [] && a[0] == b[0] && b[0] == c[0] {
      StrLeTrans(a[1..], b[1..], c[1..]);
    }
  }

  lemma {:induction false} StrLeAntisym(a: string, b: string)
    requires StrLe(a, b) && StrLe(b, a)
    ensures a == b
    decreases |a|
  {
    if a != [] {
      StrLeAntisym(a[1..], b[1..]);
    }
  }

  ghost predicate TotalPreorder<T(!new)>(le: (T, T) -> bool) {
    (forall a, b :: le(a, b) || le(b, a))
    && (forall a, b, c :: le(a, b) && le(b, c) ==> le(a, c))
  }

  lemma StrLeTotalPreorder()
    ensures TotalPreorder((a: string, b: string) => StrLe(a, b))
  {
    forall a: string, b: string ensures StrLe(a, b) || StrLe(b, a) {
      StrLeTotal(a, b);
    }
    forall a: string, b: string, c: string | StrLe(a, b) && StrLe(b, c) ensures StrLe(a, c) {
      StrLeTrans(a, b, c);
    }
  }

  ghost predicate SortedBy<T>(s: seq<T>, le: (T, T) -> bool) {
    forall i, j :: 0 <= i < j < |s| ==> le(s[i], s[j])
  }

  /** Inserts `x` before the first element it does not follow. */
  function Insert<T>(x: T, s: seq<T>, le: (T, T) -> bool): (r: seq<T>)
    ensures multiset(r) == multiset(s) + multiset{x}
    ensures |r| == |s| + 1
  {
    if s == [] || le(x, s[0]) then [x] + s
    else
      assert s == [s[0]] + s[1..];
      [s[0]] + Insert(x, s[1..], le)
  }

  /** `arr.sort(cmp)`: an insertion sort by the comparison `le`. */
  function SortBy<T>(s: seq<T>, le: (T, T) -> bool): (r: seq<T>)
    ensures multiset(r) == multiset(s)
    ensures |r| == |s|
  {
    if s == [] then []
    else
      assert s == [s[0]] + s[1..];
      Insert(s[0], SortBy(s[1..], le), le)
  }

  lemma {:induction false} InsertSorted<T(!new)>(x: T, s: seq<T>, le: (T, T) -> bool)
    requires TotalPreorder(le) && SortedBy(s, le)
    ensures SortedBy(Insert(x, s, le), le)
  {
    if s != [] && !le(x, s[0]) {
      assert le(s[0], x);
      InsertSorted(x, s[1..], le);
      var t := Insert(x, s[1..], le);
      var r := [s[0]] + t;
      forall k | 0 <= k < |t| ensures le(s[0], t[k]) {
        assert t[k] in multiset(s[1..]) + multiset{x};
        if t[k] in multiset(s[1..]) {
          var m :| 0 <= m < |s[1..]| && s[1..][m] == t[k];
          assert s[m + 1] == t[k];
        }
      }
      forall i, j | 0 <= i < j < |r| ensures le(r[i], r[j]) {
        if i == 0 { assert r[j] == t[j - 1]; } else { assert r[i] == t[i - 1] && r[j] == t[j - 1]; }
      }
    }
  }

  lemma {:induction false} SortBySorted<T(!new)>(s: seq<T>, le: (T, T) -> bool)
    requires TotalPreorder(le)
    ensures SortedBy(SortBy(s, le), le)
  {
    if s != [] {
      SortBySorted(s[1..], le);
      InsertSorted(s[0], SortBy(s[1..], le), le);
    }
  }

  /** `arr.filter(pred)` keeping the order of the kept elements. */
  function Filter<T>(s: seq<T>, p: T -> bool): (r: seq<T>)
    ensures |r| <= |s|
    ensures forall i :: 0 <= i < |r| ==> p(r[i])
    ensures forall x :: x in s && p(x) ==> x in r
    ensures forall x :: x in r ==> x in s
  {
    if s == [] then []
    else if p(s[0]) then [s[0]] + Filter(s[1..], p)
    else Filter(s[1..], p)
  }

  /** Nothing is kept when no element satisfies `p`. */
  lemma {:induction false} FilterNone<T>(s: seq<T>, p: T -> bool)
    requires forall x :: x in s ==> !p(x)
    ensures Filter(s, p) == []
  {
    if s != [] {
      assert s[0] in s;
      FilterNone(s[1..], p);
    }
  }

  /** The number of elements of `s` that satisfy `p`. */
  function CountIf<T>(s: seq<T>, p: T -> bool): (n: nat)
    ensures n <= |s|
  {
    if s == [] then 0 else (if p(s[0]) then 1 else 0) + CountIf(s[1..], p)
  }

  /** `filter` keeps exactly the elements that the complementary count does not count. */
  lemma {:induction false} FilterCount<T>(s: seq<T>, p: T -> bool, q: T -> bool)
    requires forall x :: q(x) == !p(x)
    ensures |Filter(s, p)| + CountIf(s, q) == |s|
  {
    if s != [] {
      FilterCount(s[1..], p, q);
    }
  }

  /** `filter` distributes over concatenation, so the kept elements stay in their order. */
  lemma {:induction false} FilterAppend<T>(s: seq<T>, t: seq<T>, p: T -> bool)
    ensures Filter(s + t, p) == Filter(s, p) + Filter(t, p)
  {
    if s == [] {
      assert s + t == t;
    } else {
      assert (s + t)[1..] == s[1..] + t;
      FilterAppend(s[1..], t, p);
    }
  }

  function SumReals(s: seq<real>): real
  {
    if s == [] then 0.0 else s[0] + SumReals(s[1..])
  }
}
