/**
 * The PHP values the modelled code passes around: scalars and arrays.
 *
 * A PHP array is an ordered list of key/value entries; keys are ints or strings.
 * A list such as the chat transcript is the array keyed 0, 1, ..., n-1.
 * Well-formed arrays have distinct keys; lookups take the first entry with the key,
 * so they agree with PHP on well-formed arrays.
 */
module Php {
  import opened Exceptions

  datatype Key = IntKey(i: int) | StrKey(s: string)

  datatype Value =
    | Null
    | Bool(b: bool)
    | Int(i: int)
    | Float(r: real)
    | Str(s: string)
    | Arr(entries: seq<(Key, Value)>)

  /** A value PHP's `array` type declaration accepts. */
  type PhpArray = v: Value | v.Arr? witness Arr([])

  /** An entry with a string key, as written `'name' => $value`. */
  function Field(name: string, v: Value): (Key, Value) {
    (StrKey(name), v)
  }

  /** The value of the first entry with key k. */
  function Lookup(entries: seq<(Key, Value)>, k: Key): (r: Option<Value>)
    ensures r.None? <==> forall i :: 0 <= i < |entries| ==> entries[i].0 != k
    ensures r.Some? ==> (k, r.value) in entries
  {
    if entries == [] then None
    else if entries[0].0 == k then Some(entries[0].1)
    else Lookup(entries[1..], k)
  }

  /** The character at a PHP string offset; negative offsets count from the end. */
  function StringOffset(s: string, i: int): (r: Option<Value>)
    ensures r.Some? <==> -|s| <= i < |s|
  {
    if 0 <= i < |s| then Some(Str([s[i]]))
    else if -|s| <= i < 0 then Some(Str([s[|s| + i]]))
    else None
  }

  /**
   * `$v[$k]` where it can be read without a warning, None elsewhere:
   * a present array entry, or a character of a string at an integer offset.
   */
  function Get(v: Value, k: Key): Option<Value> {
    match v
    case Arr(es) => Lookup(es, k)
    case Str(s) => if k.IntKey? then StringOffset(s, k.i) else None
    case _ => None
  }

  /** `isset($v[$k])`. */
  predicate IsSet(v: Value, k: Key) {
    Get(v, k).Some? && Get(v, k).value != Null
  }

  /** `$v[$k1][$k2]` as isset sees it. */
  function Get2(v: Value, k1: Key, k2: Key): Option<Value> {
    match Get(v, k1)
    case Some(w) => Get(w, k2)
    case None => None
  }

  /** `isset($v[$k1][$k2])`. */
  predicate IsSet2(v: Value, k1: Key, k2: Key) {
    Get2(v, k1, k2).Some? && Get2(v, k1, k2).value != Null
  }

  /** `$v[$k] ?? $default`. */
  function Coalesce(v: Value, k: Key, default: Value): (r: Value)
    ensures IsSet(v, k) ==> Some(r) == Get(v, k)
    ensures !IsSet(v, k) ==> r == default
  {
    if IsSet(v, k) then Get(v, k).value else default
  }

  /** The name PHP's messages give the type of a value. */
  function TypeName(v: Value): string {
    match v
    case Null => "null"
    case Bool(_) => "bool"
    case Int(_) => "int"
    case Float(_) => "float"
    case Str(_) => "string"
    case Arr(_) => "array"
  }

  function DigitChar(d: nat): char
    requires d < 10
  {
    "0123456789"[d]
  }

  /** Decimal digits of a natural number, without leading zeros. */
  function NatText(n: nat): (s: string)
    ensures |s| > 0
    ensures forall i :: 0 <= i < |s| ==> '0' <= s[i] <= '9'
    decreases n
  {
    if n < 10 then [DigitChar(n)] else NatText(n / 10) + [DigitChar(n % 10)]
  }

  /** `(string)$i` for an int. */
  function IntText(i: int): string {
    if i < 0 then "-" + NatText(-i) else NatText(i)
  }

  /** How a key is shown in "Undefined array key" warnings. */
  function KeyText(k: Key): string {
    match k
    case IntKey(i) => IntText(i)
    case StrKey(s) => "\"" + s + "\""
  }

  /** The message of PHP's warning for reading a missing key, e.g. `Undefined array key "content"`. */
  function UndefinedKey(k: Key): string {
    "Undefined array key " + KeyText(k)
  }

  /** The first `count` decimal digits of a fraction 0 <= f < 1. */
  function FractionDigits(f: real, count: nat): string
    requires 0.0 <= f < 1.0
    decreases count
  {
    if count == 0 || f == 0.0 then ""
    else
      var digit := (f * 10.0).Floor;
      assert 0 <= digit < 10;
      [DigitChar(digit)] + FractionDigits(f * 10.0 - digit as real, count - 1)
  }

  /** Strip trailing zeros of a digit string. */
  function TrimZeros(s: string): string
    decreases |s|
  {
    if s != [] && s[|s| - 1] == '0' then TrimZeros(s[..|s| - 1]) else s
  }

  /** `(string)$f` for a float (see README: an approximation of PHP's 14 significant digits). */
  function FloatText(r: real): string {
    var a := if r < 0.0 then -r else r;
    var whole := a.Floor;
    var frac := TrimZeros(FractionDigits(a - whole as real, 14));
    (if r < 0.0 then "-" else "") + IntText(whole) + (if frac == "" then "" else "." + frac)
  }

  /**
   * String conversion as the `.` operator does it. An array converts to "Array" with a
   * warning, which the framework turns into an ErrorException.
   */
  function ToText(v: Value): (r: Result<string>)
    ensures v.Str? ==> r == Ok(v.s)
    ensures r.Fail? <==> v.Arr?
    ensures r.Fail? ==> r.error == Throwable(ErrorException, "Array to string conversion")
  {
    match v
    case Null => Ok("")
    case Bool(b) => Ok(if b then "1" else "")
    case Int(i) => Ok(IntText(i))
    case Float(f) => Ok(FloatText(f))
    case Str(s) => Ok(s)
    case Arr(_) => Fail(Throwable(ErrorException, "Array to string conversion"))
  }

  /**
   * `$v[$k]` as a read: a missing key or an offset into a scalar raises a warning, which
   * the framework's error handler rethrows as ErrorException; a string key into a string
   * is a TypeError.
   */
  function Read(v: Value, k: Key): (r: Result<Value>)
    ensures r.Ok? <==> Get(v, k).Some?
    ensures r.Ok? ==> Get(v, k) == Some(r.value)
    ensures v.Arr? && r.Fail? ==> r.error == Throwable(ErrorException, UndefinedKey(k))
  {
    match v
    case Arr(es) =>
      (match Lookup(es, k)
       case Some(x) => Ok(x)
       case None => Fail(Throwable(ErrorException, UndefinedKey(k))))
    case Str(s) =>
      if k.StrKey? then Fail(Throwable(TypeError, "Cannot access offset of type string on string"))
      else
        (match StringOffset(s, k.i)
         case Some(c) => Ok(c)
         case None => Fail(Throwable(ErrorException, "Uninitialized string offset " + IntText(k.i))))
    case _ => Fail(Throwable(ErrorException, "Trying to access array offset on value of type " + TypeName(v)))
  }

  /** The entries of a PHP list: keys start, start + 1, ... */
  function ListEntries(items: seq<Value>, start: int): (es: seq<(Key, Value)>)
    ensures |es| == |items|
    ensures forall i :: 0 <= i < |items| ==> es[i] == (IntKey(start + i), items[i])
    decreases |items|
  {
    if items == [] then [] else [(IntKey(start), items[0])] + ListEntries(items[1..], start + 1)
  }

  /** The PHP list `[items[0], items[1], ...]`. */
  function List(items: seq<Value>): (v: PhpArray)
    ensures |v.entries| == |items|
  {
    Arr(ListEntries(items, 0))
  }

  /** The items of a list read back at their positions. */
  lemma ListAt(items: seq<Value>, i: nat)
    requires i < |items|
    ensures Get(List(items), IntKey(i)) == Some(items[i])
  {
    var es := ListEntries(items, 0);
    assert es[i].0 == IntKey(i);
    var j := LookupFirst(es, IntKey(i));
    assert es[j].0 == IntKey(j);
  }

  /** The first index of a key in a list of entries. */
  lemma LookupFirst(es: seq<(Key, Value)>, k: Key) returns (j: nat)
    requires exists i :: 0 <= i < |es| && es[i].0 == k
    ensures j < |es| && es[j].0 == k && Lookup(es, k) == Some(es[j].1)
    ensures forall i :: 0 <= i < j ==> es[i].0 != k
    decreases |es|
  {
    if es[0].0 == k {
      j := 0;
    } else {
      assert exists i :: 0 <= i < |es[1..]| && es[1..][i].0 == k by {
        var i :| 0 <= i < |es| && es[i].0 == k;
        assert es[1..][i - 1] == es[i];
      }
      var j' := LookupFirst(es[1..], k);
      j := j' + 1;
    }
  }

  /** An entry whose key no earlier entry has is what a lookup of that key finds. */
  lemma {:induction false} LookupAt(es: seq<(Key, Value)>, i: nat)
    requires i < |es|
    requires forall j :: 0 <= j < i ==> es[j].0 != es[i].0
    ensures Lookup(es, es[i].0) == Some(es[i].1)
    decreases i
  {
    if i > 0 {
      assert es[1..][i - 1] == es[i];
      LookupAt(es[1..], i - 1);
    }
  }

  /** Every key of an array: the keys of its entries. */
  function Keys(v: PhpArray): seq<Key> {
    seq(|v.entries|, i requires 0 <= i < |v.entries| => v.entries[i].0)
  }

  /** `implode($glue, $parts)`: the parts in order, with the glue between neighbours. */
  function Implode(glue: string, parts: seq<string>): string
    decreases |parts|
  {
    if parts == [] then ""
    else if |parts| == 1 then parts[0]
    else parts[0] + glue + Implode(glue, parts[1..])
  }

  /** Imploding a concatenation glues the two implosions together. */
  lemma {:induction false} ImplodeAppend(glue: string, a: seq<string>, b: seq<string>)
    requires a != [] && b != []
    ensures Implode(glue, a + b) == Implode(glue, a) + glue + Implode(glue, b)
    decreases |a|
  {
    if |a| == 1 {
      assert (a + b)[1..] == b;
    } else {
      assert (a + b)[1..] == a[1..] + b;
      ImplodeAppend(glue, a[1..], b);
    }
  }

  /** The number a string of decimal digits stands for. */
  function DigitsValue(s: string): nat
    requires forall i :: 0 <= i < |s| ==> '0' <= s[i] <= '9'
    decreases |s|
  {
    if s == [] then 0 else 10 * DigitsValue(s[..|s| - 1]) + (s[|s| - 1] as int - '0' as int)
  }

  /** Reading the digits of a number gives the number back. */
  lemma {:induction false} NatTextValue(n: nat)
    ensures DigitsValue(NatText(n)) == n
    decreases n
  {
    if n >= 10 {
      var s := NatText(n);
      assert s[..|s| - 1] == NatText(n / 10);
      NatTextValue(n / 10);
    }
  }

  /** Different numbers have different decimal texts. */
  lemma NatTextInjective(m: nat, n: nat)
    requires NatText(m) == NatText(n)
    ensures m == n
  {
    NatTextValue(m);
    NatTextValue(n);
  }
}
