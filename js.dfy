/** The JavaScript values the agent script handles once `res.json()` has
    parsed a provider's reply, and the few language operations that the
    agent core applies to them: property reads (which throw on `null` and
    `undefined`), optional chaining, truthiness, conversion to a string and
    `String.prototype.trim`. */
module Js {

  datatype Option<+T> = None | Some(value: T)

  /** A thrown JavaScript error, by constructor, with its `message`. */
  datatype JsError = TypeError(message: string) | PlainError(message: string)

  /** The outcome of an expression that may throw. */
  datatype Result<+T> = Ok(value: T) | Err(error: JsError) {
    predicate IsFailure() { Err? }

    function PropagateFailure<U>(): Result<U>
      requires Err?
    {
      Err(error)
    }

    function Extract(): T
      requires Ok?
    {
      value
    }

    function ToOption(): Option<T> {
      match this
      case Ok(v) => Some(v)
      case Err(_) => None
    }
  }

  /** A JSON value, plus `undefined`, which is what reading an absent
      property yields. Numbers are integers in this model. An object maps
      its keys to their values (JSON.parse keeps the last of duplicate keys). */
  datatype Value =
    | Undefined
    | Null
    | Bool(b: bool)
    | Num(n: int)
    | Str(s: string)
    | Arr(items: seq<Value>)
    | Obj(fields: map<string, Value>)

  predicate IsNullish(v: Value) {
    v.Undefined? || v.Null?
  }

  /** The JavaScript truth value of `v`, as `if (v)` tests it: the falsy
      values are exactly undefined, null, false, 0 and the empty string
      (ToBoolean, section 7.1.2 of ECMA-262). */
  function Truthy(v: Value): (b: bool)
    ensures !b <==> v in {Undefined, Null, Bool(false), Num(0), Str("")}
  {
    match v
    case Undefined => false
    case Null => false
    case Bool(b) => b
    case Num(n) => n != 0
    case Str(s) => s != ""
    case Arr(_) => true
    case Obj(_) => true
  }

  /** The TypeError that V8 raises for `holder.key` when `holder` is
      `null` or `undefined`. */
  function ReadError(holder: Value, key: string): JsError
    requires IsNullish(holder)
  {
    TypeError("Cannot read properties of " + (if holder.Null? then "null" else "undefined")
              + " (reading '" + key + "')")
  }

  /** `v.key` for a named property. Every key the agent reads by name
      ("choices", "message", "name", ...) is an own property of a JSON
      object at most, so on strings, arrays, numbers and booleans the read
      yields `undefined`. */
  function Get(v: Value, key: string): (r: Result<Value>)
    ensures r.Err? <==> IsNullish(v)
    ensures r.Err? ==> r.error == ReadError(v, key)
    ensures v.Obj? && key in v.fields ==> r == Ok(v.fields[key])
    ensures !IsNullish(v) && !(v.Obj? && key in v.fields) ==> r == Ok(Undefined)
  {
    match v
    case Undefined => Err(ReadError(v, key))
    case Null => Err(ReadError(v, key))
    case Obj(fields) => Ok(if key in fields then fields[key] else Undefined)
    case _ => Ok(Undefined)
  }

  /** `v?.key`: `undefined` when `v` is nullish, otherwise `v.key`. */
  function GetOptional(v: Value, key: string): (r: Value)
    ensures IsNullish(v) ==> r == Undefined
    ensures !IsNullish(v) ==> Get(v, key) == Ok(r)
  {
    if IsNullish(v) then Undefined else Get(v, key).value
  }

  /** `v[i]`: an array element, a one-character string, or the object
      property named by the decimal numeral of `i`. */
  function At(v: Value, i: nat): (r: Result<Value>)
    ensures r.Err? <==> IsNullish(v)
    ensures v.Arr? && i < |v.items| ==> r == Ok(v.items[i])
  {
    match v
    case Undefined => Err(ReadError(v, NatToString(i)))
    case Null => Err(ReadError(v, NatToString(i)))
    case Arr(items) => Ok(if i < |items| then items[i] else Undefined)
    case Str(s) => Ok(if i < |s| then Str([s[i]]) else Undefined)
    case Obj(fields) =>
      var key := NatToString(i);
      Ok(if key in fields then fields[key] else Undefined)
    case _ => Ok(Undefined)
  }

  function DigitChar(d: nat): char
    requires d < 10
  {
    ('0' as int + d) as char
  }

  function NatToString(n: nat): string
  {
    if n < 10 then [DigitChar(n)] else NatToString(n / 10) + [DigitChar(n % 10)]
  }

  function IntToString(n: int): string
  {
    if n < 0 then "-" + NatToString(-n) else NatToString(n)
  }

  /** The value of a decimal digit. */
  function DigitValue(c: char): Option<nat> {
    if '0' <= c <= '9' then Some(c as int - '0' as int) else None
  }

  /** Reads a non-empty string of decimal digits. */
  function ParseNat(s: string): Option<nat> {
    if s == [] then None
    else
      match DigitValue(s[|s| - 1])
      case None => None
      case Some(d) =>
        if |s| == 1 then Some(d)
        else
          match ParseNat(s[..|s| - 1])
          case None => None
          case Some(m) => Some(10 * m + d)
  }

  /** Reads an optionally signed decimal integer numeral. */
  function ParseInt(s: string): Option<int> {
    if s != [] && s[0] == '-' then
      match ParseNat(s[1..])
      case None => None
      case Some(m) => Some(-(m as int))
    else ParseNat(s)
  }

  /** The decimal numeral of `n` reads back as `n`, and it does not start
      with a minus sign. */
  lemma {:induction false} NatToStringRoundTrip(n: nat)
    ensures NatToString(n) != [] && NatToString(n)[0] != '-'
    ensures ParseNat(NatToString(n)) == Some(n)
  {
    if n >= 10 {
      NatToStringRoundTrip(n / 10);
      var s := NatToString(n);
      assert s[..|s| - 1] == NatToString(n / 10);
      assert s[0] == NatToString(n / 10)[0];
    }
  }

  /** The string form of an integer reads back as that integer. */
  lemma IntToStringRoundTrip(n: int)
    ensures ParseInt(IntToString(n)) == Some(n)
  {
    var s := IntToString(n);
    if n < 0 {
      NatToStringRoundTrip(-n);
      assert s == "-" + NatToString(-n);
      assert s[0] == '-' && s[1..] == NatToString(-n);
    } else {
      NatToStringRoundTrip(n);
      assert s == NatToString(n);
    }
  }

  function JoinWithCommas(parts: seq<string>): string
  {
    if |parts| == 0 then ""
    else if |parts| == 1 then parts[0]
    else JoinWithCommas(parts[..|parts| - 1]) + "," + parts[|parts| - 1]
  }

  /** `"" + v`, the string a template literal or `+` concatenation makes
      of `v`. Array elements that are `null` or `undefined` become empty. */
  function ToJsString(v: Value): string
    decreases v
  {
    match v
    case Undefined => "undefined"
    case Null => "null"
    case Bool(b) => if b then "true" else "false"
    case Num(n) => IntToString(n)
    case Str(s) => s
    case Arr(items) =>
      JoinWithCommas(seq(|items|, k requires 0 <= k < |items| =>
                           if IsNullish(items[k]) then "" else ToJsString(items[k])))
    case Obj(_) => "[object Object]"
  }

  /** The characters `String.prototype.trim` removes: WhiteSpace and
      LineTerminator of the ECMAScript grammar (section 12.2 and 12.3 of
      ECMA-262). */
  predicate IsJsWhitespace(c: char) {
    c == '\t' || c == '\n' || c == '\U{000B}' || c == '\U{000C}' || c == '\r' || c == ' '
    || c == '\U{00A0}' || c == '\U{1680}' || ('\U{2000}' <= c <= '\U{200A}')
    || c == '\U{2028}' || c == '\U{2029}' || c == '\U{202F}' || c == '\U{205F}'
    || c == '\U{3000}' || c == '\U{FEFF}'
  }

  predicate AllWhitespace(s: string) {
    forall k :: 0 <= k < |s| ==> IsJsWhitespace(s[k])
  }

  /** Drops the leading white space. */
  function TrimStart(s: string): (r: string)
    ensures |r| <= |s|
  {
    if s != [] && IsJsWhitespace(s[0]) then TrimStart(s[1..]) else s
  }

  /** Drops the trailing white space. */
  function TrimEnd(s: string): (r: string)
    ensures |r| <= |s|
  {
    if s != [] && IsJsWhitespace(s[|s| - 1]) then TrimEnd(s[..|s| - 1]) else s
  }

  /** What TrimStart leaves is a suffix of `s`, what it dropped is all
      white space, and what is left does not start with white space. */
  lemma {:induction false} TrimStartDropsLeadingSpace(s: string)
    ensures var r := TrimStart(s);
            |r| <= |s| && r == s[|s| - |r|..]
            && AllWhitespace(s[..|s| - |r|])
            && (r != [] ==> !IsJsWhitespace(r[0]))
  {
    if s != [] && IsJsWhitespace(s[0]) {
      TrimStartDropsLeadingSpace(s[1..]);
      var r := TrimStart(s);
      assert s[1..][|s| - 1 - |r|..] == s[|s| - |r|..];
      forall k | 0 <= k < |s| - |r| ensures IsJsWhitespace(s[k]) {
        if k > 0 {
          assert s[k] == s[1..][..|s| - 1 - |r|][k - 1];
        }
      }
    }
  }

  /** What TrimEnd leaves is a prefix of `s`, what it dropped is all white
      space, and what is left does not end with white space. */
  lemma {:induction false} TrimEndDropsTrailingSpace(s: string)
    ensures var r := TrimEnd(s);
            |r| <= |s| && r == s[..|r|]
            && AllWhitespace(s[|r|..])
            && (r != [] ==> !IsJsWhitespace(r[|r| - 1]))
  {
    if s != [] && IsJsWhitespace(s[|s| - 1]) {
      var t := s[..|s| - 1];
      TrimEndDropsTrailingSpace(t);
      var r := TrimEnd(s);
      assert t[..|r|] == s[..|r|];
      forall k | |r| <= k < |s| ensures IsJsWhitespace(s[k]) {
        if k < |s| - 1 {
          assert s[k] == t[|r|..][k - |r|];
        }
      }
    }
  }

  /** `s.trim()`. */
  function Trim(s: string): string
  {
    TrimEnd(TrimStart(s))
  }

  /** The trimmed string is the middle of `s` between a white-space prefix
      and a white-space suffix, and neither of its ends is white space. */
  lemma TrimKeepsCore(s: string)
    ensures var i := |s| - |TrimStart(s)|;
            var r := Trim(s);
            i + |r| <= |s| && r == s[i..i + |r|]
            && AllWhitespace(s[..i]) && AllWhitespace(s[i + |r|..])
            && (r != [] ==> !IsJsWhitespace(r[0]) && !IsJsWhitespace(r[|r| - 1]))
  {
    var t := TrimStart(s);
    var i := |s| - |t|;
    var r := Trim(s);
    TrimStartDropsLeadingSpace(s);
    TrimEndDropsTrailingSpace(t);
    assert r == t[..|r|];
    assert s[i + |r|..] == t[|r|..];
    if r != [] {
      assert r[0] == t[0];
    }
  }

  /** Trimming yields the empty string exactly when `s` is all white space. */
  lemma TrimEmptyIff(s: string)
    ensures Trim(s) == "" <==> AllWhitespace(s)
  {
    TrimKeepsCore(s);
    var i := |s| - |TrimStart(s)|;
    if Trim(s) == "" {
      TrimStartDropsLeadingSpace(s);
      TrimEndDropsTrailingSpace(TrimStart(s));
      assert i == |s|;
      forall k | 0 <= k < |s| ensures IsJsWhitespace(s[k]) {
        assert s[k] == s[..i][k];
      }
    } else {
      var r := Trim(s);
      assert s[i] == r[0];
    }
  }

  /** Trimming twice is trimming once. */
  lemma TrimIdempotent(s: string)
    ensures Trim(Trim(s)) == Trim(s)
  {
    var r := Trim(s);
    TrimKeepsCore(s);
    if r != [] {
      TrimEndDropsTrailingSpace(TrimStart(s));
      assert TrimStart(r) == r;
      assert TrimEnd(r) == r;
    }
  }
}
