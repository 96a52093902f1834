/**
 * The few pieces of JavaScript runtime behaviour that the workbench's logic relies on:
 * truthiness of nullable strings, `||` and `??`, `toLowerCase`, `includes`/`indexOf`,
 * `trim`, `String(n)` for integers, `Array.prototype.join`, and the shape of thrown values.
 */
module Js {
  import opened Wrappers

  // ---------------------------------------------------------------------------
  // Truthiness

  /** A nullable string is truthy unless it is `null`, `undefined` or `''`. */
  predicate TruthyText(s: Option<string>) {
    s.Some? && s.value != ""
  }

  /** `a || b` where `a` is a nullable string and `b` a string. */
  function OrText(a: Option<string>, b: string): (r: string)
    ensures TruthyText(a) ==> r == a.value
    ensures !TruthyText(a) ==> r == b
  {
    if TruthyText(a) then a.value else b
  }

  // ---------------------------------------------------------------------------
  // Case and whitespace (ASCII only)

  /** `toLowerCase` on one character, restricted to the ASCII letters. */
  function LowerChar(c: char): (r: char)
    ensures 'A' <= c <= 'Z' ==> r as int == c as int + 32
    ensures !('A' <= c <= 'Z') ==> r == c
  {
    if 'A' <= c <= 'Z' then (c as int + 32) as char else c
  }

  /** `String.prototype.toLowerCase`, ASCII letters only. */
  function ToLower(s: string): (r: string)
    ensures |r| == |s|
  {
    if s == [] then [] else [LowerChar(s[0])] + ToLower(s[1..])
  }

  /** `toLowerCase` works character by character. */
  lemma {:induction false} ToLowerAt(s: string, i: int)
    requires 0 <= i < |s|
    ensures ToLower(s)[i] == LowerChar(s[i])
  {
    if i > 0 {
      ToLowerAt(s[1..], i - 1);
    }
  }

  /** `toLowerCase` of a concatenation lowercases each part. */
  lemma {:induction false} ToLowerAppend(a: string, b: string)
    ensures ToLower(a + b) == ToLower(a) + ToLower(b)
  {
    if a != [] {
      ToLowerAppend(a[1..], b);
      assert (a + b)[1..] == a[1..] + b;
    } else {
      assert a + b == b;
    }
  }

  /** Text without capital letters is left as it is. */
  lemma {:induction false} ToLowerNoUpper(s: string)
    requires forall i :: 0 <= i < |s| ==> !('A' <= s[i] <= 'Z')
    ensures ToLower(s) == s
  {
    if s != [] {
      ToLowerNoUpper(s[1..]);
      assert [s[0]] + s[1..] == s;
    }
  }

  /** The characters `trim` and `/\s/` treat as white space (ASCII subset). */
  predicate IsWhitespace(c: char) {
    c == ' ' || c == '\t' || c == '\n' || c == '\r' || c == '\U{B}' || c == '\U{C}'
  }

  /** `s.trim()`: drops leading and trailing white space. */
  function Trim(s: string): string {
    TrimEnd(TrimStart(s))
  }

  function TrimStart(s: string): (r: string)
    ensures |r| <= |s|
    ensures r == s[|s| - |r|..]
    ensures r != [] ==> !IsWhitespace(r[0])
    ensures forall i :: 0 <= i < |s| - |r| ==> IsWhitespace(s[i])
  {
    if s != [] && IsWhitespace(s[0]) then TrimStart(s[1..]) else s
  }

  function TrimEnd(s: string): (r: string)
    ensures |r| <= |s|
    ensures r == s[..|r|]
    ensures r != [] ==> !IsWhitespace(r[|r| - 1])
    ensures forall i :: |r| <= i < |s| ==> IsWhitespace(s[i])
  {
    if s != [] && IsWhitespace(s[|s| - 1]) then TrimEnd(s[..|s| - 1]) else s
  }

  /** `!s.trim()` holds exactly when `s` consists of white space only. */
  lemma TrimEmptyIffBlank(s: string)
    ensures Trim(s) == "" <==> forall i :: 0 <= i < |s| ==> IsWhitespace(s[i])
  {
    var t := TrimStart(s);
    if Trim(s) == "" {
      forall i | 0 <= i < |s| ensures IsWhitespace(s[i]) {
        if i >= |s| - |t| {
          assert t[i - (|s| - |t|)] == s[i];
        }
      }
    } else {
      var r := Trim(s);
      assert r[0] == t[0];
      assert t[0] == s[|s| - |t|];
    }
  }

  // ---------------------------------------------------------------------------
  // Substrings

  predicate StartsWith(s: string, prefix: string) {
    |prefix| <= |s| && s[..|prefix|] == prefix
  }

  /** `s.includes(sub)`, equivalently `s.indexOf(sub) > -1`. */
  predicate Contains(s: string, sub: string)
    decreases |s|
  {
    StartsWith(s, sub) || (s != [] && Contains(s[1..], sub))
  }

  /** `sub` occurs in `s` starting at index `i`. */
  predicate OccursAt(s: string, sub: string, i: int) {
    0 <= i && i + |sub| <= |s| && s[i..i + |sub|] == sub
  }

  /** `Contains` agrees with the positional definition of a substring. */
  lemma {:induction false} ContainsIffOccurs(s: string, sub: string)
    ensures Contains(s, sub) <==> exists i :: OccursAt(s, sub, i)
  {
    if StartsWith(s, sub) {
      assert OccursAt(s, sub, 0);
    } else if s == [] {
      assert sub != [];
    } else {
      ContainsIffOccurs(s[1..], sub);
      if exists i :: OccursAt(s, sub, i) {
        var i :| OccursAt(s, sub, i);
        assert i != 0;
        assert s[1..][i - 1..i - 1 + |sub|] == s[i..i + |sub|];
        assert OccursAt(s[1..], sub, i - 1);
      }
      if Contains(s[1..], sub) {
        var j :| OccursAt(s[1..], sub, j);
        assert s[1..][j..j + |sub|] == s[j + 1..j + 1 + |sub|];
        assert OccursAt(s, sub, j + 1);
      }
    }
  }

  /** Anything that includes `sub` still does once text is added around it. */
  lemma ContainsWithin(pre: string, s: string, post: string, sub: string)
    requires Contains(s, sub)
    ensures Contains(pre + s + post, sub)
  {
    ContainsIffOccurs(s, sub);
    var i :| OccursAt(s, sub, i);
    var t := pre + s + post;
    assert t[|pre| + i..|pre| + i + |sub|] == s[i..i + |sub|];
    assert OccursAt(t, sub, |pre| + i);
    ContainsIffOccurs(t, sub);
  }

  /** Every string includes the empty string. */
  lemma ContainsEmpty(s: string)
    ensures Contains(s, "")
  {
    assert StartsWith(s, "");
  }

  /** A string includes itself surrounded by anything. */
  lemma {:induction false} ContainsInside(pre: string, sub: string, post: string)
    ensures Contains(pre + sub + post, sub)
  {
    if pre == [] {
      assert (pre + sub + post)[..|sub|] == sub;
    } else {
      assert (pre + sub + post)[1..] == pre[1..] + sub + post;
      ContainsInside(pre[1..], sub, post);
    }
  }

  /** `includes` is transitive. */
  lemma ContainsTrans(a: string, b: string, c: string)
    requires Contains(a, b) && Contains(b, c)
    ensures Contains(a, c)
  {
    ContainsIffOccurs(a, b);
    ContainsIffOccurs(b, c);
    var i :| OccursAt(a, b, i);
    var j :| OccursAt(b, c, j);
    forall k | 0 <= k < |c| ensures a[i + j + k] == c[k] {
      assert c[k] == b[j..j + |c|][k] == b[j + k];
      assert b[j + k] == a[i..i + |b|][j + k] == a[i + j + k];
    }
    assert a[i + j..i + j + |c|] == c;
    assert OccursAt(a, c, i + j);
    ContainsIffOccurs(a, c);
  }

  /** A one-character string is included exactly when that character occurs. */
  lemma ContainsChar(s: string, c: char)
    ensures Contains(s, [c]) <==> c in s
  {
    ContainsIffOccurs(s, [c]);
    if c in s {
      var i :| 0 <= i < |s| && s[i] == c;
      assert s[i..i + 1] == [c];
      assert OccursAt(s, [c], i);
    }
    if Contains(s, [c]) {
      var i :| OccursAt(s, [c], i);
      assert s[i] == s[i..i + 1][0];
    }
  }

  // ---------------------------------------------------------------------------
  // String(n) for integers

  function DigitChar(d: nat): (c: char)
    requires d < 10
    ensures '0' <= c <= '9'
  {
    ('0' as int + d) as char
  }

  /** Every character of `s` is a decimal digit. */
  predicate AllDigits(s: string) {
    forall i :: 0 <= i < |s| ==> '0' <= s[i] <= '9'
  }

  /** Decimal digits of `n`, most significant first, without leading zeros. */
  function NatToString(n: nat): (r: string)
    decreases n
    ensures |r| >= 1
    ensures AllDigits(r)
    ensures |r| > 1 ==> r[0] != '0'
  {
    if n < 10 then [DigitChar(n)] else NatToString(n / 10) + [DigitChar(n % 10)]
  }

  /** `String(n)` for an integer `n`: an optional `-` followed by decimal digits. */
  function IntToString(n: int): (r: string)
    ensures r != ""
    ensures n < 0 <==> r[0] == '-'
  {
    if n < 0 then "-" + NatToString(-n) else NatToString(n)
  }

  /** `String(n)` starts with a minus sign or a digit. */
  lemma IntToStringLeads(n: int)
    ensures IntToString(n)[0] == '-' || '0' <= IntToString(n)[0] <= '9'
  {
    if n >= 0 {
      assert '0' <= NatToString(n)[0] <= '9';
    }
  }

  /** Reads back a string of decimal digits. */
  function DigitsValue(s: string): nat
    requires AllDigits(s)
  {
    if s == [] then 0
    else
      assert AllDigits(s[..|s| - 1]);
      10 * DigitsValue(s[..|s| - 1]) + (s[|s| - 1] as int - '0' as int)
  }

  /** Reads back `String(n)`: an optional `-` followed by digits. */
  function ParseInt(s: string): Option<int> {
    if s == [] then None
    else if s[0] == '-' then (if |s| > 1 && AllDigits(s[1..]) then Some(0 - DigitsValue(s[1..])) else None)
    else if AllDigits(s) then Some(DigitsValue(s))
    else None
  }

  lemma {:induction false} NatToStringValue(n: nat)
    ensures DigitsValue(NatToString(n)) == n
  {
    if n >= 10 {
      NatToStringValue(n / 10);
      var s := NatToString(n);
      assert s[..|s| - 1] == NatToString(n / 10);
    }
  }

  /** `String(n)` is a faithful rendering: reading it back gives `n`. */
  lemma IntToStringRoundTrip(n: int)
    ensures ParseInt(IntToString(n)) == Some(n)
  {
    var digits := NatToString(if n < 0 then -n else n);
    NatToStringValue(if n < 0 then -n else n);
    if n < 0 {
      ParseNegative(digits);
    } else {
      ParseDigits(digits);
    }
  }

  lemma ParseDigits(digits: string)
    requires digits != [] && AllDigits(digits)
    ensures ParseInt(digits) == Some(DigitsValue(digits))
  {
    assert '0' <= digits[0] <= '9';
  }

  lemma ParseNegative(digits: string)
    requires digits != [] && AllDigits(digits)
    ensures ParseInt("-" + digits) == Some(0 - DigitsValue(digits))
  {
    assert ("-" + digits)[1..] == digits;
  }

  // ---------------------------------------------------------------------------
  // Array.prototype.join

  /** `parts.join(sep)`. */
  function Join(parts: seq<string>, sep: string): (r: string)
    ensures parts == [] ==> r == ""
    ensures |parts| == 1 ==> r == parts[0]
  {
    if parts == [] then "" else if |parts| == 1 then parts[0] else parts[0] + sep + Join(parts[1..], sep)
  }

  /** Joining one more part adds exactly the separator and that part. */
  lemma {:induction false} JoinSnoc(parts: seq<string>, last: string, sep: string)
    requires parts != []
    ensures Join(parts + [last], sep) == Join(parts, sep) + sep + last
  {
    if |parts| == 1 {
      assert (parts + [last])[1..] == [last];
    } else {
      assert (parts + [last])[1..] == parts[1..] + [last];
      JoinSnoc(parts[1..], last, sep);
    }
  }

  /** Each part of a join is included in the joined string. */
  lemma {:induction false} JoinContainsPart(parts: seq<string>, sep: string, i: int)
    requires 0 <= i < |parts|
    ensures Contains(Join(parts, sep), parts[i])
  {
    if |parts| == 1 {
      ContainsInside("", parts[0], "");
      assert "" + parts[0] + "" == parts[0];
    } else if i == 0 {
      ContainsInside("", parts[0], sep + Join(parts[1..], sep));
      assert "" + parts[0] + (sep + Join(parts[1..], sep)) == Join(parts, sep);
    } else {
      JoinContainsPart(parts[1..], sep, i - 1);
      ContainsWithin(parts[0] + sep, Join(parts[1..], sep), "", parts[i]);
      assert parts[0] + sep + Join(parts[1..], sep) + "" == Join(parts, sep);
    }
  }

  // ---------------------------------------------------------------------------
  // Array.prototype.map

  /** `xs.map(f)`. */
  function MapSeq<T, U>(xs: seq<T>, f: T -> U): (r: seq<U>)
    ensures |r| == |xs|
  {
    seq(|xs|, i requires 0 <= i < |xs| => f(xs[i]))
  }

  /** The `i`-th result is `f` of the `i`-th element. */
  lemma MapSeqAt<T, U>(xs: seq<T>, f: T -> U, i: int)
    requires 0 <= i < |xs|
    ensures MapSeq(xs, f)[i] == f(xs[i])
  {
  }

  /** Mapping a prefix one element longer adds that element's result. */
  lemma MapSeqStep<T, U>(xs: seq<T>, f: T -> U, j: int)
    requires 0 <= j < |xs|
    ensures MapSeq(xs[..j + 1], f) == MapSeq(xs[..j], f) + [f(xs[j])]
  {
    assert forall i :: 0 <= i < j + 1 ==> MapSeq(xs[..j + 1], f)[i] == (MapSeq(xs[..j], f) + [f(xs[j])])[i];
  }

  // ---------------------------------------------------------------------------
  // Thrown values

  /** What a `catch` clause can receive. */
  datatype Thrown =
    | ErrorInstance(name: string, message: string)
      // an `Error` (`instanceof Error` holds): its `name` and `message`
    | PlainObject(nestedMessage: Option<string>, json: Option<string>)
      // a non-null object that is not an `Error`: `err.error.message` if present, and the
      // text `JSON.stringify(err)` produces (None when stringifying throws)
    | OtherValue
      // a primitive, `null` or `undefined`

  /** `Error.prototype.toString`. */
  function ErrorToString(name: string, message: string): (r: string)
    ensures name == "" ==> r == message
    ensures name != "" && message == "" ==> r == name
    ensures name != "" && message != "" ==> r == name + ": " + message
  {
    if name == "" then message else if message == "" then name else name + ": " + message
  }

  /** An `Error` whose message contains `sub` also has `sub` in its `toString()`. */
  lemma ErrorToStringKeepsMessage(name: string, message: string, sub: string)
    requires Contains(message, sub)
    ensures Contains(ErrorToString(name, message), sub)
  {
    if name != "" && message != "" {
      ContainsWithin(name + ": ", message, "", sub);
      assert name + ": " + message + "" == name + ": " + message;
    } else if name != "" {
      ContainsIffOccurs(message, sub);
      var i :| OccursAt(message, sub, i);
      assert sub == [];
      ContainsEmpty(name);
    }
  }
}
