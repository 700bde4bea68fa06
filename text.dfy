/** String operations of the JavaScript runtime that the source calls:
    `String.prototype.trim`, `Array.prototype.join`, `String(n)` on a
    non-negative integer and `String.prototype.padStart`, together with
    the inverse functions used to state round trips. */
module Text {
  import opened Common

  // ---------- whitespace and trim ----------

  /** The characters `trim` removes: ECMAScript WhiteSpace and LineTerminator. */
  predicate IsJsWhitespace(c: char)
  {
    c == ' ' || c == '\t' || c == '\n' || c == '\r' || c == '\U{000B}' || c == '\U{000C}'
    || c == '\U{00A0}' || c == '\U{1680}' || ('\U{2000}' <= c <= '\U{200A}')
    || c == '\U{2028}' || c == '\U{2029}' || c == '\U{202F}' || c == '\U{205F}'
    || c == '\U{3000}' || c == '\U{FEFF}'
  }

  /** Drops leading whitespace: the result is a suffix of `s`, everything cut
      off is whitespace and the result does not start with whitespace. */
  function TrimStart(s: string): (r: string)
    ensures |r| <= |s| && r == s[|s| - |r|..]
    ensures forall i :: 0 <= i < |s| - |r| ==> IsJsWhitespace(s[i])
    ensures r == [] || !IsJsWhitespace(r[0])
  {
    if s != [] && IsJsWhitespace(s[0]) then TrimStart(s[1..]) else s
  }

  /** Drops trailing whitespace, symmetrically. */
  function TrimEnd(s: string): (r: string)
    ensures |r| <= |s| && r == s[..|r|]
    ensures forall i :: |r| <= i < |s| ==> IsJsWhitespace(s[i])
    ensures r == [] || !IsJsWhitespace(r[|r| - 1])
  {
    if s != [] && IsJsWhitespace(s[|s| - 1]) then TrimEnd(s[..|s| - 1]) else s
  }

  /** `s.trim()`. */
  function Trim(s: string): (r: string)
    ensures |r| <= |s|
    ensures r == [] || (!IsJsWhitespace(r[0]) && !IsJsWhitespace(r[|r| - 1]))
  {
    TrimEnd(TrimStart(s))
  }

  /** What `trim` removes is whitespace at both ends and nothing else:
      the result is a slice of `s` with only whitespace around it. */
  lemma TrimSlice(s: string)
    ensures exists i, j :: 0 <= i <= j <= |s| && Trim(s) == s[i..j]
                           && (forall k :: 0 <= k < i ==> IsJsWhitespace(s[k]))
                           && (forall k :: j <= k < |s| ==> IsJsWhitespace(s[k]))
  {
    var t := TrimStart(s);
    var u := TrimEnd(t);
    var i := |s| - |t|;
    assert u == s[i..i + |u|];
    assert forall k :: i + |u| <= k < |s| ==> s[k] == t[k - i];
  }

  /** A string made only of whitespace trims to "" and nothing else does. */
  lemma TrimEmptyIff(s: string)
    ensures Trim(s) == [] <==> forall i :: 0 <= i < |s| ==> IsJsWhitespace(s[i])
  {
    var t := TrimStart(s);
    if !forall i :: 0 <= i < |s| ==> IsJsWhitespace(s[i]) {
      var i :| 0 <= i < |s| && !IsJsWhitespace(s[i]);
      assert |s| - |t| <= i;
      assert t != [] && !IsJsWhitespace(t[0]);
      assert TrimEnd(t) != [];
    }
  }

  /** Trimming twice is trimming once. */
  lemma TrimIdempotent(s: string)
    ensures Trim(Trim(s)) == Trim(s)
  {
    var t := Trim(s);
    assert TrimStart(t) == t;
    assert TrimEnd(t) == t;
  }

  // ---------- filter(Boolean) and join ----------

  /** `parts.filter(Boolean)` over `string | null | undefined` values: keeps
      the present, non-empty strings, in order. */
  function KeepTruthy(parts: seq<Option<string>>): (r: seq<string>)
    ensures |r| <= |parts|
    ensures forall k :: 0 <= k < |r| ==> r[k] != ""
    ensures forall s :: s in r <==> Some(s) in parts && s != ""
    ensures r == [] <==> forall k :: 0 <= k < |parts| ==> !Truthy(parts[k])
  {
    if parts == [] then []
    else
      var rest := KeepTruthy(parts[1..]);
      assert forall x :: x in parts <==> x == parts[0] || x in parts[1..];
      if Truthy(parts[0]) then [parts[0].value] + rest else rest
  }

  /** `filter(Boolean)` distributes over concatenation, so the kept parts
      keep their order. */
  lemma {:induction false} KeepTruthyAppend(a: seq<Option<string>>, b: seq<Option<string>>)
    ensures KeepTruthy(a + b) == KeepTruthy(a) + KeepTruthy(b)
  {
    if a == [] {
      assert a + b == b;
    } else {
      assert (a + b)[0] == a[0];
      assert (a + b)[1..] == a[1..] + b;
      KeepTruthyAppend(a[1..], b);
    }
  }

  /** `filter(Boolean)` keeps each truthy part as often as it occurs. */
  lemma {:induction false} KeepTruthyMultiset(parts: seq<Option<string>>)
    ensures forall t :: multiset(KeepTruthy(parts))[t] == if t != "" then multiset(parts)[Some(t)] else 0
  {
    if parts != [] {
      assert parts == [parts[0]] + parts[1..];
      KeepTruthyMultiset(parts[1..]);
    }
  }

  /** `v ? prefix + v : null`. */
  function Prefixed(prefix: string, v: Option<string>): (r: Option<string>)
    ensures Truthy(r) <==> Truthy(v)
    ensures Truthy(v) ==> r == Some(prefix + v.value)
    ensures !Truthy(v) ==> r.None?
  {
    if Truthy(v) then Some(prefix + v.value) else None
  }

  /** When exactly one part is truthy, `filter(Boolean)` keeps only it. */
  lemma {:induction false} KeepTruthySingle(parts: seq<Option<string>>, i: nat)
    requires i < |parts| && Truthy(parts[i])
    requires forall k :: 0 <= k < |parts| && k != i ==> !Truthy(parts[k])
    ensures KeepTruthy(parts) == [parts[i].value]
  {
    if i == 0 {
      assert forall k :: 0 <= k < |parts[1..]| ==> !Truthy(parts[1..][k]) by {
        forall k | 0 <= k < |parts[1..]| ensures !Truthy(parts[1..][k]) {
          assert parts[1..][k] == parts[k + 1];
        }
      }
    } else {
      forall k | 0 <= k < |parts[1..]| && k != i - 1 ensures !Truthy(parts[1..][k]) {
        assert parts[1..][k] == parts[k + 1];
      }
      KeepTruthySingle(parts[1..], i - 1);
    }
  }

  /** `parts.join(sep)`. */
  function Join(parts: seq<string>, sep: string): string
  {
    if |parts| == 0 then ""
    else if |parts| == 1 then parts[0]
    else parts[0] + sep + Join(parts[1..], sep)
  }

  /** Index of the first ", " in `s`, or `|s|` when there is none. */
  function FirstSeparator(s: string): (k: nat)
    ensures k <= |s|
    ensures k < |s| ==> k + 1 < |s| && s[k] == ',' && s[k + 1] == ' '
    ensures forall i :: 0 <= i < k && i + 1 < |s| ==> !(s[i] == ',' && s[i + 1] == ' ')
  {
    if |s| < 2 then |s|
    else if s[0] == ',' && s[1] == ' ' then 0
    else 1 + FirstSeparator(s[1..])
  }

  /** Splits a ", "-joined line back into its parts (the empty line has none). */
  function SplitOnSeparator(s: string): seq<string>
    decreases |s|
  {
    if s == [] then []
    else
      var k := FirstSeparator(s);
      if k == |s| then [s] else [s[..k]] + SplitOnSeparator(s[k + 2..])
  }

  predicate NoComma(p: string)
  {
    forall i :: 0 <= i < |p| ==> p[i] != ','
  }

  lemma FirstSeparatorAfter(p: string, t: string)
    requires NoComma(p)
    ensures FirstSeparator(p + ", " + t) == |p|
  {
    var s := p + ", " + t;
    assert s[|p|] == ',' && s[|p| + 1] == ' ';
    assert forall i :: 0 <= i < |p| ==> s[i] == p[i];
  }

  /** One step of the split: a comma-free, non-empty first part comes off whole. */
  lemma SplitStep(p: string, t: string)
    requires p != "" && NoComma(p)
    ensures SplitOnSeparator(p + ", " + t) == [p] + SplitOnSeparator(t)
  {
    var s := p + ", " + t;
    FirstSeparatorAfter(p, t);
    assert s[..|p|] == p;
    assert s[|p| + 2..] == t;
  }

  /** Round trip: a ", "-joined line of non-empty, comma-free parts splits
      back into exactly those parts. */
  lemma {:induction false} SplitJoin(parts: seq<string>)
    requires forall k :: 0 <= k < |parts| ==> parts[k] != "" && NoComma(parts[k])
    ensures SplitOnSeparator(Join(parts, ", ")) == parts
  {
    if |parts| == 1 {
      var p := parts[0];
      assert forall i :: 0 <= i < |p| ==> p[i] != ',';
      assert FirstSeparator(p) == |p|;
    } else if |parts| > 1 {
      SplitStep(parts[0], Join(parts[1..], ", "));
      SplitJoin(parts[1..]);
      assert parts == [parts[0]] + parts[1..];
    }
  }

  /** ", "-joining non-empty parts gives "" exactly when there are none. */
  lemma JoinEmptyIff(parts: seq<string>)
    requires forall k :: 0 <= k < |parts| ==> parts[k] != ""
    ensures Join(parts, ", ") == "" <==> parts == []
  {
    if |parts| > 1 {
      assert |Join(parts, ", ")| >= |parts[0]| + 2;
    }
  }

  /** A line made of optional parts is "" exactly when no part is present
      and non-empty. */
  lemma JoinedPartsEmptyIff(parts: seq<Option<string>>)
    ensures Join(KeepTruthy(parts), ", ") == "" <==> forall k :: 0 <= k < |parts| ==> !Truthy(parts[k])
  {
    JoinEmptyIff(KeepTruthy(parts));
  }

  /** When no part contains a comma, the line splits back into the kept
      parts, in order. */
  lemma JoinedPartsSplit(parts: seq<Option<string>>)
    requires forall k :: 0 <= k < |parts| ==> NoCommaIn(parts[k])
    ensures SplitOnSeparator(Join(KeepTruthy(parts), ", ")) == KeepTruthy(parts)
  {
    var kept := KeepTruthy(parts);
    forall k | 0 <= k < |kept| ensures kept[k] != "" && NoComma(kept[k]) {
      assert kept[k] in kept;
      var j :| 0 <= j < |parts| && parts[j] == Some(kept[k]);
      assert NoCommaIn(parts[j]);
    }
    SplitJoin(kept);
  }

  /** A field that is present holds no comma. */
  predicate NoCommaIn(v: Option<string>)
  {
    v.Some? ==> NoComma(v.value)
  }

  /** A fixed prefix followed by a comma-free value has no comma. */
  lemma PrefixedNoComma(prefix: string, v: string)
    requires NoComma(prefix) && NoComma(v)
    ensures NoComma(prefix + v)
  {
    forall i | 0 <= i < |prefix + v| ensures (prefix + v)[i] != ',' {
      if i >= |prefix| {
        assert (prefix + v)[i] == v[i - |prefix|];
      }
    }
  }

  // ---------- decimal digits ----------

  predicate IsDigit(c: char)
  {
    '0' <= c <= '9'
  }

  predicate AllDigits(s: string)
  {
    forall i :: 0 <= i < |s| ==> IsDigit(s[i])
  }

  function DigitChar(d: nat): (c: char)
    requires d < 10
    ensures IsDigit(c) && c as int - '0' as int == d
  {
    ('0' as int + d) as char
  }

  /** `String(n)` for a non-negative integer: its shortest decimal digits. */
  function DecimalString(n: nat): string
  {
    if n < 10 then [DigitChar(n)] else DecimalString(n / 10) + [DigitChar(n % 10)]
  }

  /** The number a string of decimal digits denotes (leading zeros allowed). */
  function DigitsValue(s: string): nat
    requires AllDigits(s)
  {
    if s == [] then 0
    else DigitsValue(s[..|s| - 1]) * 10 + (s[|s| - 1] as int - '0' as int)
  }

  function Pow10(k: nat): (p: nat)
    ensures p >= 1
  {
    if k == 0 then 1 else 10 * Pow10(k - 1)
  }

  /** `String(n)` is made of digits, denotes `n`, is never empty and has no
      leading zero unless it is "0". */
  lemma {:induction false} DecimalStringValue(n: nat)
    ensures AllDigits(DecimalString(n)) && DigitsValue(DecimalString(n)) == n
    ensures |DecimalString(n)| >= 1
    ensures (DecimalString(n)[0] == '0') <==> n == 0
  {
    if n >= 10 {
      DecimalStringValue(n / 10);
      var s := DecimalString(n);
      assert s[..|s| - 1] == DecimalString(n / 10);
      assert s[0] == DecimalString(n / 10)[0];
    }
  }

  /** `String(n)` has at most `k` digits exactly when `n < 10^k` (k >= 1:
      "0" itself has one digit). */
  lemma {:induction false} DecimalStringLength(n: nat, k: nat)
    requires k >= 1
    ensures |DecimalString(n)| <= k <==> n < Pow10(k)
  {
    if n >= 10 {
      assert |DecimalString(n)| == |DecimalString(n / 10)| + 1;
      if k > 1 {
        DecimalStringLength(n / 10, k - 1);
      } else {
        DecimalStringValue(n / 10);
      }
      assert Pow10(k) == 10 * Pow10(k - 1);
      assert n < Pow10(k) <==> n / 10 < Pow10(k - 1);
    } else {
      assert |DecimalString(n)| == 1;
      assert Pow10(k) == 10 * Pow10(k - 1) >= 10;
    }
  }

  /** Distinct numbers have distinct decimal strings. */
  lemma DecimalStringInjective(a: nat, b: nat)
    requires DecimalString(a) == DecimalString(b)
    ensures a == b
  {
    DecimalStringValue(a);
    DecimalStringValue(b);
  }

  /** `String(i)` for any integer: a minus sign before the digits of a
      negative value. */
  function IntString(i: int): (r: string)
    ensures |r| >= 1
    ensures i >= 0 ==> r == DecimalString(i)
    ensures i < 0 ==> r[0] == '-' && r[1..] == DecimalString(-i)
  {
    if i >= 0 then DecimalString(i) else "-" + DecimalString(-i)
  }

  // ---------- ASCII case ----------

  function AsciiLower(c: char): (l: char)
    ensures !('A' <= l <= 'Z')
    ensures !('A' <= c <= 'Z') ==> l == c
    ensures 'A' <= c <= 'Z' ==> 'a' <= l <= 'z' && l as int == c as int + 32
  {
    if 'A' <= c <= 'Z' then (c as int + 32) as char else c
  }

  /** Lower-cases the ASCII letters of `s` and leaves every other character. */
  function AsciiLowerString(s: string): (r: string)
    ensures |r| == |s| && forall i :: 0 <= i < |s| ==> r[i] == AsciiLower(s[i])
  {
    seq(|s|, i requires 0 <= i < |s| => AsciiLower(s[i]))
  }

  // ---------- padding ----------

  function Repeat(c: char, k: nat): (r: string)
    ensures |r| == k && forall i :: 0 <= i < k ==> r[i] == c
  {
    if k == 0 then "" else Repeat(c, k - 1) + [c]
  }

  /** `s.padStart(width, c)` for a one-character pad string. */
  function PadStart(s: string, width: nat, c: char): (r: string)
    ensures |r| == if |s| >= width then |s| else width
    ensures r[|r| - |s|..] == s
    ensures forall i :: 0 <= i < |r| - |s| ==> r[i] == c
  {
    if |s| >= width then s else Repeat(c, width - |s|) + s
  }

  /** Leading zeros do not change the value of a digit string. */
  lemma {:induction false} LeadingZerosValue(k: nat, s: string)
    requires AllDigits(s)
    ensures AllDigits(Repeat('0', k) + s)
    ensures DigitsValue(Repeat('0', k) + s) == DigitsValue(s)
    decreases |s|, k
  {
    var z := Repeat('0', k);
    if s == [] {
      assert z + s == z;
      if k > 0 {
        LeadingZerosValue(k - 1, s);
        assert z[..|z| - 1] == Repeat('0', k - 1) + s;
      }
    } else {
      LeadingZerosValue(k, s[..|s| - 1]);
      assert (z + s)[..|z + s| - 1] == z + s[..|s| - 1];
    }
  }
}
