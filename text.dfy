/**
 * String helpers with the semantics of the JavaScript built-ins the
 * generators use: `String.prototype.trim`, `Array.prototype.join`,
 * `String.prototype.split('\n')`, `startsWith`, and `||` on strings.
 */
module Text {

  /** The characters `String.prototype.trim` strips: WhiteSpace and LineTerminator. */
  predicate IsJsWhitespace(c: char)
  {
    || c == '\t' || c == '\n' || c == '\U{000B}' || c == '\U{000C}' || c == '\r'
    || c == ' ' || c == '\U{00A0}' || c == '\U{1680}'
    || ('\U{2000}' <= c <= '\U{200A}')
    || c == '\U{2028}' || c == '\U{2029}' || c == '\U{202F}' || c == '\U{205F}'
    || c == '\U{3000}' || c == '\U{FEFF}'
  }

  /** True iff every character is whitespace. */
  predicate IsBlank(s: string)
  {
    forall i :: 0 <= i < |s| ==> IsJsWhitespace(s[i])
  }

  function TrimStart(s: string): (r: string)
    ensures |r| <= |s|
    ensures r == "" || !IsJsWhitespace(r[0])
  {
    if s != [] && IsJsWhitespace(s[0]) then TrimStart(s[1..]) else s
  }

  function TrimEnd(s: string): (r: string)
    ensures |r| <= |s|
  {
    if s != [] && IsJsWhitespace(s[|s| - 1]) then TrimEnd(s[..|s| - 1]) else s
  }

  /** `s.trim()`. */
  function Trim(s: string): string
  {
    TrimEnd(TrimStart(s))
  }

  lemma {:induction false} TrimStartEmptyIffBlank(s: string)
    ensures TrimStart(s) == "" <==> IsBlank(s)
    decreases |s|
  {
    if s != [] && IsJsWhitespace(s[0]) {
      TrimStartEmptyIffBlank(s[1..]);
      assert IsBlank(s) <==> IsBlank(s[1..]) by {
        if IsBlank(s[1..]) {
          forall i | 0 <= i < |s| ensures IsJsWhitespace(s[i]) {
            if i > 0 { assert s[i] == s[1..][i - 1]; }
          }
        }
        if IsBlank(s) {
          forall i | 0 <= i < |s[1..]| ensures IsJsWhitespace(s[1..][i]) {
            assert s[1..][i] == s[i + 1];
          }
        }
      }
    }
  }

  lemma {:induction false} TrimEndOfNonWhitespaceStart(s: string)
    requires s != [] && !IsJsWhitespace(s[0])
    ensures TrimEnd(s) != ""
    decreases |s|
  {
    if IsJsWhitespace(s[|s| - 1]) {
      assert |s| > 1;
      TrimEndOfNonWhitespaceStart(s[..|s| - 1]);
    }
  }

  /** A string trims to "" (is falsy after `trim()`) exactly when it is all whitespace. */
  lemma TrimEmptyIffBlank(s: string)
    ensures Trim(s) == "" <==> IsBlank(s)
  {
    TrimStartEmptyIffBlank(s);
    var t := TrimStart(s);
    if t != "" {
      assert !IsJsWhitespace(t[0]);
      TrimEndOfNonWhitespaceStart(t);
    }
  }

  /** `items.filter(item => item.trim())`: the entries whose trimmed text is non-empty. */
  function KeepNonBlank(items: seq<string>): (r: seq<string>)
    ensures |r| <= |items|
  {
    if items == [] then []
    else (if Trim(items[0]) != "" then [items[0]] else []) + KeepNonBlank(items[1..])
  }

  /** Filtering distributes over concatenation: the order of the kept entries is the original one. */
  lemma {:induction false} KeepNonBlankAppend(a: seq<string>, b: seq<string>)
    ensures KeepNonBlank(a + b) == KeepNonBlank(a) + KeepNonBlank(b)
    decreases |a|
  {
    if a == [] {
      assert a + b == b;
    } else {
      assert (a + b)[0] == a[0];
      assert (a + b)[1..] == a[1..] + b;
      KeepNonBlankAppend(a[1..], b);
    }
  }

  /** An entry survives the filter iff it occurs in the input and is not blank. */
  lemma {:induction false} KeepNonBlankMembers(items: seq<string>, x: string)
    ensures x in KeepNonBlank(items) <==> x in items && !IsBlank(x)
    decreases |items|
  {
    TrimEmptyIffBlank(x);
    if items != [] {
      KeepNonBlankMembers(items[1..], x);
      TrimEmptyIffBlank(items[0]);
      assert x in items <==> x == items[0] || x in items[1..];
    }
  }

  /** Nothing is dropped when no entry is blank. */
  lemma {:induction false} KeepNonBlankAllKept(items: seq<string>)
    requires forall i :: 0 <= i < |items| ==> !IsBlank(items[i])
    ensures KeepNonBlank(items) == items
    decreases |items|
  {
    if items != [] {
      TrimEmptyIffBlank(items[0]);
      KeepNonBlankAllKept(items[1..]);
    }
  }

  /** `xs.join(sep)`. */
  function Join(xs: seq<string>, sep: string): string
  {
    if |xs| == 0 then "" else if |xs| == 1 then xs[0] else xs[0] + sep + Join(xs[1..], sep)
  }

  /** Joining two non-empty lists puts exactly one separator between their joins. */
  lemma {:induction false} JoinAppend(xs: seq<string>, ys: seq<string>, sep: string)
    requires xs != [] && ys != []
    ensures Join(xs + ys, sep) == Join(xs, sep) + sep + Join(ys, sep)
    decreases |xs|
  {
    if |xs| == 1 {
      assert (xs + ys)[0] == xs[0];
      assert (xs + ys)[1..] == ys;
    } else {
      assert (xs + ys)[0] == xs[0];
      assert (xs + ys)[1..] == xs[1..] + ys;
      JoinAppend(xs[1..], ys, sep);
    }
  }

  /** `s.split('\n')`: always at least one piece, none containing a newline. */
  function SplitLines(s: string): (r: seq<string>)
    ensures |r| >= 1
    decreases |s|
  {
    if s == [] then [""]
    else if s[0] == '\n' then [""] + SplitLines(s[1..])
    else
      var rest := SplitLines(s[1..]);
      [[s[0]] + rest[0]] + rest[1..]
  }

  lemma {:induction false} SplitLinesNoNewline(s: string)
    requires '\n' !in s
    ensures SplitLines(s) == [s]
    decreases |s|
  {
    if s != [] {
      assert s[0] in s;
      assert forall c :: c in s[1..] ==> c in s;
      SplitLinesNoNewline(s[1..]);
      assert [s[0]] + s[1..] == s;
    }
  }

  lemma {:induction false} SplitLinesAfterLine(a: string, b: string)
    requires '\n' !in a
    ensures SplitLines(a + "\n" + b) == [a] + SplitLines(b)
    decreases |a|
  {
    if a == [] {
      assert a + "\n" + b == "\n" + b;
      assert ("\n" + b)[1..] == b;
    } else {
      assert (a + "\n" + b)[0] == a[0];
      assert (a + "\n" + b)[1..] == a[1..] + "\n" + b;
      assert a[0] in a;
      assert forall c :: c in a[1..] ==> c in a;
      SplitLinesAfterLine(a[1..], b);
      assert [a[0]] + a[1..] == a;
    }
  }

  /**
   * Splitting a newline-joined list of newline-free lines gives the list back:
   * the joined text has exactly one line per entry.
   */
  lemma {:induction false} SplitJoinLines(xs: seq<string>)
    requires xs != []
    requires forall i :: 0 <= i < |xs| ==> '\n' !in xs[i]
    ensures SplitLines(Join(xs, "\n")) == xs
    decreases |xs|
  {
    if |xs| == 1 {
      SplitLinesNoNewline(xs[0]);
    } else {
      SplitLinesAfterLine(xs[0], Join(xs[1..], "\n"));
      SplitJoinLines(xs[1..]);
    }
  }

  /** `s.startsWith(p)`. */
  predicate StartsWith(s: string, p: string)
  {
    |p| <= |s| && s[..|p|] == p
  }

  /** A text begins with anything it was built by appending to. */
  lemma StartsWithAppend(a: string, b: string, c: string)
    ensures StartsWith(a + b, a)
    ensures StartsWith(a + b + c, a)
  {
    assert (a + b)[..|a|] == a;
    assert (a + b + c)[..|a|] == a;
  }

  /** `s || fallback` for a string `s`: the empty string is the only falsy string. */
  function OrElse(s: string, fallback: string): (r: string)
    ensures s != "" ==> r == s
    ensures s == "" ==> r == fallback
  {
    if s == "" then fallback else s
  }

  function DigitChar(d: nat): char
    requires d < 10
  {
    "0123456789"[d]
  }

  /** The decimal text of a number, as a template literal prints it. */
  function NatToString(n: nat): (r: string)
    ensures r != ""
    ensures forall i :: 0 <= i < |r| ==> '0' <= r[i] <= '9'
    decreases n
  {
    if n < 10 then [DigitChar(n)] else NatToString(n / 10) + [DigitChar(n % 10)]
  }

  /** The value of one decimal digit. */
  function DigitValue(c: char): nat
  {
    if '0' <= c <= '9' then c as int - '0' as int else 0
  }

  /** The number a string of decimal digits denotes, most significant digit first. */
  function DigitsValue(s: string): nat
    decreases |s|
  {
    if s == [] then 0 else DigitsValue(s[..|s| - 1]) * 10 + DigitValue(s[|s| - 1])
  }

  lemma DigitCharValue(d: nat)
    requires d < 10
    ensures DigitValue(DigitChar(d)) == d
  {
  }

  /** The decimal text of `n` denotes `n`. */
  lemma {:induction false} NatToStringValue(n: nat)
    ensures DigitsValue(NatToString(n)) == n
    decreases n
  {
    var r := NatToString(n);
    if n < 10 {
      DigitCharValue(n);
      assert r[..|r| - 1] == [];
    } else {
      NatToStringValue(n / 10);
      DigitCharValue(n % 10);
      assert r[..|r| - 1] == NatToString(n / 10);
    }
  }

  /** Different numbers print differently. */
  lemma NatToStringInjective(a: nat, b: nat)
    ensures NatToString(a) == NatToString(b) ==> a == b
  {
    NatToStringValue(a);
    NatToStringValue(b);
  }
}
