/** String operations of the JavaScript runtime that the generators rely on:
    the white-space class of `\s` and `trim`, `split`/`join`, number-to-text
    conversion, `toUpperCase`, and the UTF-16 encoding that JavaScript strings use. */
module Text {

  // ---------------------------------------------------------------------------
  // White space

  /** ECMAScript WhiteSpace and LineTerminator code points: exactly what the regular
      expression class `\s` matches and what `String.prototype.trim` strips. */
  predicate IsJsSpaceCode(v: int) {
    || v == 0x09 || v == 0x0A || v == 0x0B || v == 0x0C || v == 0x0D
    || v == 0x20 || v == 0xA0 || v == 0x1680
    || (0x2000 <= v <= 0x200A)
    || v == 0x2028 || v == 0x2029 || v == 0x202F || v == 0x205F
    || v == 0x3000 || v == 0xFEFF
  }

  predicate IsJsSpace(c: char) {
    IsJsSpaceCode(c as int)
  }

  /** True iff the string has a character that is not white space. */
  predicate HasNonSpace(s: string) {
    exists i :: 0 <= i < |s| && !IsJsSpace(s[i])
  }

  /** Leading white space removed. */
  function TrimStart(s: string): (r: string)
    ensures |r| <= |s| && r == s[|s| - |r|..]
    ensures forall i :: 0 <= i < |s| - |r| ==> IsJsSpace(s[i])
    ensures r != [] ==> !IsJsSpace(r[0])
  {
    if s != [] && IsJsSpace(s[0]) then TrimStart(s[1..]) else s
  }

  /** Trailing white space removed. */
  function TrimEnd(s: string): (r: string)
    ensures |r| <= |s| && r == s[..|r|]
    ensures forall i :: |r| <= i < |s| ==> IsJsSpace(s[i])
    ensures r != [] ==> !IsJsSpace(r[|r| - 1])
  {
    if s != [] && IsJsSpace(s[|s| - 1]) then TrimEnd(s[..|s| - 1]) else s
  }

  /** `String.prototype.trim`. */
  function Trim(s: string): string {
    TrimEnd(TrimStart(s))
  }

  /** `s.trim()` is truthy exactly when `s` holds a non-white-space character. */
  lemma TrimNonEmptyIff(s: string)
    ensures Trim(s) != "" <==> HasNonSpace(s)
  {
    var t := TrimStart(s);
    var u := TrimEnd(t);
    assert t == s[|s| - |t|..];
    if u != "" {
      assert u[|u| - 1] == t[|u| - 1] == s[|s| - |t| + |u| - 1];
    }
  }

  /** `lines.filter(l => l.trim())`: the lines whose trimmed form is non-empty, in order. */
  function KeepNonBlank(lines: seq<string>): seq<string> {
    if lines == [] then []
    else if Trim(lines[0]) != "" then [lines[0]] + KeepNonBlank(lines[1..])
    else KeepNonBlank(lines[1..])
  }

  /** The lines that contain a non-white-space character, in their original order:
      an independent description of `KeepNonBlank`. */
  ghost predicate IsNonBlankSubsequence(kept: seq<string>, lines: seq<string>)
    decreases |lines|
  {
    if lines == [] then kept == []
    else if HasNonSpace(lines[0]) then kept != [] && kept[0] == lines[0] && IsNonBlankSubsequence(kept[1..], lines[1..])
    else IsNonBlankSubsequence(kept, lines[1..])
  }

  lemma {:induction false} KeepNonBlankSpec(lines: seq<string>)
    ensures IsNonBlankSubsequence(KeepNonBlank(lines), lines)
    ensures |KeepNonBlank(lines)| <= |lines|
    ensures forall k :: 0 <= k < |KeepNonBlank(lines)| ==> HasNonSpace(KeepNonBlank(lines)[k])
    ensures forall l :: l in KeepNonBlank(lines) ==> l in lines
    decreases |lines|
  {
    if lines != [] {
      TrimNonEmptyIff(lines[0]);
      KeepNonBlankSpec(lines[1..]);
      var rest := KeepNonBlank(lines[1..]);
      if Trim(lines[0]) != "" {
        assert KeepNonBlank(lines) == [lines[0]] + rest;
        assert KeepNonBlank(lines)[1..] == rest;
        forall k | 0 <= k < |KeepNonBlank(lines)|
          ensures HasNonSpace(KeepNonBlank(lines)[k])
        {
          if k > 0 { assert KeepNonBlank(lines)[k] == rest[k - 1]; }
        }
      }
    }
  }

  // ---------------------------------------------------------------------------
  // split and join

  /** Number of occurrences of `c` in `s`. */
  function Occurrences(s: string, c: char): nat {
    if s == [] then 0 else (if s[0] == c then 1 else 0) + Occurrences(s[1..], c)
  }

  /** `s.split(sep)` for a one-character separator: the maximal separator-free pieces. */
  function Split(s: string, sep: char): (parts: seq<string>)
    ensures |parts| == Occurrences(s, sep) + 1
    ensures forall k :: 0 <= k < |parts| ==> sep !in parts[k]
  {
    if s == [] then [""]
    else
      var rest := Split(s[1..], sep);
      if s[0] == sep then [""] + rest
      else [[s[0]] + rest[0]] + rest[1..]
  }

  /** `parts.join(glue)`. */
  function Join(parts: seq<string>, glue: string): string {
    if |parts| == 0 then ""
    else if |parts| == 1 then parts[0]
    else parts[0] + glue + Join(parts[1..], glue)
  }

  /** Joining the pieces of a split with the separator gives the string back. */
  lemma {:induction false} JoinSplit(s: string, sep: char)
    ensures Join(Split(s, sep), [sep]) == s
  {
    if s != [] {
      JoinSplit(s[1..], sep);
      var rest := Split(s[1..], sep);
      if s[0] == sep {
        assert Split(s, sep) == [""] + rest;
        assert ([""] + rest)[1..] == rest;
      } else {
        var parts := Split(s, sep);
        assert parts == [[s[0]] + rest[0]] + rest[1..];
        if |rest| == 1 {
          assert parts == [[s[0]] + rest[0]];
        } else {
          assert parts[1..] == rest[1..];
          assert Join(rest, [sep]) == rest[0] + [sep] + Join(rest[1..], [sep]);
        }
      }
    }
  }

  /** Splitting a join of separator-free pieces gives the pieces back. */
  lemma {:induction false} SplitJoin(parts: seq<string>, sep: char)
    requires |parts| >= 1
    requires forall k :: 0 <= k < |parts| ==> sep !in parts[k]
    ensures Split(Join(parts, [sep]), sep) == parts
    decreases |parts|, |parts[0]|
  {
    if |parts| == 1 {
      SplitFree(parts[0], sep);
    } else if parts[0] == "" {
      var tail := Join(parts[1..], [sep]);
      assert Join(parts, [sep]) == [sep] + tail;
      assert ([sep] + tail)[1..] == tail;
      SplitJoin(parts[1..], sep);
      assert parts == [""] + parts[1..];
    } else {
      var s := Join(parts, [sep]);
      var shorter := [parts[0][1..]] + parts[1..];
      assert Join(shorter, [sep]) == parts[0][1..] + [sep] + Join(parts[1..], [sep]);
      assert s == [parts[0][0]] + Join(shorter, [sep]);
      assert s[1..] == Join(shorter, [sep]);
      assert s[0] == parts[0][0] != sep;
      forall k | 0 <= k < |shorter| ensures sep !in shorter[k] {
        if k == 0 {
          assert forall c :: c in parts[0][1..] ==> c in parts[0];
        } else {
          assert shorter[k] == parts[k];
        }
      }
      SplitJoin(shorter, sep);
      assert [parts[0][0]] + parts[0][1..] == parts[0];
      assert shorter[1..] == parts[1..];
    }
  }

  /** A separator-free string splits into itself. */
  lemma {:induction false} SplitFree(s: string, sep: char)
    requires sep !in s
    ensures Split(s, sep) == [s]
  {
    if s != [] {
      assert forall c :: c in s[1..] ==> c in s;
      SplitFree(s[1..], sep);
      assert [s[0]] + s[1..] == s;
    }
  }

  /** A text made only of separators splits into empty pieces. */
  lemma {:induction false} SplitOnlySeparators(s: string, sep: char)
    requires forall k :: 0 <= k < |s| ==> s[k] == sep
    ensures forall k :: 0 <= k < |Split(s, sep)| ==> Split(s, sep)[k] == ""
  {
    if s != [] {
      SplitOnlySeparators(s[1..], sep);
    }
  }

  /** Empty lines are all dropped. */
  lemma {:induction false} KeepNonBlankOfEmpty(lines: seq<string>)
    requires forall k :: 0 <= k < |lines| ==> lines[k] == ""
    ensures KeepNonBlank(lines) == []
  {
    if lines != [] {
      TrimNonEmptyIff(lines[0]);
      KeepNonBlankOfEmpty(lines[1..]);
    }
  }

  // ---------------------------------------------------------------------------
  // Numbers as text

  function DigitChar(d: nat): (c: char)
    requires d < 10
    ensures '0' <= c <= '9' && c as int - '0' as int == d
  {
    ('0' as int + d) as char
  }

  /** `String(n)` for a natural number: its decimal digits, without leading zeros. */
  function NatToDecimal(n: nat): (s: string)
    ensures |s| >= 1
    ensures forall k :: 0 <= k < |s| ==> '0' <= s[k] <= '9'
  {
    if n < 10 then [DigitChar(n)] else NatToDecimal(n / 10) + [DigitChar(n % 10)]
  }

  /** `String(i)` for an integer. */
  function IntToDecimal(i: int): string {
    if i < 0 then "-" + NatToDecimal(-i) else NatToDecimal(i)
  }

  /** The value of a string of decimal digits. */
  function ParseDecimal(s: string): nat
    requires forall k :: 0 <= k < |s| ==> '0' <= s[k] <= '9'
  {
    if s == [] then 0
    else ParseDecimal(s[..|s| - 1]) * 10 + (s[|s| - 1] as int - '0' as int)
  }

  /** Reading back the decimal text of `n` gives `n`. */
  lemma {:induction false} ParseNatToDecimal(n: nat)
    ensures ParseDecimal(NatToDecimal(n)) == n
  {
    if n >= 10 {
      var s := NatToDecimal(n);
      assert s[..|s| - 1] == NatToDecimal(n / 10);
      ParseNatToDecimal(n / 10);
    }
  }

  /** Different numbers have different decimal texts. */
  lemma NatToDecimalInjective(m: nat, n: nat)
    ensures NatToDecimal(m) == NatToDecimal(n) <==> m == n
  {
    if NatToDecimal(m) == NatToDecimal(n) {
      ParseNatToDecimal(m);
      ParseNatToDecimal(n);
    }
  }

  // ---------------------------------------------------------------------------
  // toUpperCase

  /** JavaScript's locale-independent upper-case mapping, for ASCII letters and the
      lower-case Turkish letters ç, ğ, ı, ö, ş, ü; every other character is kept. */
  function UpperChar(c: char): char {
    if 'a' <= c <= 'z' then (c as int - 32) as char
    else if c == '\U{00E7}' then '\U{00C7}'
    else if c == '\U{011F}' then '\U{011E}'
    else if c == '\U{0131}' then 'I'
    else if c == '\U{00F6}' then '\U{00D6}'
    else if c == '\U{015F}' then '\U{015E}'
    else if c == '\U{00FC}' then '\U{00DC}'
    else c
  }

  function ToUpperCase(s: string): string {
    seq(|s|, i requires 0 <= i < |s| => UpperChar(s[i]))
  }

  // ---------------------------------------------------------------------------
  // UTF-16

  /** A 16-bit UTF-16 code unit, the element of a JavaScript string. */
  type CodeUnit = v: int | 0 <= v < 0x1_0000

  /** The UTF-16 encoding of one Unicode scalar value: one code unit in the basic
      plane, otherwise a high and a low surrogate. */
  function Utf16Char(c: char): (u: seq<CodeUnit>)
    ensures c as int < 0x1_0000 ==> u == [c as int]
    ensures c as int >= 0x1_0000 ==> |u| == 2 && 0xD800 <= u[0] < 0xDC00 && 0xDC00 <= u[1] < 0xE000
  {
    var v := c as int;
    if v < 0x1_0000 then [v]
    else [0xD800 + (v - 0x1_0000) / 0x400, 0xDC00 + (v - 0x1_0000) % 0x400]
  }

  /** The JavaScript string (sequence of code units) holding `s`. */
  function Utf16(s: string): seq<CodeUnit> {
    if s == [] then [] else Utf16Char(s[0]) + Utf16(s[1..])
  }

  lemma {:induction false} Utf16Append(a: string, b: string)
    ensures Utf16(a + b) == Utf16(a) + Utf16(b)
  {
    if a != [] {
      assert (a + b)[0] == a[0];
      assert (a + b)[1..] == a[1..] + b;
      Utf16Append(a[1..], b);
      calc {
        Utf16(a + b);
        Utf16Char(a[0]) + Utf16(a[1..] + b);
        Utf16Char(a[0]) + (Utf16(a[1..]) + Utf16(b));
        (Utf16Char(a[0]) + Utf16(a[1..])) + Utf16(b);
      }
    } else {
      assert a + b == b;
    }
  }

  /** A string of basic-plane characters has one code unit per character. */
  lemma {:induction false} Utf16Bmp(s: string)
    requires forall k :: 0 <= k < |s| ==> s[k] as int < 0x1_0000
    ensures |Utf16(s)| == |s|
    ensures forall k :: 0 <= k < |s| ==> Utf16(s)[k] == s[k] as int
  {
    if s != [] {
      Utf16Bmp(s[1..]);
    }
  }
}
