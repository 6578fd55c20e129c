/**
 * The handful of JavaScript built-ins on strings and values that the
 * application's logic relies on, stated over Dafny strings (one `char` per
 * UTF-16 code unit of the JavaScript string).
 */
module JsStrings {

  datatype Option<T> = None | Some(value: T)

  /** JavaScript truthiness of an optional string: `null`, `undefined` and `""` are falsy. */
  predicate Truthy(s: Option<string>) {
    s.Some? && s.value != ""
  }

  /** `s.startsWith(p)`. */
  predicate StartsWith(s: string, p: string) {
    p <= s
  }

  /** `p` occurs in `s` at offset `i`. */
  predicate OccursAt(s: string, p: string, i: int) {
    0 <= i && i + |p| <= |s| && s[i..i + |p|] == p
  }

  /** An occurrence past offset 0 is an occurrence in the tail. */
  lemma OccursShift(s: string, p: string, i: int)
    requires 1 <= i && s != []
    ensures OccursAt(s, p, i) <==> OccursAt(s[1..], p, i - 1)
  {
    if i + |p| <= |s| {
      assert s[1..][i - 1..i - 1 + |p|] == s[i..i + |p|];
    }
  }

  /** `s.includes(p)`: tried offset by offset from the left. */
  predicate Includes(s: string, p: string)
    decreases |s|
  {
    p <= s || (s != [] && Includes(s[1..], p))
  }

  lemma {:induction false} IncludesIff(s: string, p: string)
    ensures Includes(s, p) <==> exists i :: OccursAt(s, p, i)
    decreases |s|
  {
    if p <= s {
      assert OccursAt(s, p, 0);
    } else if s == [] {
      assert forall i :: !OccursAt(s, p, i);
    } else {
      IncludesIff(s[1..], p);
      if Includes(s[1..], p) {
        var i :| OccursAt(s[1..], p, i);
        OccursShift(s, p, i + 1);
      } else {
        forall i | OccursAt(s, p, i) ensures false {
          if i > 0 {
            OccursShift(s, p, i);
          }
        }
      }
    }
  }

  /** An included string is no longer than the including one and has only characters of it. */
  lemma IncludesChars(s: string, p: string)
    ensures Includes(s, p) ==> |p| <= |s| && forall c :: c in p ==> c in s
  {
    IncludesIff(s, p);
    if Includes(s, p) {
      var i :| OccursAt(s, p, i);
      forall c | c in p ensures c in s {
        var k :| 0 <= k < |p| && p[k] == c;
        assert s[i + k] == s[i..i + |p|][k];
      }
    }
  }

  /** Every string includes the empty string. */
  lemma IncludesEmpty(s: string)
    ensures Includes(s, "")
  {
    assert "" <= s;
  }

  /** `s.indexOf(p)`: tried offset by offset from the left; -1 when `p` does not occur. */
  function IndexOf(s: string, p: string): (r: int)
    ensures -1 <= r <= |s| && (r >= 0 ==> r + |p| <= |s|)
    decreases |s|
  {
    if p <= s then 0
    else if s == [] then -1
    else
      var k := IndexOf(s[1..], p);
      if k < 0 then -1 else k + 1
  }

  /** `indexOf` finds the first occurrence, and -1 means there is none. */
  lemma {:induction false} IndexOfFirst(s: string, p: string)
    ensures IndexOf(s, p) >= 0 ==> OccursAt(s, p, IndexOf(s, p))
    ensures forall j :: 0 <= j && (IndexOf(s, p) < 0 || j < IndexOf(s, p)) ==> !OccursAt(s, p, j)
    decreases |s|
  {
    if !(p <= s) && s != [] {
      IndexOfFirst(s[1..], p);
      IndexOfStep(s, p, IndexOf(s[1..], p));
    }
  }

  lemma IndexOfStep(s: string, p: string, k: int)
    requires s != [] && !(p <= s)
    requires -1 <= k <= |s| - 1
    requires k >= 0 ==> OccursAt(s[1..], p, k)
    requires forall j :: 0 <= j && (k < 0 || j < k) ==> !OccursAt(s[1..], p, j)
    ensures k >= 0 ==> OccursAt(s, p, k + 1)
    ensures forall j :: 0 <= j && (k < 0 || j < k + 1) ==> !OccursAt(s, p, j)
  {
    if k >= 0 { OccursShift(s, p, k + 1); }
    forall j | 1 <= j && (k < 0 || j < k + 1) ensures !OccursAt(s, p, j) {
      OccursShift(s, p, j);
    }
  }

  /** `s.replace(p, rep)` with a string pattern: only the first occurrence is replaced. */
  function ReplaceFirst(s: string, p: string, rep: string): (r: string)
    ensures !Includes(s, p) ==> r == s
    ensures Includes(s, p) ==>
              exists i :: && OccursAt(s, p, i) && (forall j :: 0 <= j < i ==> !OccursAt(s, p, j))
                          && r == s[..i] + rep + s[i + |p|..]
  {
    IncludesIff(s, p);
    IndexOfFirst(s, p);
    var i := IndexOf(s, p);
    if i < 0 then s else s[..i] + rep + s[i + |p|..]
  }

  /** The literal "custom:" by which the designer tags user-authored traits. */
  const CustomTag: string := "custom:"

  /** `trait.replace("custom:", "")`: the first occurrence of the tag, wherever it is, is deleted. */
  function StripTag(t: string): (r: string)
    ensures StartsWith(t, CustomTag) ==> r == t[|CustomTag|..]
    ensures !Includes(t, CustomTag) ==> r == t
    ensures |r| == |t| || |r| == |t| - |CustomTag|
  {
    IncludesIff(t, CustomTag);
    IndexOfFirst(t, CustomTag);
    ReplaceFirst(t, CustomTag, "")
  }

  /** A string without a colon has no tag to strip. */
  lemma StripTagNoColon(t: string)
    requires ':' !in t
    ensures StripTag(t) == t
  {
    TagHasColon(t);
  }

  /** Every string that includes the tag contains a colon. */
  lemma TagHasColon(t: string)
    ensures Includes(t, CustomTag) ==> ':' in t
  {
    IncludesIff(t, CustomTag);
    if Includes(t, CustomTag) {
      var i :| OccursAt(t, CustomTag, i);
      assert t[i + 6] == t[i..i + 7][6];
    }
  }

  /** The characters JavaScript's `trim` removes: WhiteSpace and LineTerminator of ECMA-262. */
  predicate IsJsWhitespace(c: char) {
    || c == '\t' || c == '\n' || c == '\U{000B}' || c == '\U{000C}' || c == '\r' || c == ' '
    || c == '\U{00A0}' || c == '\U{1680}' || ('\U{2000}' <= c <= '\U{200A}')
    || c == '\U{2028}' || c == '\U{2029}' || c == '\U{202F}' || c == '\U{205F}'
    || c == '\U{3000}' || c == '\U{FEFF}'
  }

  predicate AllWhitespace(s: string) {
    forall k :: 0 <= k < |s| ==> IsJsWhitespace(s[k])
  }

  function TrimStart(s: string): string
  {
    if s != [] && IsJsWhitespace(s[0]) then TrimStart(s[1..]) else s
  }

  /** `TrimStart` cuts off a whitespace prefix and stops at the first other character. */
  lemma {:induction false} TrimStartCuts(s: string)
    ensures |TrimStart(s)| <= |s| && TrimStart(s) == s[|s| - |TrimStart(s)|..]
    ensures AllWhitespace(s[..|s| - |TrimStart(s)|])
    ensures TrimStart(s) != [] ==> !IsJsWhitespace(TrimStart(s)[0])
  {
    if s != [] && IsJsWhitespace(s[0]) {
      TrimStartCuts(s[1..]);
      var r := TrimStart(s[1..]);
      assert s[..|s| - |r|] == [s[0]] + s[1..][..|s| - 1 - |r|];
    }
  }

  function TrimEnd(s: string): string
  {
    if s != [] && IsJsWhitespace(s[|s| - 1]) then TrimEnd(s[..|s| - 1]) else s
  }

  /** `TrimEnd` cuts off a whitespace suffix and stops at the last other character. */
  lemma {:induction false} TrimEndCuts(s: string)
    ensures |TrimEnd(s)| <= |s| && TrimEnd(s) == s[..|TrimEnd(s)|]
    ensures AllWhitespace(s[|TrimEnd(s)|..])
    ensures TrimEnd(s) != [] ==> !IsJsWhitespace(TrimEnd(s)[|TrimEnd(s)| - 1])
  {
    if s != [] && IsJsWhitespace(s[|s| - 1]) {
      TrimEndCuts(s[..|s| - 1]);
      var r := TrimEnd(s[..|s| - 1]);
      assert s[|r|..] == s[..|s| - 1][|r|..] + [s[|s| - 1]];
    }
  }

  /** `s.trim()`: whitespace is cut off on both sides. */
  function Trim(s: string): (r: string)
    ensures |r| <= |s|
    ensures r != [] ==> !IsJsWhitespace(r[0]) && !IsJsWhitespace(r[|r| - 1])
  {
    TrimStartCuts(s);
    TrimEndCuts(TrimStart(s));
    TrimEnd(TrimStart(s))
  }

  /**
   * What `trim` keeps is a slice of its input that neither starts nor ends
   * with whitespace, and only whitespace is cut off.
   */
  lemma TrimSlice(s: string)
    ensures exists a, b :: 0 <= a <= b <= |s| && Trim(s) == s[a..b]
                           && AllWhitespace(s[..a]) && AllWhitespace(s[b..])
    ensures Trim(s) != [] ==> !IsJsWhitespace(Trim(s)[0]) && !IsJsWhitespace(Trim(s)[|Trim(s)| - 1])
    ensures Trim(s) == [] <==> AllWhitespace(s)
  {
    var t := TrimStart(s);
    TrimStartCuts(s);
    var r := TrimEnd(t);
    TrimEndCuts(t);
    var a := |s| - |t|;
    var b := a + |r|;
    assert r == s[a..b];
    assert s[b..] == t[|r|..];
    if r == [] {
      assert t == [];
      assert s[..a] == s;
    } else {
      assert !IsJsWhitespace(s[a]);
    }
  }

  /** `s.toLowerCase()` on the ASCII letters; every other character is kept. */
  function ToLower(s: string): (r: string)
    ensures |r| == |s|
    ensures forall k :: 0 <= k < |s| ==>
      r[k] == if 'A' <= s[k] <= 'Z' then (s[k] as int + 32) as char else s[k]
    ensures forall k :: 0 <= k < |r| ==> !('A' <= r[k] <= 'Z')
  {
    seq(|s|, k requires 0 <= k < |s| => if 'A' <= s[k] <= 'Z' then (s[k] as int + 32) as char else s[k])
  }

  /** Lowering twice is lowering once. */
  lemma ToLowerIdempotent(s: string)
    ensures ToLower(ToLower(s)) == ToLower(s)
  {
  }

  /** Lowering never turns whitespace into something else, or the reverse. */
  lemma ToLowerKeepsWhitespace(s: string)
    ensures AllWhitespace(ToLower(s)) <==> AllWhitespace(s)
  {
    forall k | 0 <= k < |s| ensures IsJsWhitespace(ToLower(s)[k]) <==> IsJsWhitespace(s[k]) {
      if 'A' <= s[k] <= 'Z' {
        assert 'a' <= ToLower(s)[k] <= 'z';
      }
    }
  }

  /** Two strings that differ only in ASCII case are blank together. */
  lemma BlankIgnoresCase(a: string, b: string)
    requires ToLower(a) == ToLower(b)
    ensures Trim(a) == "" <==> Trim(b) == ""
  {
    TrimSlice(a);
    TrimSlice(b);
    ToLowerKeepsWhitespace(a);
    ToLowerKeepsWhitespace(b);
  }

  /** The number a string of decimal digits denotes, most significant digit first. */
  function DigitsValue(s: string): nat
    requires forall k :: 0 <= k < |s| ==> '0' <= s[k] <= '9'
  {
    if s == [] then 0
    else DigitsValue(s[..|s| - 1]) * 10 + (s[|s| - 1] as int - '0' as int)
  }

  /** Decimal rendering of a natural number, as JavaScript prints an integer-valued number. */
  function NatToString(n: nat): (r: string)
    ensures r != [] && forall k :: 0 <= k < |r| ==> '0' <= r[k] <= '9'
    ensures n > 0 <==> r[0] != '0'
    ensures DigitsValue(r) == n
  {
    if n < 10 then ["0123456789"[n]]
    else
      var init := NatToString(n / 10);
      var r := init + ["0123456789"[n % 10]];
      assert r[..|r| - 1] == init;
      r
  }

  /** Different numbers print differently: a rendered number names exactly one value. */
  lemma NatToStringInjective(a: nat, b: nat)
    ensures NatToString(a) == NatToString(b) <==> a == b
  {
    if NatToString(a) == NatToString(b) {
      assert DigitsValue(NatToString(a)) == DigitsValue(NatToString(b));
    }
  }

  /** `parts.join(sep)`. */
  function Join(parts: seq<string>, sep: string): (r: string)
    ensures parts == [] ==> r == ""
    ensures parts != [] ==> parts[0] <= r
    ensures parts != [] ==> var last := parts[|parts| - 1]; |last| <= |r| && r[|r| - |last|..] == last
  {
    if parts == [] then ""
    else if |parts| == 1 then parts[0]
    else parts[0] + sep + Join(parts[1..], sep)
  }
}
