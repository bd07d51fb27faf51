/**
 * String primitives the application relies on, written out so that their
 * behaviour is explicit: JavaScript's `trim`, `toLowerCase`, `toUpperCase`,
 * `includes`, `split(" ")` and `join(" ")`, and Python's `str.strip` and
 * `str.replace(c, "")`. Strings are sequences of Unicode scalar values.
 */
module Text {

  /** White space removed by JavaScript's `String.prototype.trim`
      (the WhiteSpace and LineTerminator productions of ECMAScript). */
  predicate IsJsSpace(c: char) {
    c == '\t' || c == '\n' || c == '\U{B}' || c == '\U{C}' || c == '\r' || c == ' '
    || c == '\U{A0}' || c == '\U{1680}' || ('\U{2000}' <= c <= '\U{200A}')
    || c == '\U{2028}' || c == '\U{2029}' || c == '\U{202F}' || c == '\U{205F}'
    || c == '\U{3000}' || c == '\U{FEFF}'
  }

  /** White space removed by Python's `str.strip()` (the characters for which
      `str.isspace()` holds). */
  predicate IsPySpace(c: char) {
    ('\t' <= c <= '\r') || ('\U{1C}' <= c <= ' ')
    || c == '\U{85}' || c == '\U{A0}' || c == '\U{1680}' || ('\U{2000}' <= c <= '\U{200A}')
    || c == '\U{2028}' || c == '\U{2029}' || c == '\U{202F}' || c == '\U{205F}'
    || c == '\U{3000}'
  }

  predicate IsDigit(c: char) {
    '0' <= c <= '9'
  }

  /** Drops the leading characters satisfying `sp`: what is left is a suffix
      that is empty or starts with a character outside `sp`. */
  function TrimLeft(s: string, sp: char -> bool): (r: string)
    ensures |r| <= |s|
    ensures r == [] || !sp(r[0])
  {
    if s != [] && sp(s[0]) then TrimLeft(s[1..], sp) else s
  }

  /** What `TrimLeft` keeps is a suffix of its argument. */
  lemma {:induction false} TrimLeftSuffix(s: string, sp: char -> bool)
    ensures TrimLeft(s, sp) == s[|s| - |TrimLeft(s, sp)|..]
  {
    if s != [] && sp(s[0]) {
      TrimLeftSuffix(s[1..], sp);
    }
  }

  /** Everything `TrimLeft` dropped satisfies `sp`. */
  lemma {:induction false} TrimLeftDropped(s: string, sp: char -> bool, i: nat)
    requires i < |s| - |TrimLeft(s, sp)|
    ensures sp(s[i])
  {
    if i > 0 {
      TrimLeftDropped(s[1..], sp, i - 1);
    }
  }

  lemma TrimLeftNone(s: string, sp: char -> bool)
    requires s == [] || !sp(s[0])
    ensures TrimLeft(s, sp) == s
  {
  }

  /** Drops the trailing characters satisfying `sp`: what is left is a prefix
      that is empty or ends with a character outside `sp`. */
  function TrimRight(s: string, sp: char -> bool): (r: string)
    ensures |r| <= |s|
    ensures r == [] || !sp(r[|r| - 1])
  {
    if s != [] && sp(s[|s| - 1]) then TrimRight(s[..|s| - 1], sp) else s
  }

  /** What `TrimRight` keeps is a prefix of its argument. */
  lemma {:induction false} TrimRightPrefix(s: string, sp: char -> bool)
    ensures TrimRight(s, sp) == s[..|TrimRight(s, sp)|]
  {
    if s != [] && sp(s[|s| - 1]) {
      TrimRightPrefix(s[..|s| - 1], sp);
    }
  }

  /** Everything `TrimRight` dropped satisfies `sp`. */
  lemma {:induction false} TrimRightDropped(s: string, sp: char -> bool, i: nat)
    requires |TrimRight(s, sp)| <= i < |s|
    ensures sp(s[i])
  {
    if i < |s| - 1 {
      TrimRightDropped(s[..|s| - 1], sp, i);
    }
  }

  /** Drops the characters satisfying `sp` at both ends. */
  function Trim(s: string, sp: char -> bool): (r: string)
    ensures |r| <= |s|
    ensures r == [] || (!sp(r[0]) && !sp(r[|r| - 1]))
  {
    var l := TrimLeft(s, sp);
    TrimRightPrefix(l, sp);
    TrimRight(l, sp)
  }

  /** A string whose ends are not white space is left alone. */
  lemma TrimNone(s: string, sp: char -> bool)
    requires s == [] || (!sp(s[0]) && !sp(s[|s| - 1]))
    ensures Trim(s, sp) == s
  {
  }

  /** Trimming leaves nothing exactly when every character is white space. */
  lemma TrimEmptyIff(s: string, sp: char -> bool)
    ensures Trim(s, sp) == [] <==> forall i :: 0 <= i < |s| ==> sp(s[i])
  {
    var l := TrimLeft(s, sp);
    if Trim(s, sp) == [] {
      assert l == [] by {
        if l != [] {
          TrimRightDropped(l, sp, 0);
        }
      }
      forall i | 0 <= i < |s| ensures sp(s[i]) {
        TrimLeftDropped(s, sp, i);
      }
    } else {
      var r := Trim(s, sp);
      TrimLeftSuffix(s, sp);
      TrimRightPrefix(l, sp);
      assert r[0] == l[0] == s[|s| - |l|];
      assert !sp(s[|s| - |l|]);
    }
  }

  /** Trimming cuts the string into white space, the result and white
      space: the result is a slice `s[i..j]` with only `sp` characters
      before `i` and from `j` on. */
  lemma TrimCorte(s: string, sp: char -> bool)
    ensures exists i, j :: 0 <= i <= j <= |s| && Trim(s, sp) == s[i..j]
              && (forall k :: 0 <= k < i ==> sp(s[k])) && (forall k :: j <= k < |s| ==> sp(s[k]))
  {
    var l := TrimLeft(s, sp);
    TrimLeftSuffix(s, sp);
    TrimRightPrefix(l, sp);
    var i := |s| - |l|;
    var j := i + |Trim(s, sp)|;
    forall k | 0 <= k < i ensures sp(s[k]) {
      TrimLeftDropped(s, sp, k);
    }
    forall k | j <= k < |s| ensures sp(s[k]) {
      TrimRightDropped(l, sp, k - i);
      assert l[k - i] == s[k];
    }
    assert Trim(s, sp) == s[i..j];
  }

  /** Trimming only removes characters. */
  lemma TrimSubset(s: string, sp: char -> bool, x: char)
    requires x in Trim(s, sp)
    ensures x in s
  {
    var l := TrimLeft(s, sp);
    var r := TrimRight(l, sp);
    TrimLeftSuffix(s, sp);
    TrimRightPrefix(l, sp);
    var j :| 0 <= j < |r| && r[j] == x;
    assert l[j] == x;
    assert s[|s| - |l| + j] == x;
  }

  /** A character that is not white space survives trimming. */
  lemma TrimKeeps(s: string, sp: char -> bool, i: nat)
    requires i < |s| && !sp(s[i])
    ensures s[i] in Trim(s, sp)
  {
    var l := TrimLeft(s, sp);
    TrimLeftSuffix(s, sp);
    if i < |s| - |l| {
      TrimLeftDropped(s, sp, i);
    }
    var j := i - (|s| - |l|);
    assert 0 <= j < |l| && l[j] == s[i];
    var r := TrimRight(l, sp);
    TrimRightPrefix(l, sp);
    if j >= |r| {
      TrimRightDropped(l, sp, j);
    }
    assert j < |r| && r[j] == l[j];
  }

  /** JavaScript's `s.trim()`. */
  function JsTrim(s: string): string {
    Trim(s, IsJsSpace)
  }

  /** Python's `s.strip()`. */
  function PyStrip(s: string): string {
    Trim(s, IsPySpace)
  }

  /** JavaScript's `!s.trim()`: the string is empty or white space only. */
  predicate IsBlank(s: string) {
    JsTrim(s) == ""
  }

  lemma BlankIffAllSpace(s: string)
    ensures IsBlank(s) <==> forall i :: 0 <= i < |s| ==> IsJsSpace(s[i])
  {
    TrimEmptyIff(s, IsJsSpace);
  }

  /** Python's `s.replace(c, "")`: every occurrence of `c` removed, the rest kept in order. */
  function RemoveChar(s: string, c: char): (r: string)
    ensures |r| <= |s|
  {
    if s == [] then []
    else if s[0] == c then RemoveChar(s[1..], c)
    else [s[0]] + RemoveChar(s[1..], c)
  }

  /** What `RemoveChar` keeps: every character but `c`, and all of `s` when `c` is absent. */
  lemma {:induction false} RemoveCharSpec(s: string, c: char)
    ensures c !in RemoveChar(s, c)
    ensures forall x :: x in RemoveChar(s, c) <==> x in s && x != c
    ensures c !in s ==> RemoveChar(s, c) == s
  {
    if s != [] {
      RemoveCharSpec(s[1..], c);
      assert s == [s[0]] + s[1..];
    }
  }

  /** Removal distributes over concatenation. */
  lemma {:induction false} RemoveCharConcat(a: string, b: string, c: char)
    ensures RemoveChar(a + b, c) == RemoveChar(a, c) + RemoveChar(b, c)
  {
    if a != [] {
      assert (a + b)[1..] == a[1..] + b;
      RemoveCharConcat(a[1..], b, c);
    } else {
      assert a + b == b;
    }
  }

  /** JavaScript's `s.replace(/\D/g, "")`: only the ASCII digits kept, in order. */
  function DigitsOnly(s: string): (r: string)
    ensures |r| <= |s|
    ensures forall i :: 0 <= i < |r| ==> IsDigit(r[i])
    ensures (forall i :: 0 <= i < |s| ==> IsDigit(s[i])) ==> r == s
  {
    if s == [] then []
    else if IsDigit(s[0]) then [s[0]] + DigitsOnly(s[1..])
    else DigitsOnly(s[1..])
  }

  /** Keeping the digits distributes over concatenation. */
  lemma {:induction false} DigitsOnlyConcat(a: string, b: string)
    ensures DigitsOnly(a + b) == DigitsOnly(a) + DigitsOnly(b)
  {
    if a != [] {
      assert (a + b)[1..] == a[1..] + b;
      DigitsOnlyConcat(a[1..], b);
    } else {
      assert a + b == b;
    }
  }

  /** A string with no digit keeps nothing. */
  lemma {:induction false} DigitsOnlyNone(s: string)
    requires forall i :: 0 <= i < |s| ==> !IsDigit(s[i])
    ensures DigitsOnly(s) == ""
  {
    if s != [] {
      assert forall i :: 0 <= i < |s| - 1 ==> s[1..][i] == s[i + 1];
      DigitsOnlyNone(s[1..]);
    }
  }

  /** Lower-case mapping of `toLowerCase` on ASCII and Latin-1 letters. */
  function LowerChar(c: char): char {
    if 'A' <= c <= 'Z' || ('\U{C0}' <= c <= '\U{DE}' && c != '\U{D7}')
    then (c as int + 32) as char
    else c
  }

  /** Upper-case mapping of `toUpperCase` on ASCII letters and the Latin-1
      letters whose capital is in Latin-1; ß, ÿ and µ are left unchanged. */
  function UpperChar(c: char): char {
    if 'a' <= c <= 'z' || ('\U{E0}' <= c <= '\U{FE}' && c != '\U{F7}')
    then (c as int - 32) as char
    else c
  }

  function ToLower(s: string): (r: string)
    ensures |r| == |s|
  {
    seq(|s|, i requires 0 <= i < |s| => LowerChar(s[i]))
  }

  function ToUpper(s: string): (r: string)
    ensures |r| == |s|
  {
    seq(|s|, i requires 0 <= i < |s| => UpperChar(s[i]))
  }

  /** Upper-casing forgets the case a string was typed in. */
  lemma ToUpperToLower(s: string)
    ensures ToUpper(ToLower(s)) == ToUpper(s)
  {
  }

  /** Lower-casing forgets the case a string was typed in. */
  lemma ToLowerToUpper(s: string)
    ensures ToLower(ToUpper(s)) == ToLower(s)
  {
  }

  /** JavaScript's `s.includes(sub)`. */
  predicate Contains(s: string, sub: string) {
    exists i :: 0 <= i <= |s| && OccursAt(s, sub, i)
  }

  /** `sub` occurs in `s` starting at position `i`. */
  predicate OccursAt(s: string, sub: string, i: int) {
    0 <= i && i + |sub| <= |s| && s[i..i + |sub|] == sub
  }

  lemma ContainsEmpty(s: string)
    ensures Contains(s, "")
  {
    assert OccursAt(s, "", 0);
  }

  lemma ContainsItself(s: string)
    ensures Contains(s, s)
  {
    assert OccursAt(s, s, 0);
  }

  /** Index of the first occurrence of `c` in `s`. */
  function IndexOf(s: string, c: char): (i: nat)
    requires c in s
    ensures i < |s| && s[i] == c && c !in s[..i]
  {
    if s[0] == c then 0 else 1 + IndexOf(s[1..], c)
  }

  lemma {:induction false} IndexOfAfter(a: string, c: char, b: string)
    requires c !in a
    ensures IndexOf(a + [c] + b, c) == |a|
  {
    if a != [] {
      assert (a + [c] + b)[1..] == a[1..] + [c] + b;
      IndexOfAfter(a[1..], c, b);
    }
  }

  /** JavaScript's `parts.join(sep)` for a one-character separator. */
  function Join(parts: seq<string>, sep: char): string {
    if |parts| == 0 then ""
    else if |parts| == 1 then parts[0]
    else parts[0] + [sep] + Join(parts[1..], sep)
  }

  /** JavaScript's `s.split(sep)` for a one-character separator: never empty,
      the pieces hold no separator, and joining them back gives `s`. */
  function Split(s: string, sep: char): (parts: seq<string>)
    ensures |parts| >= 1
    ensures forall k :: 0 <= k < |parts| ==> sep !in parts[k]
    ensures Join(parts, sep) == s
    ensures sep !in s <==> |parts| == 1
    decreases |s|
  {
    if sep !in s then [s]
    else
      var i := IndexOf(s, sep);
      var rest := Split(s[i + 1..], sep);
      assert s == s[..i] + [sep] + s[i + 1..];
      [s[..i]] + rest
  }

  /** Splitting undoes joining: pieces without the separator come back unchanged. */
  lemma {:induction false} SplitJoin(parts: seq<string>, sep: char)
    requires |parts| >= 1
    requires forall k :: 0 <= k < |parts| ==> sep !in parts[k]
    ensures Split(Join(parts, sep), sep) == parts
  {
    if |parts| == 1 {
    } else {
      var tail := Join(parts[1..], sep);
      var s := parts[0] + [sep] + tail;
      assert sep !in parts[0];
      IndexOfAfter(parts[0], sep, tail);
      assert s[..|parts[0]|] == parts[0];
      assert s[|parts[0]| + 1..] == tail;
      SplitJoin(parts[1..], sep);
    }
  }

  /** Splitting at the first separator: the piece before it, then the pieces of the rest. */
  lemma SplitTras(a: string, b: string, sep: char)
    requires sep !in a
    ensures Split(a + [sep] + b, sep) == [a] + Split(b, sep)
  {
    var s := a + [sep] + b;
    IndexOfAfter(a, sep, b);
    assert s[..|a|] == a;
    assert s[|a| + 1..] == b;
  }

  /** Python's `s.replace(pat, "")`: the occurrences of `pat` met scanning
      from the left, without overlap, removed. */
  function RemoveString(s: string, pat: string): (r: string)
    requires pat != []
    ensures |r| <= |s|
    decreases |s|
  {
    if |s| < |pat| then s
    else if s[..|pat|] == pat then RemoveString(s[|pat|..], pat)
    else [s[0]] + RemoveString(s[1..], pat)
  }

  /** Nothing is removed from a string that lacks the pattern's first character. */
  lemma {:induction false} RemoveStringAbsent(s: string, pat: string)
    requires pat != [] && pat[0] !in s
    ensures RemoveString(s, pat) == s
    decreases |s|
  {
    if |s| >= |pat| {
      assert s[..|pat|][0] == s[0] != pat[0];
      assert pat[0] !in s[1..];
      RemoveStringAbsent(s[1..], pat);
      assert s == [s[0]] + s[1..];
    }
  }

  /** A string holding a character outside `sp` does not trim to nothing. */
  lemma TrimNonEmpty(s: string, sp: char -> bool, i: nat)
    requires i < |s| && !sp(s[i])
    ensures Trim(s, sp) != []
  {
    TrimEmptyIff(s, sp);
  }

  /** A string that starts outside `sp` keeps its first character. */
  lemma TrimKeepsFirst(s: string, sp: char -> bool)
    requires s != [] && !sp(s[0])
    ensures Trim(s, sp) != [] && Trim(s, sp)[0] == s[0]
  {
    TrimNonEmpty(s, sp, 0);
    TrimRightPrefix(s, sp);
  }

  /** Trimming twice is trimming once. */
  lemma TrimIdempotent(s: string, sp: char -> bool)
    ensures Trim(Trim(s, sp), sp) == Trim(s, sp)
  {
    TrimNone(Trim(s, sp), sp);
  }

  /** Joining one more piece appends the separator and that piece. */
  lemma {:induction false} JoinLast(parts: seq<string>, x: string, sep: char)
    requires |parts| >= 1
    ensures Join(parts + [x], sep) == Join(parts, sep) + [sep] + x
  {
    if |parts| > 1 {
      assert (parts + [x])[1..] == parts[1..] + [x];
      JoinLast(parts[1..], x, sep);
    }
  }

  /** The joined text begins with the first piece. */
  lemma JoinFirst(parts: seq<string>, sep: char)
    requires |parts| >= 1
    ensures |Join(parts, sep)| >= |parts[0]| && Join(parts, sep)[..|parts[0]|] == parts[0]
  {
  }
}
