/**
 * Python string operations used by the demos, on `string` (= seq<char>).
 *
 * Case mapping (`lower`, `upper`, `title`) follows ASCII: only 'A'..'Z' and
 * 'a'..'z' are cased letters; every other character (CJK, digits, punctuation)
 * is left unchanged and counts as uncased. `strip` uses Python's full set of
 * whitespace characters. `int()` accepts an optional sign followed by ASCII
 * digits.
 */
module Text {

  datatype Option<+T> = None | Some(value: T)

  // ---------------------------------------------------------------- characters

  predicate IsUpper(c: char) { 'A' <= c <= 'Z' }
  predicate IsLower(c: char) { 'a' <= c <= 'z' }
  predicate IsLetter(c: char) { IsUpper(c) || IsLower(c) }

  function ToUpper(c: char): (r: char)
    ensures IsLetter(r) == IsLetter(c)
    ensures !IsLower(r)
    ensures IsLower(c) ==> r as int == c as int - 32
    ensures !IsLower(c) ==> r == c
  {
    if IsLower(c) then (c as int - 32) as char else c
  }

  function ToLower(c: char): (r: char)
    ensures IsLetter(r) == IsLetter(c)
    ensures !IsUpper(r)
    ensures IsUpper(c) ==> r as int == c as int + 32
    ensures !IsUpper(c) ==> r == c
  {
    if IsUpper(c) then (c as int + 32) as char else c
  }

  /** The characters for which Python's `str.isspace()` holds. */
  predicate IsSpace(c: char)
  {
    c == ' ' || ('\t' <= c <= '\r') || ('\U{1C}' <= c <= '\U{1F}')
    || c == '\U{85}' || c == '\U{A0}' || c == '\U{1680}'
    || ('\U{2000}' <= c <= '\U{200A}') || c == '\U{2028}' || c == '\U{2029}'
    || c == '\U{202F}' || c == '\U{205F}' || c == '\U{3000}'
  }

  // ------------------------------------------------------------- whole strings

  /** `s.lower()` */
  function Lower(s: string): (r: string)
    ensures |r| == |s|
    ensures forall i :: 0 <= i < |s| ==> r[i] == ToLower(s[i])
  {
    if s == [] then [] else [ToLower(s[0])] + Lower(s[1..])
  }

  /** `s.replace(target, replacement)` for single characters. */
  function ReplaceChar(s: string, target: char, replacement: char): (r: string)
    ensures |r| == |s|
    ensures forall i :: 0 <= i < |s| ==> r[i] == if s[i] == target then replacement else s[i]
  {
    if s == [] then [] else [if s[0] == target then replacement else s[0]] + ReplaceChar(s[1..], target, replacement)
  }

  /** Number of occurrences of `c` in `s`. */
  function Count(s: string, c: char): nat
  {
    if s == [] then 0 else (if s[0] == c then 1 else 0) + Count(s[1..], c)
  }

  /** `s.replace(c, "")` */
  function RemoveChar(s: string, c: char): (r: string)
    ensures c !in r
    ensures |r| == |s| - Count(s, c)
    ensures forall d :: d != c ==> Count(r, d) == Count(s, d)
    ensures forall d :: d in r ==> d in s
  {
    if s == [] then []
    else if s[0] == c then RemoveChar(s[1..], c)
    else [s[0]] + RemoveChar(s[1..], c)
  }

  /** Python's `str.title()` seen through the ASCII model: a letter is upper-cased
      when the character before it is not a letter, lower-cased otherwise. */
  function TitleChar(c: char, afterLetter: bool): (r: char)
    ensures IsLetter(r) == IsLetter(c)
  {
    if !IsLetter(c) then c else if afterLetter then ToLower(c) else ToUpper(c)
  }

  function TitleFrom(s: string, afterLetter: bool): (r: string)
    ensures |r| == |s|
    ensures forall i :: 0 <= i < |s| ==>
              r[i] == TitleChar(s[i], if i == 0 then afterLetter else IsLetter(s[i - 1]))
  {
    if s == [] then []
    else [TitleChar(s[0], afterLetter)] + TitleFrom(s[1..], IsLetter(s[0]))
  }

  /** `s.title()` */
  function Title(s: string): (r: string)
    ensures |r| == |s|
    ensures forall i :: 0 <= i < |s| ==>
              r[i] == TitleChar(s[i], i > 0 && IsLetter(s[i - 1]))
  {
    TitleFrom(s, false)
  }

  /** Leading characters of `s` for which IsSpace holds, removed. */
  function TrimStart(s: string): (r: string)
    ensures |r| <= |s| && r == s[|s| - |r|..]
    ensures r != [] ==> !IsSpace(r[0])
    ensures forall i :: 0 <= i < |s| - |r| ==> IsSpace(s[i])
  {
    if s != [] && IsSpace(s[0]) then TrimStart(s[1..]) else s
  }

  /** Trailing characters of `s` for which IsSpace holds, removed. */
  function TrimEnd(s: string): (r: string)
    ensures |r| <= |s| && r == s[..|r|]
    ensures r != [] ==> !IsSpace(r[|r| - 1])
    ensures forall i :: |r| <= i < |s| ==> IsSpace(s[i])
  {
    if s != [] && IsSpace(s[|s| - 1]) then TrimEnd(s[..|s| - 1]) else s
  }

  /** Number of leading whitespace characters of `s`. */
  function LeadingSpaces(s: string): (n: nat)
    ensures n <= |s|
    ensures forall i :: 0 <= i < n ==> IsSpace(s[i])
    ensures n < |s| ==> !IsSpace(s[n])
  {
    |s| - |TrimStart(s)|
  }

  /** `s.strip()`: the slice of `s` starting after its leading whitespace that
      neither starts nor ends with whitespace; everything cut away is whitespace. */
  function Strip(s: string): (r: string)
    ensures LeadingSpaces(s) + |r| <= |s|
    ensures r == s[LeadingSpaces(s)..LeadingSpaces(s) + |r|]
    ensures forall i :: LeadingSpaces(s) + |r| <= i < |s| ==> IsSpace(s[i])
    ensures r != [] ==> !IsSpace(r[0]) && !IsSpace(r[|r| - 1])
  {
    TrimEnd(TrimStart(s))
  }

  // ------------------------------------------------------------ substring search

  /** `sub` occurs in `s` starting at index `i`. */
  predicate OccursAt(s: string, sub: string, i: nat)
  {
    i + |sub| <= |s| && s[i..i + |sub|] == sub
  }

  /** `sub in s` */
  predicate Contains(s: string, sub: string)
  {
    exists i: nat :: i <= |s| && OccursAt(s, sub, i)
  }

  lemma ContainsMiddle(a: string, sub: string, b: string)
    ensures Contains(a + sub + b, sub)
  {
    var s := a + sub + b;
    assert OccursAt(s, sub, |a|);
  }

  /** A string that lacks some character of `sub` does not contain `sub`. */
  lemma LacksChar(s: string, sub: string, j: nat)
    requires j < |sub| && sub[j] !in s
    ensures !Contains(s, sub)
  {

  }

  /** The first index at or after `from` where `sep` occurs in `s`. */
  function IndexOf(s: string, sep: string, from: nat): (r: Option<nat>)
    decreases |s| - from
    ensures r.Some? ==> from <= r.value && OccursAt(s, sep, r.value)
                        && forall j: nat :: from <= j < r.value ==> !OccursAt(s, sep, j)
    ensures r.None? ==> forall j: nat :: from <= j ==> !OccursAt(s, sep, j)
  {
    if from + |sep| > |s| then None
    else if OccursAt(s, sep, from) then Some(from)
    else IndexOf(s, sep, from + 1)
  }

  /** The first occurrence is the one `IndexOf` finds. */
  lemma IndexOfFirst(s: string, sep: string, k: nat)
    requires OccursAt(s, sep, k)
    requires forall j: nat :: j < k ==> !OccursAt(s, sep, j)
    ensures IndexOf(s, sep, 0) == Some(k)
  {
    var r := IndexOf(s, sep, 0);
    assert r.Some?;
    assert !(r.value > k);
  }

  /** `s.split(sep)` for a non-empty separator. */
  function Split(s: string, sep: string): (r: seq<string>)
    requires |sep| > 0
    decreases |s|
    ensures |r| >= 1
  {
    match IndexOf(s, sep, 0)
    case None => [s]
    case Some(i) => [s[..i]] + Split(s[i + |sep|..], sep)
  }

  /** A string in which `sep` occurs splits into at least two pieces. */
  lemma SplitContaining(s: string, sep: string)
    requires |sep| > 0 && Contains(s, sep)
    ensures |Split(s, sep)| >= 2
  {
    var i: nat :| i <= |s| && OccursAt(s, sep, i);
    assert IndexOf(s, sep, 0).Some?;
  }

  /** A string in which `sep` never occurs splits into itself alone. */
  lemma SplitWithout(s: string, sep: string)
    requires |sep| > 0
    requires !Contains(s, sep)
    ensures Split(s, sep) == [s]
  {
    var r := IndexOf(s, sep, 0);
    assert r.Some? ==> Contains(s, sep);
  }

  /** When `sep` does not occur in `a` and cannot straddle its end, the first
      occurrence in `a + sep + b` is the one right after `a`. */
  lemma FirstOccurrenceAfter(a: string, sep: string, b: string)
    requires |sep| > 0
    requires |a| > 0 ==> a[|a| - 1] !in sep
    requires IndexOf(a, sep, 0).None?
    ensures IndexOf(a + sep + b, sep, 0) == Some(|a|)
  {
    var s := a + sep + b;
    forall j: nat | j < |a| ensures !OccursAt(s, sep, j) {
      if j + |sep| <= |a| {
        assert s[j..j + |sep|] == a[j..j + |sep|];
        assert !OccursAt(a, sep, j);
      }
    }
    assert s[|a|..|a| + |sep|] == sep;
    IndexOfFirst(s, sep, |a|);
  }

  /** An occurrence found in `a` stays the first one in `a + sep + b`. */
  lemma FirstOccurrenceWithin(a: string, sep: string, b: string, i: nat)
    requires IndexOf(a, sep, 0) == Some(i)
    ensures IndexOf(a + sep + b, sep, 0) == Some(i)
  {
    var s := a + sep + b;
    forall j: nat | j < i ensures !OccursAt(s, sep, j) {
      assert s[j..j + |sep|] == a[j..j + |sep|];
      assert !OccursAt(a, sep, j);
    }
    assert s[i..i + |sep|] == a[i..i + |sep|];
    IndexOfFirst(s, sep, i);
  }

  /** One step of `Split`: the piece before the first occurrence, then the rest. */
  lemma SplitStep(s: string, sep: string, i: nat)
    requires |sep| > 0
    requires IndexOf(s, sep, 0) == Some(i)
    ensures Split(s, sep) == [s[..i]] + Split(s[i + |sep|..], sep)
  {
  }

  /** When `sep` does not occur in `a`, `a + sep + b` splits into `a` and the pieces of `b`. */
  lemma SplitAroundPlain(a: string, sep: string, b: string)
    requires |sep| > 0
    requires |a| > 0 ==> a[|a| - 1] !in sep
    requires IndexOf(a, sep, 0).None?
    ensures Split(a + sep + b, sep) == Split(a, sep) + Split(b, sep)
  {
    var s := a + sep + b;
    FirstOccurrenceAfter(a, sep, b);
    SplitStep(s, sep, |a|);
    assert s[..|a|] == a;
    assert s[|a| + |sep|..] == b;
    assert Split(a, sep) == [a];
  }

  /** When `sep` first occurs in `a` at `i`, splitting `a + sep + b` is that
      piece followed by splitting what comes after it. */
  lemma SplitAroundFound(a: string, sep: string, b: string, i: nat)
    requires |sep| > 0
    requires IndexOf(a, sep, 0) == Some(i)
    requires Split(a[i + |sep|..] + sep + b, sep) == Split(a[i + |sep|..], sep) + Split(b, sep)
    ensures Split(a + sep + b, sep) == Split(a, sep) + Split(b, sep)
  {
    var a' := a[i + |sep|..];
    FirstOccurrenceWithin(a, sep, b, i);
    SplitStepAround(a, sep, b, i);
    SplitStep(a, sep, i);
    ConcatAssociative([a[..i]], Split(a', sep), Split(b, sep));
  }

  /** Splitting `a + sep + b` splits `a` and `b` separately, provided no
      occurrence of `sep` can straddle the end of `a`: the last character of `a`
      is not a character of `sep`. */
  lemma {:induction false} SplitAround(a: string, sep: string, b: string)
    requires |sep| > 0
    requires |a| > 0 ==> a[|a| - 1] !in sep
    ensures Split(a + sep + b, sep) == Split(a, sep) + Split(b, sep)
    decreases |a|
  {
    var first := IndexOf(a, sep, 0);
    if first.None? {
      SplitAroundPlain(a, sep, b);
    } else {
      var i := first.value;
      var a' := a[i + |sep|..];
      assert |a'| > 0 ==> a'[|a'| - 1] == a[|a| - 1];
      SplitAround(a', sep, b);
      SplitAroundFound(a, sep, b, i);
    }
  }

  /** `SplitStep` on `a + sep + b`, for an occurrence inside `a`. */
  lemma SplitStepAround(a: string, sep: string, b: string, i: nat)
    requires |sep| > 0 && i + |sep| <= |a|
    requires IndexOf(a + sep + b, sep, 0) == Some(i)
    ensures Split(a + sep + b, sep) == [a[..i]] + Split(a[i + |sep|..] + sep + b, sep)
  {
    SplitStep(a + sep + b, sep, i);
    SlicesAround(a, sep, b, i, i + |sep|);
  }

  lemma SlicesAround(a: string, sep: string, b: string, i: nat, j: nat)
    requires i <= |a| && j <= |a|
    ensures (a + sep + b)[..i] == a[..i]
    ensures (a + sep + b)[j..] == a[j..] + sep + b
  {
  }

  lemma ConcatAssociative<T>(x: seq<T>, y: seq<T>, z: seq<T>)
    ensures x + (y + z) == (x + y) + z
  {
  }

  // ------------------------------------------------------------- integers

  function Min(a: int, b: int): int { if a <= b then a else b }
  function Max(a: int, b: int): int { if a >= b then a else b }

  function DigitChar(d: nat): (c: char)
    requires d < 10
    ensures '0' <= c <= '9'
  {
    ('0' as int + d) as char
  }

  function DigitValue(c: char): (d: nat)
    requires '0' <= c <= '9'
    ensures d < 10
  {
    c as int - '0' as int
  }

  predicate AllDigits(s: string)
  {
    forall i :: 0 <= i < |s| ==> '0' <= s[i] <= '9'
  }

  /** `str(n)` for a natural number. */
  function NatRepr(n: nat): (r: string)
    ensures |r| >= 1 && AllDigits(r)
    ensures |r| > 1 ==> r[0] != '0'
  {
    if n < 10 then [DigitChar(n)] else NatRepr(n / 10) + [DigitChar(n % 10)]
  }

  /** `str(n)` for an integer. */
  function IntRepr(n: int): (r: string)
    ensures |r| >= 1
  {
    if n < 0 then "-" + NatRepr(-n) else NatRepr(n)
  }

  /** Value of a non-empty string of decimal digits. */
  function DigitsValue(s: string): nat
    requires |s| >= 1 && AllDigits(s)
  {
    if |s| == 1 then DigitValue(s[0])
    else DigitsValue(s[..|s| - 1]) * 10 + DigitValue(s[|s| - 1])
  }

  /** `int(s)`: an optional sign followed by one or more ASCII digits; any
      other string raises ValueError, here None. */
  function ParseInt(s: string): Option<int>
  {
    if |s| >= 1 && AllDigits(s) then Some(DigitsValue(s))
    else if |s| >= 2 && s[0] == '+' && AllDigits(s[1..]) then Some(DigitsValue(s[1..]))
    else if |s| >= 2 && s[0] == '-' && AllDigits(s[1..]) then Some(-(DigitsValue(s[1..]) as int))
    else None
  }

  lemma {:induction false} DigitsOfNatRepr(n: nat)
    ensures DigitsValue(NatRepr(n)) == n
  {
    if n >= 10 {
      var r := NatRepr(n);
      assert r[..|r| - 1] == NatRepr(n / 10);
      DigitsOfNatRepr(n / 10);
    }
  }

  lemma ParseIntNatRepr(n: nat)
    ensures ParseInt(NatRepr(n)) == Some(n)
  {
    DigitsOfNatRepr(n);
  }

  /** A minus sign followed by digits parses to the negated value of the digits. */
  lemma ParseIntNegated(d: string)
    requires |d| >= 1 && AllDigits(d)
    ensures ParseInt("-" + d) == Some(-(DigitsValue(d) as int))
  {
    var r := "-" + d;
    assert r[0] == '-';
    assert r[1..] == d;
  }

  lemma ParseIntNegativeRepr(n: int)
    requires n < 0
    ensures ParseInt(IntRepr(n)) == Some(n)
  {
    var d := NatRepr(-n);
    assert IntRepr(n) == "-" + d;
    ParseIntNegated(d);
    DigitsOfNatRepr(-n);
  }

  /** `int(str(n)) == n` for every integer. */
  lemma ParseIntRepr(n: int)
    ensures ParseInt(IntRepr(n)) == Some(n)
  {
    if n < 0 {
      ParseIntNegativeRepr(n);
    } else {
      ParseIntNatRepr(n);
    }
  }

  /** Python's `repr` of a list of strings without quote characters: `['a', 'b']`. */
  function QuotedList(items: seq<string>): string
  {
    if items == [] then ""
    else if |items| == 1 then "'" + items[0] + "'"
    else "'" + items[0] + "', " + QuotedList(items[1..])
  }

  function ListRepr(items: seq<string>): (r: string)
    ensures |r| >= 2 && r[0] == '[' && r[|r| - 1] == ']'
  {
    "[" + QuotedList(items) + "]"
  }

  /** `sep.join(items)` */
  function Join(sep: string, items: seq<string>): string
  {
    if items == [] then ""
    else if |items| == 1 then items[0]
    else items[0] + sep + Join(sep, items[1..])
  }
}
