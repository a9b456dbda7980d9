/** The string primitives of JavaScript the widgets rely on (`trim`, `startsWith`,
    `endsWith`, `includes`, `replace` with a string pattern, `split` on one
    character, `join`, `toLowerCase`, the `^\d+$` test and decimal rendering of
    integers), written over `string = seq<char>`. */
module JsString {
  import opened Wrappers

  // ---------------------------------------------------------------------------
  // Whitespace and trim
  // ---------------------------------------------------------------------------

  /** ECMAScript WhiteSpace and LineTerminator code points: what `String.prototype.trim` strips. */
  predicate IsSpace(c: char) {
    || c == '\t' || c == '\n' || c == '\U{000B}' || c == '\U{000C}' || c == '\r'
    || c == ' ' || c == '\U{00A0}' || c == '\U{1680}'
    || ('\U{2000}' <= c <= '\U{200A}')
    || c == '\U{2028}' || c == '\U{2029}' || c == '\U{202F}' || c == '\U{205F}'
    || c == '\U{3000}' || c == '\U{FEFF}'
  }

  predicate AllSpace(s: string) {
    forall k :: 0 <= k < |s| ==> IsSpace(s[k])
  }

  /** The position of the first non-space at or after `i` (or `|s|`). */
  function SkipSpaces(s: string, i: nat): (j: nat)
    requires i <= |s|
    ensures i <= j <= |s|
    ensures forall k :: i <= k < j ==> IsSpace(s[k])
    ensures j < |s| ==> !IsSpace(s[j])
    decreases |s| - i
  {
    if i < |s| && IsSpace(s[i]) then SkipSpaces(s, i + 1) else i
  }

  /** The position just after the last non-space before `j` (or 0). */
  function SkipSpacesBack(s: string, j: nat): (e: nat)
    requires j <= |s|
    ensures e <= j
    ensures forall k :: e <= k < j ==> IsSpace(s[k])
    ensures e > 0 ==> !IsSpace(s[e - 1])
    decreases j
  {
    if j > 0 && IsSpace(s[j - 1]) then SkipSpacesBack(s, j - 1) else j
  }

  /** `s.trim()`: the part of `s` between its leading and its trailing whitespace. */
  function Trim(s: string): (r: string)
    ensures |r| <= |s|
    ensures r == [] || (!IsSpace(r[0]) && !IsSpace(r[|r| - 1]))
  {
    var i := SkipSpaces(s, 0);
    var e := SkipSpacesBack(s, |s|);
    if e <= i then [] else s[i..e]
  }

  /** A string without whitespace at either end is its own trim. */
  lemma TrimUntouched(s: string)
    requires s == [] || (!IsSpace(s[0]) && !IsSpace(s[|s| - 1]))
    ensures Trim(s) == s
  {
    if s != [] {
      assert SkipSpaces(s, 0) == 0;
      assert SkipSpacesBack(s, |s|) == |s|;
    }
  }

  /** The trimmed string is an infix of `s` with whitespace on neither edge, everything cut away
      is whitespace, and it is empty exactly when `s` is all whitespace. */
  lemma TrimSpec(s: string)
    ensures var r := Trim(s);
      && (exists i :: 0 <= i <= |s| - |r| && r == s[i..i + |r|] && AllSpace(s[..i]) && AllSpace(s[i + |r|..]))
      && (r == [] || (!IsSpace(r[0]) && !IsSpace(r[|r| - 1])))
      && (r == [] <==> AllSpace(s))
  {
    var r := Trim(s);
    var i := SkipSpaces(s, 0);
    var e := SkipSpacesBack(s, |s|);
    if e <= i {
      assert AllSpace(s);
      assert r == s[i..i + |r|];
    } else {
      assert !IsSpace(s[i]);
      assert r == s[i..i + |r|];
      assert AllSpace(s[..i]) by {
        forall k | 0 <= k < i ensures IsSpace(s[..i][k]) {
          assert s[..i][k] == s[k];
        }
      }
      assert AllSpace(s[e..]) by {
        forall k | 0 <= k < |s| - e ensures IsSpace(s[e..][k]) {
          assert s[e..][k] == s[e + k];
        }
      }
    }
  }

  /** Trimming twice is trimming once. */
  lemma TrimIdempotent(s: string)
    ensures Trim(Trim(s)) == Trim(s)
  {
    TrimUntouched(Trim(s));
  }

  /** Every character of the trimmed string is a character of the string. */
  lemma TrimChars(s: string)
    ensures forall ch :: ch in Trim(s) ==> ch in s
  {
    var i := SkipSpaces(s, 0);
    var e := SkipSpacesBack(s, |s|);
    if i < e {
      forall ch | ch in s[i..e] ensures ch in s {
        var c :| 0 <= c < e - i && s[i..e][c] == ch;
        assert s[i + c] == ch;
      }
    }
  }

  // ---------------------------------------------------------------------------
  // Prefixes, suffixes and occurrences
  // ---------------------------------------------------------------------------

  predicate StartsWith(s: string, p: string) {
    |p| <= |s| && s[..|p|] == p
  }

  predicate EndsWith(s: string, p: string) {
    |p| <= |s| && s[|s| - |p|..] == p
  }

  /** `p` occurs in `s` at position `k`. */
  predicate OccursAt(s: string, p: string, k: int) {
    0 <= k && k + |p| <= |s| && s[k..k + |p|] == p
  }

  /** `k` is the position of the first occurrence of `p` in `s`. */
  predicate FirstOccurrence(s: string, p: string, k: int) {
    OccursAt(s, p, k) && forall j :: 0 <= j < k ==> !OccursAt(s, p, j)
  }

  function IndexOfFrom(s: string, p: string, i: nat): (r: Option<nat>)
    requires i <= |s|
    ensures r.Some? ==> i <= r.value && OccursAt(s, p, r.value)
    ensures r.Some? ==> forall j :: i <= j < r.value ==> !OccursAt(s, p, j)
    ensures r.None? ==> forall j :: i <= j <= |s| ==> !OccursAt(s, p, j)
    decreases |s| - i
  {
    if i + |p| <= |s| && s[i..i + |p|] == p then Some(i)
    else if i == |s| then None
    else IndexOfFrom(s, p, i + 1)
  }

  /** `s.indexOf(p)`, with -1 written as `None`. */
  function IndexOf(s: string, p: string): (r: Option<nat>)
    ensures r.Some? ==> FirstOccurrence(s, p, r.value)
    ensures r.None? ==> forall j :: 0 <= j <= |s| ==> !OccursAt(s, p, j)
  {
    IndexOfFrom(s, p, 0)
  }

  /** `s.includes(p)`. */
  predicate Contains(s: string, p: string) {
    IndexOf(s, p).Some?
  }

  lemma ContainsIff(s: string, p: string)
    ensures Contains(s, p) <==> exists k :: OccursAt(s, p, k)
  {
  }

  /** `s.replace(pat, rep)` with a string pattern: only the first occurrence is replaced. */
  function ReplaceFirst(s: string, pat: string, rep: string): (r: string)
    ensures !Contains(s, pat) ==> r == s
    ensures Contains(s, pat) ==>
      exists k :: FirstOccurrence(s, pat, k) && s == s[..k] + pat + s[k + |pat|..] && r == s[..k] + rep + s[k + |pat|..]
  {
    match IndexOf(s, pat)
    case None => s
    case Some(k) =>
      assert s == s[..k] + s[k..k + |pat|] + s[k + |pat|..];
      s[..k] + rep + s[k + |pat|..]
  }

  /** A pattern whose first character does not recur in it, appended to a string that does
      not contain it, is first found where it was appended, so `replace` swaps exactly that
      copy. */
  lemma ReplaceAtJunction(base: string, pat: string, rep: string)
    requires |pat| > 0 && pat[0] !in pat[1..] && !Contains(base, pat)
    ensures ReplaceFirst(base + pat, pat, rep) == base + rep
  {
    var s := base + pat;
    assert s[|base|..|base| + |pat|] == pat;
    assert OccursAt(s, pat, |base|);
    var k := IndexOf(s, pat).value;
    assert FirstOccurrence(s, pat, k);
    assert k <= |base|;
    JunctionIsFirst(base, pat, k);
    assert s[..k] == base;
  }

  /** The only place such a pattern occurs in `base + pat`, at or before `|base|`, is `|base|`. */
  lemma JunctionIsFirst(base: string, pat: string, k: nat)
    requires |pat| > 0 && pat[0] !in pat[1..] && !Contains(base, pat)
    requires k <= |base| && OccursAt(base + pat, pat, k)
    ensures k == |base|
  {
    OccursInPrefix(base, pat, k);
    OccursAcrossJunction(base, pat, k);
  }

  /** An occurrence in `base + pat` that ends inside `base` is an occurrence in `base`. */
  lemma OccursInPrefix(base: string, pat: string, k: nat)
    requires OccursAt(base + pat, pat, k)
    ensures k + |pat| <= |base| ==> OccursAt(base, pat, k)
  {
    if k + |pat| <= |base| {
      assert base[k..k + |pat|] == (base + pat)[k..k + |pat|];
    }
  }

  /** An occurrence in `base + pat` that straddles the junction finds `pat[0]` again later in
      `pat`. */
  lemma OccursAcrossJunction(base: string, pat: string, k: nat)
    requires OccursAt(base + pat, pat, k)
    ensures k < |base| < k + |pat| ==> pat[0] in pat[1..]
  {
    if k < |base| < k + |pat| {
      var s := base + pat;
      var d := |base| - k;
      assert s[k..k + |pat|][d] == s[|base|] == pat[0];
      assert pat[d] == pat[1..][d - 1];
    }
  }

  /** `s.replace(/<suf>$/, '')`: removes `suf` only when `s` ends with it. */
  function DropSuffix(s: string, suf: string): (r: string)
    ensures EndsWith(s, suf) ==> r + suf == s
    ensures !EndsWith(s, suf) ==> r == s
  {
    if EndsWith(s, suf) then s[..|s| - |suf|] else s
  }

  /** `s.replace(/c+$/, '')`: removes every trailing `c`. */
  function StripTrailing(s: string, c: char): (r: string)
    ensures |r| <= |s| && r == s[..|r|]
    ensures forall k :: |r| <= k < |s| ==> s[k] == c
    ensures r == [] || r[|r| - 1] != c
    decreases |s|
  {
    if s != [] && s[|s| - 1] == c then StripTrailing(s[..|s| - 1], c) else s
  }

  // ---------------------------------------------------------------------------
  // split / join
  // ---------------------------------------------------------------------------

  function IndexOfChar(s: string, c: char): (k: nat)
    requires c in s
    ensures k < |s| && s[k] == c && c !in s[..k]
  {
    if s[0] == c then 0 else
      var k := IndexOfChar(s[1..], c);
      assert s[..k + 1] == [s[0]] + s[1..][..k];
      k + 1
  }

  /** `s.split(c)` for a one-character separator: never empty, and no piece holds the separator. */
  function SplitOn(s: string, c: char): (r: seq<string>)
    ensures |r| >= 1
    ensures forall i :: 0 <= i < |r| ==> c !in r[i]
    decreases |s|
  {
    if c !in s then [s]
    else
      var k := IndexOfChar(s, c);
      [s[..k]] + SplitOn(s[k + 1..], c)
  }

  /** Every character of a piece of the split is a character of the split string. */
  lemma {:induction false} SplitPieceChars(s: string, c: char, p: string)
    requires p in SplitOn(s, c)
    ensures forall ch :: ch in p ==> ch in s
    decreases |s|
  {
    if c in s {
      var k := IndexOfChar(s, c);
      if p != s[..k] {
        SplitPieceChars(s[k + 1..], c, p);
      }
    }
  }

  /** `parts.join(sep)`. */
  function Join(parts: seq<string>, sep: string): string
  {
    if |parts| == 0 then ""
    else if |parts| == 1 then parts[0]
    else parts[0] + sep + Join(parts[1..], sep)
  }

  lemma JoinThree(a: string, b: string, c: string, sep: string)
    ensures Join([a, b, c], sep) == a + sep + b + sep + c
  {
    assert [a, b, c][1..] == [b, c];
    assert [b, c][1..] == [c];
    assert Join([b, c], sep) == b + sep + c;
    assert a + sep + (b + sep + c) == a + sep + b + sep + c;
  }

  /** Splitting on `c` and joining with `c` gives the original string back. */
  lemma {:induction false} JoinSplit(s: string, c: char)
    ensures Join(SplitOn(s, c), [c]) == s
    decreases |s|
  {
    if c in s {
      var k := IndexOfChar(s, c);
      var rest := SplitOn(s[k + 1..], c);
      JoinSplit(s[k + 1..], c);
      assert SplitOn(s, c) == [s[..k]] + rest;
      assert ([s[..k]] + rest)[1..] == rest && |rest| >= 1;
      assert Join(SplitOn(s, c), [c]) == s[..k] + [c] + Join(rest, [c]);
      assert s == s[..k] + [c] + s[k + 1..];
    }
  }

  /** Joining pieces free of `c` with `c` and splitting on `c` gives the pieces back. */
  lemma {:induction false} SplitJoin(parts: seq<string>, c: char)
    requires |parts| >= 1
    requires forall i :: 0 <= i < |parts| ==> c !in parts[i]
    ensures SplitOn(Join(parts, [c]), c) == parts
    decreases |parts|
  {
    if |parts| > 1 {
      var head := parts[0];
      var rest := Join(parts[1..], [c]);
      var s := head + [c] + rest;
      assert Join(parts, [c]) == s;
      assert s[|head|] == c;
      var k := IndexOfChar(s, c);
      assert k == |head|;
      assert s[..k] == head;
      assert s[k + 1..] == rest;
      SplitJoin(parts[1..], c);
      assert parts == [head] + parts[1..];
    }
  }

  // ---------------------------------------------------------------------------
  // Case, digits and decimal rendering
  // ---------------------------------------------------------------------------

  function LowerChar(c: char): char
  {
    if 'A' <= c <= 'Z' then (c as int + 32) as char else c
  }

  /** `s.toLowerCase()` on the ASCII letters. */
  function Lower(s: string): (r: string)
    ensures |r| == |s|
    ensures forall i :: 0 <= i < |s| ==> r[i] == LowerChar(s[i])
  {
    seq(|s|, i requires 0 <= i < |s| => LowerChar(s[i]))
  }

  /** No ASCII upper-case letter occurs in `s`. */
  predicate IsLowerCase(s: string) {
    forall ch :: ch in s ==> LowerChar(ch) == ch
  }

  lemma LowerIsLowerCase(s: string)
    ensures IsLowerCase(Lower(s))
  {
    var r := Lower(s);
    forall ch | ch in r ensures LowerChar(ch) == ch {
      var i :| 0 <= i < |r| && r[i] == ch;
    }
  }

  predicate IsDigit(c: char) {
    '0' <= c <= '9'
  }

  /** The regular expression `^\d+$`. */
  predicate AllDigits(s: string) {
    |s| > 0 && forall i :: 0 <= i < |s| ==> IsDigit(s[i])
  }

  /** The number a run of decimal digits denotes. */
  function DigitsValue(s: string): nat
    requires forall i :: 0 <= i < |s| ==> IsDigit(s[i])
  {
    if |s| == 0 then 0
    else
      assert IsDigit(s[|s| - 1]);
      10 * DigitsValue(s[..|s| - 1]) + (s[|s| - 1] as int - '0' as int)
  }

  /** Decimal rendering of a natural number, as `String(n)` prints it. */
  function NatToString(n: nat): (r: string)
    ensures AllDigits(r)
    ensures DigitsValue(r) == n
    ensures r[0] == '0' ==> n == 0
  {
    var d := ['0' + (n % 10) as char];
    if n < 10 then d
    else
      var hi := NatToString(n / 10);
      assert (hi + d)[..|hi + d| - 1] == hi;
      hi + d
  }

  /** Decimal rendering of an integer, as `String(n)` prints it. */
  function IntToString(n: int): string
  {
    if n < 0 then "-" + NatToString(-n) else NatToString(n)
  }
}
