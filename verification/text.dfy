/**
 * String primitives of the JavaScript runtime that the passes rely on:
 * `\s` and `trim`, `split`/`join` on one character, `split(/\s+/)`,
 * `includes`, `substring(0, n)`, the case mappings, the case-insensitive
 * comparison of non-unicode `/i` regular expressions, and decimal digits.
 *
 * Strings are sequences of Unicode scalar values; the model treats each as
 * one JavaScript code unit, which is exact for text in the Basic
 * Multilingual Plane (all Turkish text).
 */
module Text {

  // ---------------------------------------------------------------------
  // Character classes

  /** JavaScript's WhiteSpace and LineTerminator: what `\s` matches and `trim` removes. */
  predicate IsWhitespace(c: char) {
    c == ' ' || c == '\t' || c == '\n' || c == '\r' || c == '\U{000B}' || c == '\U{000C}'
    || c == '\U{00A0}' || c == '\U{1680}' || ('\U{2000}' <= c <= '\U{200A}')
    || c == '\U{2028}' || c == '\U{2029}' || c == '\U{202F}' || c == '\U{205F}'
    || c == '\U{3000}' || c == '\U{FEFF}'
  }

  /** The characters a regular-expression `.` does not match. */
  predicate IsLineTerminator(c: char) {
    c == '\n' || c == '\r' || c == '\U{2028}' || c == '\U{2029}'
  }

  /** `\d` */
  predicate IsDigit(c: char) {
    '0' <= c <= '9'
  }

  predicate IsAllDigits(s: string) {
    forall i :: 0 <= i < |s| ==> IsDigit(s[i])
  }

  predicate IsAllWhitespace(s: string) {
    forall i :: 0 <= i < |s| ==> IsWhitespace(s[i])
  }

  // ---------------------------------------------------------------------
  // trim

  /** Number of whitespace characters at the start of `s`. */
  function LeadingWhitespace(s: string): (n: nat)
    ensures n <= |s|
    ensures n < |s| ==> !IsWhitespace(s[n])
  {
    if |s| > 0 && IsWhitespace(s[0]) then 1 + LeadingWhitespace(s[1..]) else 0
  }

  /** Everything LeadingWhitespace counts is whitespace. */
  lemma {:induction false} LeadingSpaces(s: string)
    ensures forall i :: 0 <= i < LeadingWhitespace(s) ==> IsWhitespace(s[i])
  {
    if |s| > 0 && IsWhitespace(s[0]) {
      LeadingSpaces(s[1..]);
      forall i | 1 <= i < LeadingWhitespace(s) ensures IsWhitespace(s[i]) {
        assert s[i] == s[1..][i - 1];
      }
    }
  }

  /** Number of whitespace characters at the end of `s`. */
  function TrailingWhitespace(s: string): (n: nat)
    ensures n <= |s|
    ensures n < |s| ==> !IsWhitespace(s[|s| - n - 1])
  {
    if |s| > 0 && IsWhitespace(s[|s| - 1]) then 1 + TrailingWhitespace(s[..|s| - 1]) else 0
  }

  /** Everything TrailingWhitespace counts is whitespace. */
  lemma {:induction false} TrailingSpaces(s: string)
    ensures forall i :: |s| - TrailingWhitespace(s) <= i < |s| ==> IsWhitespace(s[i])
  {
    if |s| > 0 && IsWhitespace(s[|s| - 1]) {
      var p := s[..|s| - 1];
      TrailingSpaces(p);
      forall i | |s| - TrailingWhitespace(s) <= i < |s| - 1 ensures IsWhitespace(s[i]) {
        assert s[i] == p[i];
      }
    }
  }

  function TrimStart(s: string): string {
    s[LeadingWhitespace(s)..]
  }

  function TrimEnd(s: string): string {
    s[..|s| - TrailingWhitespace(s)]
  }

  /** `String.prototype.trim` */
  function Trim(s: string): string {
    TrimEnd(TrimStart(s))
  }

  /** A string that `trim` leaves unchanged: no whitespace at either end. */
  predicate IsTrimmed(s: string) {
    s == "" || (!IsWhitespace(s[0]) && !IsWhitespace(s[|s| - 1]))
  }

  /** `trim` removes exactly the whitespace at both ends: its result is a
      slice of the input that starts and ends with a non-space character,
      and everything cut off is whitespace. */
  lemma TrimSlice(s: string)
    ensures IsTrimmed(Trim(s))
    ensures exists a, b :: (0 <= a <= b <= |s| && Trim(s) == s[a..b]
                             && IsAllWhitespace(s[..a]) && IsAllWhitespace(s[b..]))
  {
    var a := LeadingWhitespace(s);
    var t := s[a..];
    var n := TrailingWhitespace(t);
    LeadingSpaces(s);
    TrailingSpaces(t);
    var b := a + |t| - n;
    var r := s[a..b];
    assert Trim(s) == r;
    assert IsTrimmed(r) by {
      if r != "" {
        assert r[0] == t[0];
        assert r[|r| - 1] == t[|t| - n - 1];
      }
    }
    assert IsAllWhitespace(s[..a]);
    assert IsAllWhitespace(s[b..]) by {
      forall i | 0 <= i < |s| - b ensures IsWhitespace(s[b..][i]) {
        assert s[b..][i] == t[|t| - n + i];
      }
    }
  }

  /** `trim` is idempotent. */
  lemma TrimIdempotent(s: string)
    ensures Trim(Trim(s)) == Trim(s)
  {
    TrimSlice(s);
    TrimOfTrimmed(Trim(s));
  }

  /** A trimmed string is its own trim. */
  lemma TrimOfTrimmed(s: string)
    requires IsTrimmed(s)
    ensures Trim(s) == s
  {
    if s != "" {
      assert LeadingWhitespace(s) == 0;
      assert TrailingWhitespace(s) == 0;
    }
  }

  /** `trim` yields `""` exactly for strings made only of whitespace. */
  lemma TrimEmptyIff(s: string)
    ensures Trim(s) == "" <==> IsAllWhitespace(s)
  {
    var a := LeadingWhitespace(s);
    LeadingSpaces(s);
    if IsAllWhitespace(s) {
      LeadingAll(s);
      assert TrimStart(s) == "";
    } else {
      assert a < |s|;
      var t := s[a..];
      assert !IsWhitespace(t[0]);
      TrailingSpaces(t);
      assert TrailingWhitespace(t) < |t|;
    }
  }

  /** Whitespace added around a string does not change its trim. */
  lemma {:induction false} TrimPadding(a: string, s: string, b: string)
    requires IsAllWhitespace(a) && IsAllWhitespace(b)
    ensures Trim(a + s + b) == Trim(s)
  {
    var x := a + s + b;
    var ls := LeadingWhitespace(s);
    var lx := LeadingWhitespace(x);
    LeadingSpaces(s);
    if ls < |s| {
      LeadingExact(x, |a| + ls);
      assert lx == |a| + ls;
      var ts := s[ls..];
      var tx := x[lx..];
      assert tx == ts + b;
      TrailingPadding(ts, b);
    } else {
      assert IsAllWhitespace(x);
      TrimEmptyIff(x);
      assert IsAllWhitespace(s);
      TrimEmptyIff(s);
    }
  }

  lemma {:induction false} LeadingAll(s: string)
    requires IsAllWhitespace(s)
    ensures LeadingWhitespace(s) == |s|
  {
    if s != "" {
      LeadingAll(s[1..]);
    }
  }

  lemma {:induction false} LeadingExact(x: string, k: nat)
    requires k < |x| && IsAllWhitespace(x[..k]) && !IsWhitespace(x[k])
    ensures LeadingWhitespace(x) == k
  {
    if k > 0 {
      assert IsWhitespace(x[..k][0]);
      assert x[1..][..k - 1] == x[..k][1..];
      LeadingExact(x[1..], k - 1);
    }
  }

  lemma {:induction false} TrailingPadding(t: string, b: string)
    requires t != "" && !IsWhitespace(t[0]) && IsAllWhitespace(b)
    ensures TrimEnd(t + b) == TrimEnd(t)
    decreases |b|
  {
    if b != [] {
      var x := t + b;
      var b' := b[..|b| - 1];
      assert x[..|x| - 1] == t + b';
      TrailingPadding(t, b');
      assert TrailingWhitespace(x) == 1 + TrailingWhitespace(t + b');
    } else {
      assert t + b == t;
    }
  }

  // ---------------------------------------------------------------------
  // split / join on one character

  /** Index of the first occurrence of `c` in `s`. */
  function IndexOf(s: string, c: char): (i: nat)
    requires c in s
    ensures i < |s| && s[i] == c && c !in s[..i]
  {
    if s[0] == c then 0 else assert c in s[1..]; 1 + IndexOf(s[1..], c)
  }

  /** `s.split(sep)` for a one-character separator. */
  function Split(s: string, sep: char): (parts: seq<string>)
    ensures |parts| >= 1
    ensures forall k :: 0 <= k < |parts| ==> sep !in parts[k]
    decreases |s|
  {
    if sep !in s then [s]
    else
      var i := IndexOf(s, sep);
      [s[..i]] + Split(s[i + 1..], sep)
  }

  /** `parts.join(sep)` for a one-character separator. */
  function Join(parts: seq<string>, sep: char): string {
    if |parts| == 0 then ""
    else if |parts| == 1 then parts[0]
    else parts[0] + [sep] + Join(parts[1..], sep)
  }

  /** Joining what `split` produced restores the text. */
  lemma {:induction false} JoinSplit(s: string, sep: char)
    ensures Join(Split(s, sep), sep) == s
    decreases |s|
  {
    if sep in s {
      var i := IndexOf(s, sep);
      var rest := s[i + 1..];
      var parts := Split(s, sep);
      JoinSplit(rest, sep);
      assert parts == [s[..i]] + Split(rest, sep);
      assert parts[1..] == Split(rest, sep);
      assert Join(parts, sep) == s[..i] + [sep] + Join(Split(rest, sep), sep);
      assert s == s[..i] + [sep] + rest;
    }
  }

  /** Splitting a join of separator-free parts gives the parts back. */
  lemma {:induction false} SplitJoin(parts: seq<string>, sep: char)
    requires |parts| >= 1
    requires forall k :: 0 <= k < |parts| ==> sep !in parts[k]
    ensures Split(Join(parts, sep), sep) == parts
    decreases |parts|
  {
    if |parts| > 1 {
      var j := Join(parts, sep);
      var rest := Join(parts[1..], sep);
      assert j == parts[0] + [sep] + rest;
      assert j[|parts[0]|] == sep;
      assert sep in j;
      assert j[..|parts[0]|] == parts[0];
      assert IndexOf(j, sep) == |parts[0]|;
      assert j[|parts[0]| + 1..] == rest;
      SplitJoin(parts[1..], sep);
    } else {
      assert Join(parts, sep) == parts[0];
    }
  }

  /** A character missing from a text is missing from each of its slices. */
  lemma NotInSlice(s: string, a: nat, b: nat, c: char)
    requires a <= b <= |s| && c !in s
    ensures c !in s[a..b]
  {
    forall j | 0 <= j < b - a
      ensures s[a..b][j] != c
    {
      assert s[a..b][j] == s[a + j];
    }
  }

  /** A slice of a slice is a slice of the whole. */
  lemma SliceOfSlice(s: string, p: nat, e: nat, a: nat, b: nat)
    requires p <= e <= |s| && a <= b <= e - p
    ensures s[p..e][a..b] == s[p + a..p + b]
  {
    forall j | 0 <= j < b - a
      ensures s[p..e][a..b][j] == s[p + a..p + b][j]
    {
      assert s[p..e][a..b][j] == s[p + a + j];
    }
  }

  /** A character missing from a text is missing from every piece `split`
      cuts out of it. */
  lemma {:induction false} SplitAvoids(s: string, sep: char, c: char)
    requires c !in s
    ensures forall k :: 0 <= k < |Split(s, sep)| ==> c !in Split(s, sep)[k]
    decreases |s|
  {
    if sep in s {
      var i := IndexOf(s, sep);
      NotInSlice(s, 0, i, c);
      NotInSlice(s, i + 1, |s|, c);
      assert s[..i] == s[0..i];
      assert s[i + 1..] == s[i + 1..|s|];
      SplitAvoids(s[i + 1..], sep, c);
    }
  }

  /** `trim` only cuts characters away. */
  lemma TrimAvoids(s: string, c: char)
    requires c !in s
    ensures c !in Trim(s)
  {
    var t := TrimStart(s);
    NotInSlice(s, LeadingWhitespace(s), |s|, c);
    assert t == s[LeadingWhitespace(s)..|s|];
    NotInSlice(t, 0, |t| - TrailingWhitespace(t), c);
    assert Trim(s) == t[0..|t| - TrailingWhitespace(t)];
  }

  /** `s.replace(/x/g, y)` for a single character `x` and a string `y`. */
  function ReplaceChar(s: string, x: char, y: string): (r: string)
    ensures x !in y ==> x !in r
  {
    if s == "" then "" else (if s[0] == x then y else [s[0]]) + ReplaceChar(s[1..], x, y)
  }

  /** `s.replace(/\r\n/g, '\n')` */
  function ReplaceCrLf(s: string): (r: string)
    ensures |r| <= |s|
  {
    if |s| >= 2 && s[0] == '\r' && s[1] == '\n' then "\n" + ReplaceCrLf(s[2..])
    else if s == "" then ""
    else [s[0]] + ReplaceCrLf(s[1..])
  }

  // ---------------------------------------------------------------------
  // split(/\s+/)

  /** Index of the first whitespace character of `s`, or `|s|`. */
  function FirstWhitespace(s: string): (i: nat)
    ensures i <= |s|
    ensures forall k :: 0 <= k < i ==> !IsWhitespace(s[k])
    ensures i < |s| ==> IsWhitespace(s[i])
  {
    if s == "" || IsWhitespace(s[0]) then 0 else 1 + FirstWhitespace(s[1..])
  }

  /** `s.split(/\s+/)`: the pieces between maximal runs of whitespace. A
      leading (trailing) run yields an empty first (last) piece. */
  function SplitWhitespace(s: string): (parts: seq<string>)
    ensures |parts| >= 1
    decreases |s|
  {
    var i := FirstWhitespace(s);
    if i == |s| then [s]
    else
      var j := i + LeadingWhitespace(s[i..]);
      [s[..i]] + SplitWhitespace(s[j..])
  }

  /** On a trimmed, non-empty string every piece of `split(/\s+/)` is a
      non-empty run of non-space characters. */
  lemma {:induction false} SplitWhitespaceWords(s: string)
    requires s != "" && IsTrimmed(s)
    ensures forall k :: 0 <= k < |SplitWhitespace(s)| ==> SplitWhitespace(s)[k] != ""
    decreases |s|
  {
    var i := FirstWhitespace(s);
    if i < |s| {
      var t := s[i..];
      assert !IsWhitespace(t[|t| - 1]);
      LeadingSpaces(t);
      var j := i + LeadingWhitespace(t);
      assert j < |s|;
      assert i > 0;
      var r := s[j..];
      assert r[|r| - 1] == s[|s| - 1];
      SplitWhitespaceWords(r);
    }
  }

  /** A string with no whitespace in it. */
  predicate NoSpaces(w: string) {
    forall i :: 0 <= i < |w| ==> !IsWhitespace(w[i])
  }

  /** A single word splits into itself. */
  lemma SplitOneWord(w: string)
    requires NoSpaces(w)
    ensures SplitWhitespace(w) == [w]
  {
  }

  /** A word, one space and a text starting with a non-space: the word is
      the first piece and the text gives the rest. */
  lemma SplitWordThenRest(w: string, rest: string)
    requires NoSpaces(w) && rest != "" && !IsWhitespace(rest[0])
    ensures SplitWhitespace(w + " " + rest) == [w] + SplitWhitespace(rest)
  {
    var s := w + " " + rest;
    assert s[|w|] == ' ';
    assert FirstWhitespace(s) == |w|;
    assert s[|w|..][1..] == rest;
    assert LeadingWhitespace(s[|w|..]) == 1;
    assert s[..|w|] == w;
    assert s[|w| + 1..] == rest;
  }

  /** No piece of `split(/\s+/)` contains whitespace. */
  lemma {:induction false} SplitWhitespaceNoSpaces(s: string)
    ensures forall k :: 0 <= k < |SplitWhitespace(s)| ==> NoSpaces(SplitWhitespace(s)[k])
    decreases |s|
  {
    var i := FirstWhitespace(s);
    if i < |s| {
      var j := i + LeadingWhitespace(s[i..]);
      var rest := SplitWhitespace(s[j..]);
      SplitWhitespaceNoSpaces(s[j..]);
      var ps := SplitWhitespace(s);
      assert ps == [s[..i]] + rest;
      assert NoSpaces(s[..i]);
      forall k | 0 < k < |ps| ensures NoSpaces(ps[k]) {
        assert ps[k] == rest[k - 1];
      }
    }
  }

  /** Words, each non-empty and without whitespace. */
  predicate AreWords(ws: seq<string>) {
    forall k :: 0 <= k < |ws| ==> ws[k] != "" && NoSpaces(ws[k])
  }

  /** Words joined with single spaces start with the first word's first
      letter and end with the last word's last letter. */
  lemma {:induction false} JoinEnds(ws: seq<string>)
    requires |ws| >= 1 && AreWords(ws)
    ensures var s := Join(ws, ' '); |s| > 0 && s[0] == ws[0][0] && s[|s| - 1] == ws[|ws| - 1][|ws[|ws| - 1]| - 1]
    decreases |ws|
  {
    if |ws| > 1 {
      var w, tail := ws[0], ws[1..];
      AreWordsTail(ws);
      JoinEnds(tail);
      var rest := Join(tail, ' ');
      var s := Join(ws, ' ');
      assert s == w + [' '] + rest;
      assert |w| > 0 && s[0] == w[0];
      assert s[|s| - 1] == rest[|rest| - 1];
      assert tail[|tail| - 1] == ws[|ws| - 1];
    } else {
      assert Join(ws, ' ') == ws[0];
    }
  }

  /** Dropping the first word leaves words. */
  lemma AreWordsTail(ws: seq<string>)
    requires |ws| >= 1 && AreWords(ws)
    ensures AreWords(ws[1..])
  {
    forall k | 0 <= k < |ws| - 1 ensures ws[1..][k] != "" && NoSpaces(ws[1..][k]) {
      assert ws[1..][k] == ws[k + 1];
    }
  }

  /** Splitting words joined with single spaces gives the words back. */
  lemma {:induction false} SplitJoinWords(ws: seq<string>)
    requires |ws| >= 1 && AreWords(ws)
    ensures SplitWhitespace(Join(ws, ' ')) == ws
    decreases |ws|
  {
    if |ws| == 1 {
      SplitOneWord(ws[0]);
    } else {
      var w, tail := ws[0], ws[1..];
      AreWordsTail(ws);
      var rest := Join(tail, ' ');
      SplitJoinWords(tail);
      JoinEnds(tail);
      assert w != "" && NoSpaces(w);
      SplitWordThenRest(w, rest);
      assert Join(ws, ' ') == w + " " + rest;
      assert ws == [w] + tail;
    }
  }

  /** The last `n` elements (`slice(-n)`). */
  function LastN<T>(s: seq<T>, n: nat): (r: seq<T>)
    ensures |r| == if |s| < n then |s| else n
  {
    if |s| <= n then s else s[|s| - n..]
  }

  // ---------------------------------------------------------------------
  // Substrings

  /** `s.includes(sub)` */
  predicate Includes(s: string, sub: string) {
    exists i: nat :: i <= |s| && SubAt(s, i, sub)
  }

  /** `sub` occurs in `s` at index `i`. */
  predicate SubAt(s: string, i: nat, sub: string) {
    i + |sub| <= |s| && s[i..i + |sub|] == sub
  }

  /** `s.substring(0, n) + (s.length > n ? "..." : "")`: the context excerpt
      stored with every extracted entry. */
  function Excerpt(s: string, n: nat): (r: string)
    ensures |s| <= n ==> r == s
    ensures |s| > n ==> |r| == n + 3 && r[..n] == s[..n] && r[n..] == "..."
  {
    if |s| <= n then s else s[..n] + "..."
  }

  // ---------------------------------------------------------------------
  // Case

  /** The lower-case Turkish letters outside ASCII that have a one-character
      upper-case partner (ç ğ ö ş ü), and those partners. */
  predicate IsTurkishLower(c: char) {
    c == 'ç' || c == 'ğ' || c == 'ö' || c == 'ş' || c == 'ü'
  }

  predicate IsTurkishUpper(c: char) {
    c == 'Ç' || c == 'Ğ' || c == 'Ö' || c == 'Ş' || c == 'Ü'
  }

  function TurkishUpper(c: char): char
    requires IsTurkishLower(c)
  {
    if c == 'ç' then 'Ç' else if c == 'ğ' then 'Ğ' else if c == 'ö' then 'Ö'
    else if c == 'ş' then 'Ş' else 'Ü'
  }

  function TurkishLower(c: char): char
    requires IsTurkishUpper(c)
  {
    if c == 'Ç' then 'ç' else if c == 'Ğ' then 'ğ' else if c == 'Ö' then 'ö'
    else if c == 'Ş' then 'ş' else 'ü'
  }

  predicate IsAsciiLower(c: char) { 'a' <= c <= 'z' }
  predicate IsAsciiUpper(c: char) { 'A' <= c <= 'Z' }

  /** The canonical form under which a non-unicode `/i` regular expression
      compares characters: the upper-case form, except that a non-ASCII
      character never folds onto an ASCII one (so `ı` and `İ` fold only to
      themselves). */
  function Canon(c: char): (r: char)
    ensures IsAsciiLower(c) || IsTurkishLower(c) || r == c
  {
    if IsAsciiLower(c) then (c as int - 32) as char
    else if IsTurkishLower(c) then TurkishUpper(c)
    else c
  }

  /** Two characters match under `/i`. */
  predicate CanonEq(a: char, b: char) {
    Canon(a) == Canon(b)
  }

  /** `toUpperCase` of one character (ASCII and Turkish letters; `ı` and `i` become `I`). */
  function UpperChar(c: char): char {
    if IsAsciiLower(c) then (c as int - 32) as char
    else if IsTurkishLower(c) then TurkishUpper(c)
    else if c == 'ı' then 'I'
    else c
  }

  /** `toUpperCase` */
  function ToUpper(s: string): (r: string)
    ensures |r| == |s|
    ensures forall i :: 0 <= i < |s| ==> r[i] == UpperChar(s[i])
  {
    if s == "" then "" else [UpperChar(s[0])] + ToUpper(s[1..])
  }

  /** `toLowerCase` of one character; `İ` becomes the two characters `i` and
      a combining dot above, as JavaScript does. */
  function LowerChar(c: char): string {
    if IsAsciiUpper(c) then [(c as int + 32) as char]
    else if IsTurkishUpper(c) then [TurkishLower(c)]
    else if c == 'İ' then "i\U{0307}"
    else [c]
  }

  /** `toLowerCase` */
  function ToLower(s: string): string {
    if s == "" then "" else LowerChar(s[0]) + ToLower(s[1..])
  }

  /** `a.toLowerCase() === b.toLowerCase()`: the comparison every
      deduplication of this system uses. */
  predicate SameIgnoringCase(a: string, b: string) {
    ToLower(a) == ToLower(b)
  }

  /** The text at `i` matches `lit` under `/i`. */
  predicate CiAt(s: string, i: nat, lit: string) {
    i + |lit| <= |s| && forall k :: 0 <= k < |lit| ==> CanonEq(s[i + k], lit[k])
  }

  /** `/lit/i.test(s)`: `lit` occurs somewhere in `s`, ignoring case. */
  predicate CiIncludes(s: string, lit: string) {
    exists i: nat :: i <= |s| && CiAt(s, i, lit)
  }

  // ---------------------------------------------------------------------
  // Decimal numbers

  /** `parseInt` of a string of decimal digits. */
  function ParseNat(d: string): nat
    requires IsAllDigits(d)
  {
    if d == "" then 0
    else ParseNat(d[..|d| - 1]) * 10 + (d[|d| - 1] as int - '0' as int)
  }

  /** Decimal representation of `n`, without leading zeros (`String(n)`). */
  function NatToString(n: nat): (d: string)
    ensures d != "" && IsAllDigits(d)
  {
    if n < 10 then [('0' as int + n) as char]
    else NatToString(n / 10) + [('0' as int + n % 10) as char]
  }

  /** `parseInt(String(n)) == n`. */
  lemma {:induction false} ParseNatToString(n: nat)
    ensures ParseNat(NatToString(n)) == n
  {
    var d := NatToString(n);
    if n >= 10 {
      ParseNatToString(n / 10);
      assert d[..|d| - 1] == NatToString(n / 10);
    }
  }
}
