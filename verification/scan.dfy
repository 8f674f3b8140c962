/**
 * Building blocks for the small regular expressions of the line
 * recognisers, written as scanners over positions of a string: greedy runs
 * of `\s`, `\d` and character classes, the `(.+)$` tail capture, the
 * optional `(?:\s*[:-]\s*(.+))?$` title, and the leftmost-match search that
 * an unanchored pattern performs.
 */
module Scan {
  import opened Base
  import opened Text

  /** Length of the greedy `\s*` run starting at `i`. */
  function WsRun(s: string, i: nat): (n: nat)
    requires i <= |s|
    ensures i + n <= |s|
    ensures i + n < |s| ==> !IsWhitespace(s[i + n])
    decreases |s| - i
  {
    if i < |s| && IsWhitespace(s[i]) then 1 + WsRun(s, i + 1) else 0
  }

  /** Everything WsRun counts is whitespace. */
  lemma {:induction false} WsRunSpaces(s: string, i: nat)
    requires i <= |s|
    ensures forall k :: i <= k < i + WsRun(s, i) ==> IsWhitespace(s[k])
    decreases |s| - i
  {
    if i < |s| && IsWhitespace(s[i]) {
      WsRunSpaces(s, i + 1);
    }
  }

  /** Length of the greedy `\d*` run starting at `i`. */
  function DigitRun(s: string, i: nat): (n: nat)
    requires i <= |s|
    ensures i + n <= |s|
    ensures i + n < |s| ==> !IsDigit(s[i + n])
    decreases |s| - i
  {
    if i < |s| && IsDigit(s[i]) then 1 + DigitRun(s, i + 1) else 0
  }

  /** Everything DigitRun counts is a digit. */
  lemma {:induction false} DigitRunDigits(s: string, i: nat)
    requires i <= |s|
    ensures IsAllDigits(s[i..i + DigitRun(s, i)])
    decreases |s| - i
  {
    if i < |s| && IsDigit(s[i]) {
      DigitRunDigits(s, i + 1);
      var n := DigitRun(s, i);
      assert s[i..i + n] == [s[i]] + s[i + 1..i + n];
    }
  }

  /** No character a regular-expression `.` refuses. */
  predicate LineFree(s: string) {
    forall k :: 0 <= k < |s| ==> !IsLineTerminator(s[k])
  }

  /** `\s{min,}(.+)$` at `i`: the whitespace is taken greedily and the rest
      of the text is the capture; when nothing but whitespace is left, one
      whitespace character is given back to the capture. */
  function TailCapture(s: string, i: nat, min: nat): (r: Option<string>)
    requires i <= |s|
    ensures r.Some? ==> r.value != "" && LineFree(r.value)
  {
    var j := i + WsRun(s, i);
    if j - i < min then None
    else if j < |s| then (if LineFree(s[j..]) then Some(s[j..]) else None)
    else if j - i > min && !IsLineTerminator(s[j - 1]) then Some(s[j - 1..])
    else None
  }

  /** A separator of a heading title. */
  predicate IsTitleSeparator(c: char) {
    c == ':' || c == '-'
  }

  /** `\s*[:-]\s*(.+)$` at `i`: the title after a separator. */
  function SeparatedTitle(s: string, i: nat): (r: Option<string>)
    requires i <= |s|
    ensures r.Some? ==> r.value != ""
  {
    var j := i + WsRun(s, i);
    if j < |s| && IsTitleSeparator(s[j]) then TailCapture(s, j + 1, 0) else None
  }

  /** `(?:\s*[:-]\s*(.+))?$` at `i`: Some(Some(title)) when a separated title
      follows, Some(None) at the end of the text, None otherwise. */
  function OptionalTitle(s: string, i: nat): (r: Option<Option<string>>)
    requires i <= |s|
    ensures r == Some(None) <==> i == |s|
  {
    match SeparatedTitle(s, i)
    case Some(t) => Some(Some(t))
    case None => if i == |s| then Some(None) else None
  }

  /** A captured title as the detectors report it: trimmed, or null. */
  function TitleText(t: Option<string>): Option<string> {
    if t.Some? then Some(Trim(t.value)) else None
  }

  /** The leftmost hit of an unanchored pattern: `f(k)` for the least `k` in
      `[i, n]` where `f` matches. */
  function FirstHit<T>(f: nat -> Option<T>, i: nat, n: nat): Option<T>
    decreases n - i
  {
    if i > n then None
    else if f(i).Some? then f(i)
    else FirstHit(f, i + 1, n)
  }

  /** FirstHit finds the leftmost match, and finds none only when there is none. */
  lemma {:induction false} FirstHitLeftmost<T>(f: nat -> Option<T>, i: nat, n: nat)
    ensures FirstHit(f, i, n).None? <==> forall k :: i <= k <= n ==> f(k).None?
    ensures FirstHit(f, i, n).Some? ==>
      exists k :: i <= k <= n && FirstHit(f, i, n) == f(k) && forall j :: i <= j < k ==> f(j).None?
    decreases n - i
  {
    if i <= n && f(i).None? {
      FirstHitLeftmost(f, i + 1, n);
      if FirstHit(f, i + 1, n).Some? {
        var k :| i + 1 <= k <= n && FirstHit(f, i + 1, n) == f(k) && forall j :: i + 1 <= j < k ==> f(j).None?;
        assert forall j :: i <= j < k ==> f(j).None?;
      }
    }
  }

  /** FirstHit returns the hit at `k` when nothing before `k` matches. */
  lemma {:induction false} FirstHitAt<T>(f: nat -> Option<T>, i: nat, n: nat, k: nat)
    requires i <= k <= n && f(k).Some?
    requires forall j :: i <= j < k ==> f(j).None?
    ensures FirstHit(f, i, n) == f(k)
    decreases k - i
  {
    if i < k {
      FirstHitAt(f, i + 1, n, k);
    }
  }

  /** FirstHit finds nothing when nothing in range matches. */
  lemma {:induction false} FirstHitNone<T>(f: nat -> Option<T>, i: nat, n: nat)
    requires forall j :: i <= j <= n ==> f(j).None?
    ensures FirstHit(f, i, n).None?
    decreases n - i
  {
    if i <= n {
      FirstHitNone(f, i + 1, n);
    }
  }

  // ---------------------------------------------------------------------
  // Facts used to evaluate the scanners on texts of a known shape

  /** A text a detector reports unchanged: one line, non-empty, trimmed. */
  predicate IsLineText(x: string) {
    x != "" && IsTrimmed(x) && LineFree(x)
  }

  lemma {:induction false} WsRunExact(s: string, i: nat, k: nat)
    requires i + k <= |s|
    requires forall j :: i <= j < i + k ==> IsWhitespace(s[j])
    requires i + k < |s| ==> !IsWhitespace(s[i + k])
    ensures WsRun(s, i) == k
    decreases k
  {
    if k > 0 {
      WsRunExact(s, i + 1, k - 1);
    }
  }

  lemma {:induction false} DigitRunExact(s: string, i: nat, k: nat)
    requires i + k <= |s| && forall j :: i <= j < i + k ==> IsDigit(s[j])
    requires i + k < |s| ==> !IsDigit(s[i + k])
    ensures DigitRun(s, i) == k
    decreases k
  {
    if k > 0 {
      DigitRunExact(s, i + 1, k - 1);
    }
  }

  /** The digits `d` written at `i` of `s`. */
  lemma DigitsAt(s: string, i: nat, d: string)
    requires IsAllDigits(d) && i + |d| <= |s| && s[i..i + |d|] == d
    ensures forall j :: i <= j < i + |d| ==> IsDigit(s[j])
  {
    forall j | i <= j < i + |d| ensures IsDigit(s[j]) {
      assert s[j] == d[j - i];
    }
  }

  /** One space and then a line text: `\s*(.+)$` and `\s+(.+)$` capture
      exactly that text. */
  lemma TailAfterSpace(s: string, i: nat, x: string, min: nat)
    requires min <= 1 && i < |s| && s[i] == ' ' && s[i + 1..] == x && IsLineText(x)
    ensures TailCapture(s, i, min) == Some(x)
  {
    assert s[i + 1] == x[0];
    WsRunExact(s, i, 1);
  }

  /** A text matches itself under `/i`. */
  lemma CiAtExact(s: string, i: nat, lit: string)
    requires i + |lit| <= |s| && s[i..i + |lit|] == lit
    ensures CiAt(s, i, lit)
  {
    assert forall k :: 0 <= k < |lit| ==> s[i + k] == lit[k];
  }
}
