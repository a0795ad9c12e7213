/**
 * GetExceptionHint: the message of an exception followed by the first
 * "file:line N" of its stack trace, found with the regular expression
 * `\\([^\\]*:line [0-9]+)` (a backslash, then a backslash-free run that
 * ends with ":line " and digits, the run and digits being group 1).
 *
 * The regular expression is modelled by its leftmost-match semantics: the
 * first backslash whose following backslash-free run holds a ":line N"
 * mark; the greedy `[^\\]*` backtracks from the end of the run, so the
 * group ends at the LAST mark of that run, and the greedy `[0-9]+` takes
 * every digit of it.
 */
module ExceptionHints {
  import opened Wrappers
  import opened Exceptions

  predicate IsDigit(c: char) {
    '0' <= c <= '9'
  }

  /** ":line " followed by a digit starts at index j. */
  predicate LineMarkAt(s: string, j: nat) {
    j + 7 <= |s| && s[j..j + 6] == ":line " && IsDigit(s[j + 6])
  }

  /** How many digits `[0-9]+` takes from index k on. */
  function DigitRun(s: string, k: nat): (n: nat)
    requires k <= |s|
    ensures k + n <= |s|
    ensures forall i :: k <= i < k + n ==> IsDigit(s[i])
    ensures k + n == |s| || !IsDigit(s[k + n])
    decreases |s| - k
  {
    if k < |s| && IsDigit(s[k]) then 1 + DigitRun(s, k + 1) else 0
  }

  /** Where the backslash-free run starting at k ends: the next backslash, or the end of s. */
  function RunEnd(s: string, k: nat): (e: nat)
    requires k <= |s|
    ensures k <= e <= |s|
    ensures forall i :: k <= i < e ==> s[i] != '\\'
    ensures e == |s| || s[e] == '\\'
    decreases |s| - k
  {
    if k == |s| || s[k] == '\\' then k else RunEnd(s, k + 1)
  }

  /** The last index in [lo, hi) where a mark starts, as the backtracking of `[^\\]*` finds it. */
  function LastMark(s: string, lo: nat, hi: nat): (r: Option<nat>)
    requires lo <= hi <= |s|
    ensures r.Some? ==> lo <= r.value < hi && LineMarkAt(s, r.value)
    ensures r.Some? ==> forall j :: r.value < j < hi ==> !LineMarkAt(s, j)
    ensures r.None? ==> forall j :: lo <= j < hi ==> !LineMarkAt(s, j)
    decreases hi - lo
  {
    if hi == lo then None
    else if LineMarkAt(s, hi - 1) then Some(hi - 1)
    else LastMark(s, lo, hi - 1)
  }

  /** The backslash at index i starts a match: the run after it holds a mark. */
  predicate StartsMatch(s: string, i: nat)
    requires i < |s|
  {
    s[i] == '\\' && LastMark(s, i + 1, RunEnd(s, i + 1)).Some?
  }

  /** Regex.Match's scan from index `from` on: the leftmost backslash that starts a match. */
  function FirstMatch(s: string, from: nat): (r: Option<nat>)
    requires from <= |s|
    ensures r.Some? ==> from <= r.value < |s| && StartsMatch(s, r.value)
    ensures r.Some? ==> forall k :: from <= k < r.value ==> !StartsMatch(s, k)
    ensures r.None? ==> forall k :: from <= k < |s| ==> !StartsMatch(s, k)
    decreases |s| - from
  {
    if from == |s| then None
    else if StartsMatch(s, from) then Some(from)
    else FirstMatch(s, from + 1)
  }

  /** Group 1 of the match at index i: the run after the backslash up to the end of the last mark's digits. */
  function Group(s: string, i: nat): string
    requires i < |s| && StartsMatch(s, i)
  {
    var j := LastMark(s, i + 1, RunEnd(s, i + 1)).value;
    s[i + 1..j + 6 + DigitRun(s, j + 6)]
  }

  /** Regex.Match(s, pattern): group 1 of the leftmost match, or None when the match fails. */
  function Match(s: string): Option<string> {
    match FirstMatch(s, 0)
    case None => None
    case Some(i) => Some(Group(s, i))
  }

  /** A backslash at i, a mark at j, and no backslash between them. */
  predicate MarkAfter(s: string, i: nat, j: nat) {
    i < j < |s| && s[i] == '\\' && LineMarkAt(s, j) && forall k :: i < k < j ==> s[k] != '\\'
  }

  /** A backslash followed by a backslash-free run that holds a mark starts a match. */
  lemma MarkStartsMatch(s: string, i: nat, j: nat)
    requires MarkAfter(s, i, j)
    ensures StartsMatch(s, i)
  {
    var e := RunEnd(s, i + 1);
    assert s[j] == s[j..j + 6][0];
    assert j < e;
  }

  /** A match at i comes from a mark after the backslash at i, the last one of its run. */
  lemma MarkOfMatch(s: string, i: nat) returns (j: nat)
    requires i < |s| && StartsMatch(s, i)
    ensures MarkAfter(s, i, j)
    ensures Group(s, i) == s[i + 1..j + 6 + DigitRun(s, j + 6)]
  {
    j := LastMark(s, i + 1, RunEnd(s, i + 1)).value;
  }

  /** The regex matches exactly when some backslash is followed by a backslash-free run holding ":line" and a digit. */
  lemma MatchIff(s: string)
    ensures Match(s).Some? <==> exists i, j :: MarkAfter(s, i, j)
  {
    if Match(s).Some? {
      var j := MarkOfMatch(s, FirstMatch(s, 0).value);
    } else if exists i, j :: MarkAfter(s, i, j) {
      var i, j :| MarkAfter(s, i, j);
      MarkStartsMatch(s, i, j);
      assert false;
    }
  }

  /** The match is the leftmost one: no backslash before it is followed by a mark in its run. */
  lemma MatchLeftmost(s: string, i': nat, j': nat)
    requires Match(s).Some? && MarkAfter(s, i', j')
    ensures FirstMatch(s, 0).value <= i'
  {
    MarkStartsMatch(s, i', j');
  }

  /** `g` ends with ":line " and the digits that run to its end. */
  predicate EndsWithLineNumber(g: string) {
    exists m: nat :: m < |g| && LineMarkAt(g, m) && forall k :: m + 6 <= k < |g| ==> IsDigit(g[k])
  }

  /** The matched group holds no backslash and ends with ":line " and the digits of the mark. */
  lemma MatchShape(s: string)
    requires Match(s).Some?
    ensures '\\' !in Match(s).value
    ensures EndsWithLineNumber(Match(s).value)
  {
    var i := FirstMatch(s, 0).value;
    var j := MarkOfMatch(s, i);
    var g := Match(s).value;
    var d := DigitRun(s, j + 6);
    GroupShape(s, i, j, g, d);
  }

  lemma GroupShape(s: string, i: nat, j: nat, g: string, d: nat)
    requires MarkAfter(s, i, j) && d == DigitRun(s, j + 6) && g == s[i + 1..j + 6 + d]
    ensures '\\' !in g
    ensures EndsWithLineNumber(g)
  {
    assert |g| - 6 - d == j - i - 1;
    assert g[j - i - 1..j - i + 5] == s[j..j + 6];
    assert g[j - i + 5] == s[j + 6];
    assert LineMarkAt(g, |g| - 6 - d);
    forall k | |g| - d <= k < |g| ensures IsDigit(g[k]) {
      assert g[k] == s[i + 1 + k];
    }
    forall k | 0 <= k < |g| ensures g[k] != '\\' {
      assert g[k] == s[i + 1 + k];
    }
  }

  /** A mark starts with its colon. */
  lemma MarkHasColon(s: string, j: nat)
    requires LineMarkAt(s, j)
    ensures s[j] == ':'
  {
    assert s[j] == s[j..j + 6][0];
  }

  /** The run ends at the first backslash. */
  lemma RunEndIs(s: string, k: nat, e: nat)
    requires k <= e <= |s|
    requires forall i :: k <= i < e ==> s[i] != '\\'
    requires e == |s| || s[e] == '\\'
    ensures RunEnd(s, k) == e
  {
  }

  /** A mark with no colon after it in the run is the last mark. */
  lemma LastMarkIs(s: string, lo: nat, hi: nat, m: nat)
    requires lo <= m < hi <= |s| && LineMarkAt(s, m)
    requires forall k :: m < k < hi ==> s[k] != ':'
    ensures LastMark(s, lo, hi) == Some(m)
  {
    var r := LastMark(s, lo, hi);
    if r.Some? && r.value > m {
      MarkHasColon(s, r.value);
    }
  }

  /** A run without a colon holds no mark. */
  lemma NoColonNoMark(s: string, lo: nat, hi: nat)
    requires lo <= hi <= |s|
    requires forall k :: lo <= k < hi ==> s[k] != ':'
    ensures LastMark(s, lo, hi) == None
  {
    var r := LastMark(s, lo, hi);
    if r.Some? {
      MarkHasColon(s, r.value);
    }
  }

  /** A match with none before it is the first. */
  lemma FirstMatchIs(s: string, i: nat)
    requires i < |s| && StartsMatch(s, i)
    requires forall k :: 0 <= k < i ==> !StartsMatch(s, k)
    ensures FirstMatch(s, 0) == Some(i)
  {
  }

  predicate AllDigits(d: string) {
    forall k :: 0 <= k < |d| ==> IsDigit(d[k])
  }

  /** With one backslash before p whose run to p has no colon, nothing before p starts a match. */
  lemma NoEarlyMatch(s: string, p0: nat, p: nat)
    requires p0 < p < |s| && s[p] == '\\'
    requires forall k :: 0 <= k < p && k != p0 ==> s[k] != '\\'
    requires forall k :: p0 < k < p ==> s[k] != ':'
    ensures forall k :: 0 <= k < p ==> !StartsMatch(s, k)
  {
    RunEndIs(s, p0 + 1, p);
    NoColonNoMark(s, p0 + 1, p);
  }

  /** `[0-9]+` stops at the first non-digit. */
  lemma DigitRunIs(s: string, k: nat, n: nat)
    requires k <= n <= |s|
    requires forall i :: k <= i < n ==> IsDigit(s[i])
    requires n == |s| || !IsDigit(s[n])
    ensures DigitRun(s, k) == n - k
    decreases n - k
  {
    if k < n {
      DigitRunIs(s, k + 1, n);
    }
  }

  /** The group of a backslash whose run holds exactly one mark, the run going on without digits after it. */
  lemma MatchAt(s: string, p: nat, j: nat, n: nat, q: nat)
    requires p < j && j + 7 <= n <= q <= |s| && s[p] == '\\'
    requires forall k :: p < k < q ==> s[k] != '\\'
    requires q == |s| || s[q] == '\\'
    requires LineMarkAt(s, j)
    requires forall k :: j < k < q ==> s[k] != ':'
    requires forall k :: j + 6 <= k < n ==> IsDigit(s[k])
    requires n == |s| || !IsDigit(s[n])
    ensures StartsMatch(s, p) && Group(s, p) == s[p + 1..n]
  {
    RunEndIs(s, p + 1, q);
    LastMarkIs(s, p + 1, q, j);
    DigitRunIs(s, j + 6, n);
  }
  lemma HeadFacts(s: string, a: string, b: string)
    requires '\\' !in a && '\\' !in b && ':' !in b
    requires |a| + |b| + 2 <= |s| && s[..|a| + |b| + 2] == a + "\\" + b + "\\"
    ensures s[|a|] == '\\' && s[|a| + 1 + |b|] == '\\'
    ensures forall k :: 0 <= k < |a| + 1 + |b| && k != |a| ==> s[k] != '\\'
    ensures forall k :: |a| < k < |a| + 1 + |b| ==> s[k] != ':'
  {
    var head := a + "\\" + b + "\\";
    assert forall k :: 0 <= k < |head| ==> s[k] == head[k];
    assert forall k :: 0 <= k < |a| ==> head[k] == a[k];
    assert forall k :: |a| < k < |a| + 1 + |b| ==> head[k] == b[k - |a| - 1];
  }

  lemma GroupFacts(s: string, p: nat, file: string, digits: string)
    requires '\\' !in file && ':' !in file && digits != [] && AllDigits(digits)
    requires p + 1 + |file| + 6 + |digits| <= |s|
    requires s[p + 1..p + 1 + |file| + 6 + |digits|] == file + ":line " + digits
    ensures forall k :: p < k < p + 1 + |file| + 6 + |digits| ==> s[k] != '\\'
    ensures LineMarkAt(s, p + 1 + |file|)
    ensures forall k :: p + 1 + |file| < k < p + 1 + |file| + 6 + |digits| ==> s[k] != ':'
    ensures forall k :: p + 1 + |file| + 6 <= k < p + 1 + |file| + 6 + |digits| ==> IsDigit(s[k])
  {
    var g := file + ":line " + digits;
    var j := p + 1 + |file|;
    assert forall k :: p < k < p + 1 + |g| ==> s[k] == g[k - p - 1];
    assert forall k :: 0 <= k < |file| ==> g[k] == file[k];
    assert g[|file|..|file| + 6] == ":line ";
    assert forall k :: |file| + 6 <= k < |g| ==> g[k] == digits[k - |file| - 6];
    assert s[j..j + 6] == g[|file|..|file| + 6];
  }

  lemma TailFacts(s: string, n: nat, r1: string, r2: string)
    requires '\\' !in r1 && ':' !in r1 && (r1 == [] || !IsDigit(r1[0]))
    requires n <= |s| && s[n..] == r1 + "\\" + r2
    ensures n + |r1| < |s| && s[n + |r1|] == '\\'
    ensures forall k :: n <= k < n + |r1| ==> s[k] != '\\' && s[k] != ':'
    ensures !IsDigit(s[n])
  {
    assert forall k :: n <= k < |s| ==> s[k] == s[n..][k - n];
    assert forall k :: 0 <= k < |r1| ==> (r1 + "\\" + r2)[k] == r1[k];
  }

  /**
   * The hint of a stack trace that starts with a frame whose path has no
   * ":line" and then a frame whose last path segment ends with ":line N"
   * names that segment and its line: "foobar:line 232" for
   * `Abba\Dabba\foobar:line 232` followed by further frames.
   */
  lemma HintNamesFirstFrame(a: string, b: string, file: string, digits: string, r1: string, r2: string)
    requires '\\' !in a && '\\' !in b && ':' !in b
    requires '\\' !in file && ':' !in file
    requires digits != [] && AllDigits(digits)
    requires '\\' !in r1 && ':' !in r1 && (r1 == [] || !IsDigit(r1[0]))
    ensures Match(a + "\\" + b + "\\" + file + ":line " + digits + r1 + "\\" + r2) == Some(file + ":line " + digits)
  {
    var head := a + "\\" + b + "\\";
    var g := file + ":line " + digits;
    var tail := r1 + "\\" + r2;
    var s := head + g + tail;
    assert s == a + "\\" + b + "\\" + file + ":line " + digits + r1 + "\\" + r2;
    var p0 := |a|;
    var p := |a| + 1 + |b|;
    var j := p + 1 + |file|;
    var n := |head| + |g|;
    var q := n + |r1|;
    assert |head| == p + 1 && n == j + 6 + |digits|;
    assert s[..p + 1] == head;
    assert s[p + 1..n] == g;
    assert s[n..] == tail;
    HeadFacts(s, a, b);
    GroupFacts(s, p, file, digits);
    TailFacts(s, n, r1, r2);
    NoEarlyMatch(s, p0, p);
    MatchAt(s, p, j, n, q);
    FirstMatchIs(s, p);
  }
  const UnknownLocation := " (Unknown location)"

  /** A group that ends with a line mark is not the text of the unknown location. */
  lemma GroupIsNotUnknown(g: string)
    requires EndsWithLineNumber(g)
    ensures " (" + g + ")" != UnknownLocation
  {
    var m: nat :| m < |g| && LineMarkAt(g, m) && forall k :: m + 6 <= k < |g| ==> IsDigit(g[k]);
    assert g[m] == g[m..m + 6][0] == ':';
    var loc := " (" + g + ")";
    assert loc[m + 2] == g[m];
    if |loc| == |UnknownLocation| {
      assert ':' !in UnknownLocation;
    }
  }

  /** The location part of the hint: " (group)" on a match, " (Unknown location)" otherwise; a null stack trace reads as "". */
  function Location(stackTrace: Option<string>): string {
    match Match(stackTrace.GetOr(""))
    case Some(g) => " (" + g + ")"
    case None => UnknownLocation
  }

  /** The location is parenthesised, and it is the unknown location exactly when no frame matches. */
  lemma LocationShape(stackTrace: Option<string>)
    ensures var loc := Location(stackTrace);
      |loc| >= 3 && loc[..2] == " (" && loc[|loc| - 1] == ')'
    ensures Location(stackTrace) == UnknownLocation <==> Match(stackTrace.GetOr("")).None?
  {
    if Match(stackTrace.GetOr("")).Some? {
      MatchShape(stackTrace.GetOr(""));
      GroupIsNotUnknown(Match(stackTrace.GetOr("")).value);
    }
  }

  const DebugHint := "Debug hint: "

  /** GetExceptionHint of ControllerHandlerBase and of the DotNetStandard LaunchPad. */
  function GetExceptionHint(e: Exception): string {
    DebugHint + e.Message + Location(e.StackTrace)
  }

  /**
   * Every hint is "Debug hint: " and the message, then a parenthesised
   * location; it ends with the unknown location exactly when no frame of
   * the stack trace matches.
   */
  lemma HintShape(e: Exception)
    ensures var hint := GetExceptionHint(e);
      |hint| >= |DebugHint + e.Message| + 3 && hint[..|DebugHint + e.Message|] == DebugHint + e.Message
      && hint[|DebugHint + e.Message|..|DebugHint + e.Message| + 2] == " (" && hint[|hint| - 1] == ')'
    ensures GetExceptionHint(e) == DebugHint + e.Message + UnknownLocation <==> Match(e.StackTrace.GetOr("")).None?
  {
    var head := DebugHint + e.Message;
    var loc := Location(e.StackTrace);
    LocationShape(e.StackTrace);
    assert (head + loc)[..|head|] == head;
    assert (head + loc)[|head|..] == loc;
    assert (head + loc)[|head|..|head| + 2] == loc[..2];
    if head + loc == head + UnknownLocation {
      assert loc == (head + UnknownLocation)[|head|..] == UnknownLocation;
    }
  }

  /** An exception whose stack trace runs through `...\\file:line N` names that frame in its hint. */
  lemma FrameHint(e: Exception, a: string, b: string, file: string, digits: string, r1: string, r2: string)
    requires '\\' !in a && '\\' !in b && ':' !in b && '\\' !in file && ':' !in file
    requires digits != [] && AllDigits(digits)
    requires '\\' !in r1 && ':' !in r1 && (r1 == [] || !IsDigit(r1[0]))
    requires e.StackTrace == Some(a + "\\" + b + "\\" + file + ":line " + digits + r1 + "\\" + r2)
    ensures GetExceptionHint(e) == "Debug hint: " + e.Message + " (" + file + ":line " + digits + ")"
  {
    var g := file + ":line " + digits;
    HintNamesFirstFrame(a, b, file, digits, r1, r2);
    assert Location(e.StackTrace) == " (" + g + ")";
    ParenthesisedFrame(DebugHint + e.Message, file, digits);
  }

  /** The hint's text regrouped: the head, then the parenthesised `file:line N`. */
  lemma ParenthesisedFrame(head: string, file: string, digits: string)
    ensures head + (" (" + (file + ":line " + digits) + ")") == head + " (" + file + ":line " + digits + ")"
  {
  }

  /** An exception with no stack trace gets the unknown location. */
  lemma NoStackTraceHint(e: Exception)
    requires e.StackTrace.None?
    ensures GetExceptionHint(e) == "Debug hint: " + e.Message + " (Unknown location)"
  {
    assert Match("").None?;
  }
}
