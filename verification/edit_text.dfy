/**
 * Pure string operations behind the orchestrator's edit context and its
 * training-text buffer: keeping a trailing window, deleting from the tail
 * with the standard library's unsigned size arithmetic, the partial flush,
 * and the trailing-window comparison that decides whether an externally set
 * context is a real change.
 */
module EditText {

  /** The edit context is trimmed to this many characters on insert. */
  const ContextLimit: nat := 20

  /** Number of trailing characters compared when a new context is set. */
  const ContextWindow: nat := 6

  /** Number of characters a partial flush writes out. */
  const PartialFlushSize: nat := 100

  /** std::string::size_type arithmetic is modulo 2^64. */
  const SizeModulus: nat := 0x1_0000_0000_0000_0000

  /** The last `n` characters of `s`, or all of `s` when it is shorter:
      both `s.substr(s.size() - n)` after a length check and
      `s.substr(max(s.size() - n, 0))` compute this. */
  function Suffix(s: string, n: nat): (r: string)
    ensures |r| == if |s| < n then |s| else n
    ensures s == s[..|s| - |r|] + r
  {
    if |s| <= n then s else s[|s| - n..]
  }

  /** `s.substr(0, count)`: a count beyond the end stops at the end. */
  function Prefix(s: string, count: nat): (r: string)
    ensures |r| == if count < |s| then count else |s|
    ensures s == r + s[|r|..]
  {
    if count < |s| then s[..count] else s
  }

  /** Unsigned subtraction of two sizes, wrapping around below zero. */
  function SizeSub(a: nat, b: nat): (r: nat)
    ensures r < SizeModulus
    ensures b <= a < SizeModulus ==> r == a - b
    ensures a < b <= SizeModulus ==> r == a - b + SizeModulus
  {
    (a - b) % SizeModulus
  }

  /** `s.substr(0, s.size() - n)` exactly as written, wrap-around included. */
  function DeleteTail(s: string, n: nat): (r: string)
    ensures |r| <= |s| && s == r + s[|r|..]
  {
    Prefix(s, SizeSub(|s|, n))
  }

  /** Deleting at most the whole string drops exactly the last `n`
      characters; deleting more wraps the unsigned length round to a huge
      count, and `substr` then returns the string unchanged. */
  lemma DeleteTailSpec(s: string, n: nat)
    requires |s| < SizeModulus && n < SizeModulus
    ensures n <= |s| ==> DeleteTail(s, n) == s[..|s| - n]
    ensures n > |s| ==> DeleteTail(s, n) == s
  {
    if n <= |s| {
      assert SizeSub(|s|, n) == |s| - n;
    } else {
      assert |s| - n + SizeModulus >= 0;
      assert SizeSub(|s|, n) == |s| - n + SizeModulus;
      assert SizeSub(|s|, n) >= |s|;
    }
  }

  /** Deleting what was just appended restores the string. */
  lemma DeleteUndoesAppend(s: string, t: string)
    requires |s + t| < SizeModulus
    ensures DeleteTail(s + t, |t|) == s
  {
    DeleteTailSpec(s + t, |t|);
    assert (s + t)[..|s|] == s;
  }

  /** The context after an insert edit: the last `ContextLimit` characters
      of the old context followed by the inserted text. */
  function InsertIntoContext(context: string, text: string): (r: string)
    ensures |r| == if |context + text| < ContextLimit then |context + text| else ContextLimit
    ensures |context + text| <= ContextLimit ==> r == context + text
    ensures |text| <= ContextLimit ==> r[|r| - |text|..] == text
    ensures context + text == (context + text)[..|context + text| - |r|] + r
  {
    var whole := context + text;
    var r := Suffix(whole, ContextLimit);
    assert |text| <= |r| ==> r[|r| - |text|..] == whole[|whole| - |text|..];
    r
  }

  /** While the context has not been trimmed, deleting the inserted text
      restores the old context. */
  lemma ContextInsertDeleteRoundTrip(context: string, text: string)
    requires |context + text| <= ContextLimit
    ensures DeleteTail(InsertIntoContext(context, text), |text|) == context
  {
    DeleteUndoesAppend(context, text);
  }

  /** A partial flush: the first `PartialFlushSize` characters are written,
      the rest stay buffered. */
  function PartialFlush(buffer: string): (r: (string, string))
    requires |buffer| >= PartialFlushSize
    ensures |r.0| == PartialFlushSize
    ensures r.0 + r.1 == buffer
  {
    (buffer[..PartialFlushSize], buffer[PartialFlushSize..])
  }

  /** The orchestrator treats a newly set context as a change exactly when
      its trailing window differs from the current one's. */
  predicate ContextChanged(current: string, proposed: string)
    ensures ContextChanged(current, proposed) ==> current != proposed
  {
    Suffix(proposed, ContextWindow) != Suffix(current, ContextWindow)
  }

  /** Contexts no longer than the window are compared in full. */
  lemma ShortContextsCompareWhole(current: string, proposed: string)
    requires |current| <= ContextWindow && |proposed| <= ContextWindow
    ensures ContextChanged(current, proposed) <==> current != proposed
  {
  }

  /** Two contexts that end in the same window are never a change, however
      much they differ before it (the known approximation of the policy). */
  lemma {:induction false} SameWindowIsNoChange(p: string, q: string, w: string)
    requires |w| == ContextWindow
    ensures !ContextChanged(p + w, q + w)
  {
    assert (p + w)[|p + w| - ContextWindow..] == w;
    assert (q + w)[|q + w| - ContextWindow..] == w;
  }

  /** Conversely, a difference at any position inside the window of two
      equally long contexts is always detected. */
  lemma DifferenceInWindowIsChange(current: string, proposed: string, i: nat)
    requires |current| == |proposed|
    requires |current| - ContextWindow <= i < |current|
    requires current[i] != proposed[i]
    ensures ContextChanged(current, proposed)
  {
    var k := i - (|current| - |Suffix(current, ContextWindow)|);
    assert Suffix(current, ContextWindow)[k] == current[i];
    assert Suffix(proposed, ContextWindow)[k] == proposed[i];
  }

  /** A concrete instance of the approximation: changing the first letter
      of a seven-letter context goes unnoticed. */
  lemma EarlyEditIsMissed()
    ensures !ContextChanged("abcdefg", "Xbcdefg")
  {
    SameWindowIsNoChange("a", "X", "bcdefg");
    assert "a" + "bcdefg" == "abcdefg";
    assert "X" + "bcdefg" == "Xbcdefg";
  }
}
