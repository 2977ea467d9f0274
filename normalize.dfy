/**
 * The JavaScript surface the synth accepts before compiling: the text
 * after the first `return` up to the next `;` (or the whole input when
 * there is no `return`), trimmed of white space, with every `Math.`
 * deleted so that `Math.sin(t)` reaches the compiler as `sin(t)`.
 */
module Normalize {
  import opened Wrappers
  import opened Lexical

  // ---------------------------------------------------------------------
  // Trimming (`str_trim_copy`)
  // ---------------------------------------------------------------------

  /** The start of the run of white space that ends at `j`, never below `i`. */
  function SpaceStart(s: string, i: nat, j: nat): (r: nat)
    requires i <= j <= |s|
    ensures i <= r <= j
    ensures forall k :: r <= k < j ==> IsSpace(s[k])
    ensures i < r ==> !IsSpace(s[r - 1])
    decreases j
  {
    if i < j && IsSpace(s[j - 1]) then SpaceStart(s, i, j - 1) else j
  }

  /** `s` without white space at either end. */
  function Trim(s: string): string {
    var a := SpaceEnd(s, 0);
    s[a..SpaceStart(s, a, |s|)]
  }

  /**
   * The trimmed text is the slice `s[a..b]` that remains when the white
   * space at both ends is cut off: everything outside it is white space
   * and it neither starts nor ends with white space.
   */
  lemma TrimSlice(s: string) returns (a: nat, b: nat)
    ensures a <= b <= |s| && Trim(s) == s[a..b]
    ensures forall k :: 0 <= k < a ==> IsSpace(s[k])
    ensures forall k :: b <= k < |s| ==> IsSpace(s[k])
    ensures a < b ==> !IsSpace(s[a]) && !IsSpace(s[b - 1])
  {
    a := SpaceEnd(s, 0);
    b := SpaceStart(s, a, |s|);
  }

  /** Text that neither starts nor ends with white space is its own trim. */
  lemma TrimKeeps(s: string)
    requires s != [] ==> !IsSpace(s[0]) && !IsSpace(s[|s| - 1])
    ensures Trim(s) == s
  {
    assert SpaceEnd(s, 0) == 0;
    assert SpaceStart(s, 0, |s|) == |s|;
  }

  /** Trimming twice changes nothing. */
  lemma TrimIdempotent(s: string)
    ensures Trim(Trim(s)) == Trim(s)
  {
    var a, b := TrimSlice(s);
    TrimKeeps(s[a..b]);
  }

  /**
   * `str_trim_copy`: step past the leading white space, then shorten the
   * length past the trailing white space, then copy what is left.
   */
  method TrimCopy(s: string) returns (out: string)
    ensures out == Trim(s)
  {
    var i := 0;
    while i < |s| && IsSpace(s[i])
      invariant 0 <= i <= |s|
      invariant SpaceEnd(s, i) == SpaceEnd(s, 0)
      decreases |s| - i
    {
      i := i + 1;
    }
    var len := |s| - i;
    while len > 0 && IsSpace(s[i + len - 1])
      invariant 0 <= len <= |s| - i
      invariant SpaceStart(s, i, i + len) == SpaceStart(s, i, |s|)
      decreases len
    {
      len := len - 1;
    }
    out := s[i..i + len];
  }

  // ---------------------------------------------------------------------
  // Finding the expression (`extract_js_expr`)
  // ---------------------------------------------------------------------

  /** The first position at or after `from` where `w` occurs in `s` (`strstr`, `strchr`). */
  function Find(s: string, w: string, from: nat): (r: Option<nat>)
    requires from <= |s|
    ensures r.Some? ==> from <= r.value && StartsAt(s, r.value, w)
    ensures r.Some? ==> forall j :: from <= j < r.value ==> !StartsAt(s, j, w)
    ensures r.None? ==> forall j :: from <= j <= |s| ==> !StartsAt(s, j, w)
    decreases |s| - from
  {
    if StartsAt(s, from, w) then Some(from)
    else if from == |s| then None
    else Find(s, w, from + 1)
  }

  /** Where the expression after the first `return` starts, white space skipped. */
  function BodyStart(js: string, k: nat): nat
    requires k + 6 <= |js|
  {
    SpaceEnd(js, k + 6)
  }

  /** Where that expression ends: at the next `;`, or at the end of the input. */
  function BodyEnd(js: string, p: nat): (e: nat)
    requires p <= |js|
    ensures p <= e <= |js|
  {
    match Find(js, ";", p)
    case Some(e) => e
    case None => |js|
  }

  /**
   * The expression of a JavaScript snippet: the text after the first
   * `return` up to the next `;`, or the whole snippet when there is no
   * `return`, trimmed at both ends.
   */
  function ExtractJs(js: string): string {
    match Find(js, "return", 0)
    case None => Trim(js)
    case Some(k) =>
      var p := BodyStart(js, k);
      Trim(js[p..BodyEnd(js, p)])
  }

  /** `extract_js_expr`. */
  method ExtractJsExpr(js: string) returns (r: string)
    ensures r == ExtractJs(js)
  {
    var found := Find(js, "return", 0);
    if found.Some? {
      var p := found.value + 6;
      while p < |js| && IsSpace(js[p])
        invariant found.value + 6 <= p <= |js|
        invariant SpaceEnd(js, p) == BodyStart(js, found.value)
        decreases |js| - p
      {
        p := p + 1;
      }
      var semi := Find(js, ";", p);
      var end := if semi.Some? then semi.value else |js|;
      r := TrimCopy(js[p..end]);
      return;
    }
    r := TrimCopy(js);
  }

  /** `;` at `k` is the one-character string ";" there. */
  lemma SemicolonAt(s: string, k: nat)
    requires k < |s|
    ensures StartsAt(s, k, ";") == (s[k] == ';')
  {
    assert k + 1 <= |s|;
    assert s[k..k + 1] == [s[k]];
  }

  /**
   * After a `return` the expression holds no `;`: it stops at the first
   * one.  It is a slice of the snippet after the `return`, and it neither
   * starts nor ends with white space.
   */
  lemma ExtractAfterReturn(js: string, k: nat) returns (a: nat, b: nat)
    requires Find(js, "return", 0) == Some(k)
    ensures k + 6 <= a <= b <= |js| && ExtractJs(js) == js[a..b]
    ensures forall n :: a <= n < b ==> js[n] != ';'
  {
    var p := BodyStart(js, k);
    var e := BodyEnd(js, p);
    var t := js[p..e];
    var a0, b0 := TrimSlice(t);
    a, b := p + a0, p + b0;
    assert ExtractJs(js) == t[a0..b0];
    assert t[a0..b0] == js[a..b];
    NoSemicolonBeforeEnd(js, p);
  }

  /** No `;` lies between `p` and the end `BodyEnd` finds. */
  lemma NoSemicolonBeforeEnd(js: string, p: nat)
    requires p <= |js|
    ensures forall n :: p <= n < BodyEnd(js, p) ==> js[n] != ';'
  {
    forall n | p <= n < BodyEnd(js, p)
      ensures js[n] != ';'
    {
      SemicolonAt(js, n);
    }
  }

  /** Without a `return` the whole snippet is the expression, trimmed. */
  lemma ExtractWithoutReturn(js: string)
    requires forall j :: 0 <= j <= |js| ==> !StartsAt(js, j, "return")
    ensures ExtractJs(js) == Trim(js)
  {
  }

  /** The expression never starts or ends with white space, so extracting it again keeps it. */
  lemma ExtractTrimmed(js: string)
    ensures var r := ExtractJs(js); r != [] ==> !IsSpace(r[0]) && !IsSpace(r[|r| - 1])
  {
    match Find(js, "return", 0)
    case None =>
      TrimEdges(js);
    case Some(k) =>
      var p := BodyStart(js, k);
      TrimEdges(js[p..BodyEnd(js, p)]);
  }

  /** Trimmed text neither starts nor ends with white space. */
  lemma TrimEdges(s: string)
    ensures var r := Trim(s); r != [] ==> !IsSpace(r[0]) && !IsSpace(r[|r| - 1])
  {
    var a, b := TrimSlice(s);
    if a < b {
      assert Trim(s)[0] == s[a] && Trim(s)[b - a - 1] == s[b - 1];
    }
  }

  // ---------------------------------------------------------------------
  // Deleting `Math.` (`transpile_js_to_c`)
  // ---------------------------------------------------------------------

  const MathPrefix: string := "Math."

  /** `s[i..]` with every `Math.` found scanning left to right deleted. */
  function StripFrom(s: string, i: nat): string
    requires i <= |s|
    decreases |s| - i
  {
    if i == |s| then []
    else if StartsAt(s, i, MathPrefix) then StripFrom(s, i + 5)
    else [s[i]] + StripFrom(s, i + 1)
  }

  /** `s` with every `Math.` deleted. */
  function StripMath(s: string): string {
    StripFrom(s, 0)
  }

  /** Deleting never lengthens the text. */
  lemma {:induction false} StripFromShorter(s: string, i: nat)
    requires i <= |s|
    ensures |StripFrom(s, i)| <= |s| - i
    decreases |s| - i
  {
    if i == |s| {
    } else if StartsAt(s, i, MathPrefix) {
      StripFromShorter(s, i + 5);
    } else {
      StripFromShorter(s, i + 1);
    }
  }

  /** Every character kept comes from the input. */
  lemma {:induction false} StripFromChars(s: string, i: nat)
    requires i <= |s|
    ensures multiset(StripFrom(s, i)) <= multiset(s[i..])
    decreases |s| - i
  {
    if i == |s| {
    } else if StartsAt(s, i, MathPrefix) {
      StripFromChars(s, i + 5);
      SuffixWithin(s, i, i + 5);
    } else {
      StripFromChars(s, i + 1);
      assert s[i..] == [s[i]] + s[i + 1..];
    }
  }

  /** A later suffix holds no character an earlier one lacks. */
  lemma SuffixWithin(s: string, i: nat, j: nat)
    requires i <= j <= |s|
    ensures multiset(s[j..]) <= multiset(s[i..])
  {
    assert s[i..] == s[i..j] + s[j..];
  }

  /** Text with no `Math.` in it goes through unchanged. */
  lemma {:induction false} StripFromKeeps(s: string, i: nat)
    requires i <= |s|
    requires forall j :: i <= j <= |s| ==> !StartsAt(s, j, MathPrefix)
    ensures StripFrom(s, i) == s[i..]
    decreases |s| - i
  {
    if i < |s| {
      StripFromKeeps(s, i + 1);
      assert s[i..] == [s[i]] + s[i + 1..];
    }
  }

  /** A deleted `Math.` leaves nothing behind: the output is that of the rest. */
  lemma StripMathSkips(s: string, i: nat)
    requires i + 5 <= |s| && StartsAt(s, i, MathPrefix)
    ensures StripFrom(s, i) == StripFrom(s, i + 5)
  {
  }

  /** The whole-text versions of the facts above. */
  lemma StripMathFacts(s: string)
    ensures |StripMath(s)| <= |s| && multiset(StripMath(s)) <= multiset(s)
    ensures (forall j :: 0 <= j <= |s| ==> !StartsAt(s, j, MathPrefix)) ==> StripMath(s) == s
  {
    StripFromShorter(s, 0);
    StripFromChars(s, 0);
    assert s[0..] == s;
    if forall j :: 0 <= j <= |s| ==> !StartsAt(s, j, MathPrefix) {
      StripFromKeeps(s, 0);
    }
  }

  /** `Math.sin(t)` reaches the compiler as `sin(t)`. */
  lemma StripMathExample()
    ensures StripMath("Math.sin(t)") == "sin(t)"
  {
    var s := "Math.sin(t)";
    assert StartsAt(s, 0, MathPrefix);
    forall j | 5 <= j <= |s|
      ensures !StartsAt(s, j, MathPrefix)
    {
      if j + 5 <= |s| {
        assert s[j..j + 5][0] == s[j] != 'M';
      }
    }
    StripFromKeeps(s, 5);
  }

  /** The text handed to the compiler for a snippet `js`. */
  function JsToC(js: string): string {
    StripMath(ExtractJs(js))
  }

  /** Two equal characters that are not `M` are copied as a pair. */
  lemma StripPair(s: string, i: nat)
    requires i + 2 <= |s| && s[i] == s[i + 1] && s[i] != 'M'
    ensures StripFrom(s, i) == s[i..i + 2] + StripFrom(s, i + 2)
  {
    assert !StartsAt(s, i, MathPrefix);
    assert !StartsAt(s, i + 1, MathPrefix);
  }

  /** A character that does not start `Math.` is copied. */
  lemma StripCopies(s: string, i: nat)
    requires i < |s| && !StartsAt(s, i, MathPrefix)
    ensures StripFrom(s, i) == [s[i]] + StripFrom(s, i + 1)
  {
  }

  /** Appending `x` to the output consumes what `x` stood for in the input. */
  lemma Shift(out: string, x: string, rest: string, whole: string)
    requires out + (x + rest) == whole
    ensures (out + x) + rest == whole
  {
  }

  /**
   * `transpile_js_to_c`: extract the expression, then copy it character by
   * character, skipping every `Math.` and copying `||` and `&&` as pairs.
   */
  method TranspileJsToC(js: string) returns (out: string)
    ensures out == JsToC(js)
  {
    var e := ExtractJsExpr(js);
    var i := 0;
    out := [];
    while i < |e|
      invariant 0 <= i <= |e|
      invariant out + StripFrom(e, i) == StripMath(e)
      decreases |e| - i
    {
      if StartsAt(e, i, MathPrefix) {
        i := i + 5;
      } else if e[i] == '|' && i + 1 < |e| && e[i + 1] == '|' {
        StripPair(e, i);
        assert e[i..i + 2] == "||";
        Shift(out, "||", StripFrom(e, i + 2), StripMath(e));
        out := out + "||";
        i := i + 2;
      } else if e[i] == '&' && i + 1 < |e| && e[i + 1] == '&' {
        StripPair(e, i);
        assert e[i..i + 2] == "&&";
        Shift(out, "&&", StripFrom(e, i + 2), StripMath(e));
        out := out + "&&";
        i := i + 2;
      } else {
        StripCopies(e, i);
        Shift(out, [e[i]], StripFrom(e, i + 1), StripMath(e));
        out := out + [e[i]];
        i := i + 1;
      }
    }
  }

  /** The compiler never receives more text than the snippet holds. */
  lemma JsToCShrinks(js: string)
    ensures |JsToC(js)| <= |js|
  {
    StripMathFacts(ExtractJs(js));
    match Find(js, "return", 0)
    case None =>
      var a, b := TrimSlice(js);
    case Some(k) =>
      var a, b := ExtractAfterReturn(js, k);
  }
}
