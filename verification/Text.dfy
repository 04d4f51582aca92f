/** The parts of Python's `str` the models rely on. */
module Text {
  /** Whitespace of `str.split()`. */
  predicate IsSpace(c: char) {
    || '\t' <= c <= '\r' || '\U{1c}' <= c <= ' ' || c == '\U{85}' || c == '\U{a0}' || c == '\U{1680}'
    || '\U{2000}' <= c <= '\U{200a}' || c == '\U{2028}' || c == '\U{2029}' || c == '\U{202f}'
    || c == '\U{205f}' || c == '\U{3000}'
  }

  /** Line boundaries of `str.splitlines()`; all of them are whitespace. */
  predicate IsLineBreak(c: char) {
    || '\n' <= c <= '\r' || '\U{1c}' <= c <= '\U{1e}' || c == '\U{85}' || c == '\U{2028}' || c == '\U{2029}'
  }

  function LeftStrip(t: string): string {
    if t != [] && IsSpace(t[0]) then LeftStrip(t[1..]) else t
  }

  function RightStrip(t: string): string {
    if t != [] && IsSpace(t[|t| - 1]) then RightStrip(t[..|t| - 1]) else t
  }

  /** `text.strip()` */
  function Strip(t: string): string {
    RightStrip(LeftStrip(t))
  }

  /** Stripping leaves nothing to strip. */
  lemma {:induction false} StripTwice(t: string)
    ensures Strip(Strip(t)) == Strip(t)
  {
    LeftStripFirst(t);
    RightStripEnds(LeftStrip(t));
    RightStripAgain(Strip(t));
  }

  lemma {:induction false} LeftStripFirst(t: string)
    ensures LeftStrip(t) != "" ==> !IsSpace(LeftStrip(t)[0])
    decreases |t|
  {
    if t != [] && IsSpace(t[0]) { LeftStripFirst(t[1..]); }
  }

  lemma {:induction false} RightStripEnds(t: string)
    ensures RightStrip(t) <= t
    ensures RightStrip(t) != "" ==> !IsSpace(RightStrip(t)[|RightStrip(t)| - 1])
    decreases |t|
  {
    if t != [] && IsSpace(t[|t| - 1]) { RightStripEnds(t[..|t| - 1]); }
  }

  lemma {:induction false} RightStripAgain(t: string)
    requires t == "" || (!IsSpace(t[0]) && !IsSpace(t[|t| - 1]))
    ensures Strip(t) == t
  {
  }

  function Concat(parts: seq<string>): string {
    if parts == [] then "" else parts[0] + Concat(parts[1..])
  }

  lemma {:induction false} ConcatAppend(a: seq<string>, b: seq<string>)
    ensures Concat(a + b) == Concat(a) + Concat(b)
    decreases |a|
  {
    if a == [] {
      assert a + b == b;
    } else {
      assert (a + b)[1..] == a[1..] + b;
      ConcatAppend(a[1..], b);
    }
  }

  // ---------- words ----------

  ghost predicate Word(w: string) {
    w != [] && forall i :: 0 <= i < |w| ==> !IsSpace(w[i])
  }

  function WordEnd(l: string): (k: nat)
    ensures k <= |l|
    ensures forall i :: 0 <= i < k ==> !IsSpace(l[i])
    ensures k < |l| ==> IsSpace(l[k])
  {
    if l == [] || IsSpace(l[0]) then 0 else 1 + WordEnd(l[1..])
  }

  /** `line.split()` */
  function Split(l: string): seq<string>
    decreases |l|
  {
    if l == [] then []
    else if IsSpace(l[0]) then Split(l[1..])
    else [l[..WordEnd(l)]] + Split(l[WordEnd(l)..])
  }

  lemma {:induction false} SplitWord(w: string, rest: string)
    requires Word(w)
    ensures Split(w + " " + rest) == [w] + Split(rest)
  {
    var l := w + " " + rest;
    FirstWordEnds(w, rest);
    assert l[0] == w[0] && l[..|w|] == w && l[|w|..] == " " + rest;
    assert Split(" " + rest) == Split(rest) by { assert (" " + rest)[1..] == rest; }
  }

  lemma {:induction false} FirstWordEnds(w: string, rest: string)
    requires Word(w)
    ensures WordEnd(w + " " + rest) == |w|
  {
    var l := w + " " + rest;
    assert l[|w|] == ' ';
    assert forall i :: 0 <= i < |w| ==> l[i] == w[i];
  }

  lemma {:induction false} SplitNext(w: string, rest: string, fields: seq<string>)
    requires Word(w) && Split(rest) == fields
    ensures Split(w + " " + rest) == [w] + fields
  {
    SplitWord(w, rest);
  }

  lemma {:induction false} SplitLast(w: string)
    requires Word(w)
    ensures Split(w) == [w]
  {
    assert WordEnd(w) == |w|;
    assert w[..|w|] == w && w[|w|..] == [];
  }

  lemma {:induction false} SpaceSplits(c: char, t: string)
    requires IsSpace(c)
    ensures Split([c] + t) == Split(t)
  {
    assert ([c] + t)[1..] == t;
  }

  /** A word that nothing or a space follows. */
  lemma {:induction false} WordThenRest(w: string, rest: string)
    requires Word(w) && (rest != "" ==> IsSpace(rest[0]))
    ensures Split(w + rest) == [w] + Split(rest)
  {
    var l := w + rest;
    assert forall i :: 0 <= i < |w| ==> l[i] == w[i];
    assert WordEnd(l) == |w| by {
      if rest != "" { assert l[|w|] == rest[0]; }
    }
    assert l[..|w|] == w && l[|w|..] == rest;
  }

  lemma {:induction false} WordIsFirst(t: string)
    requires t != "" && !IsSpace(t[0])
    ensures var k := WordEnd(t); 0 < k && Word(t[..k]) && (t[k..] != "" ==> IsSpace(t[k..][0])) && t == t[..k] + t[k..]
  {
  }

  /** A space between two texts keeps their words apart. */
  lemma {:induction false} SplitApart(a: string, c: char, b: string)
    requires IsSpace(c)
    ensures Split(a + [c] + b) == Split(a) + Split(b)
    decreases |a|
  {
    if a == "" {
      assert "" + [c] + b == [c] + b;
      SpaceSplits(c, b);
    } else if IsSpace(a[0]) {
      assert (a + [c] + b)[1..] == a[1..] + [c] + b;
      SplitApart(a[1..], c, b);
    } else {
      var w, rest := a[..WordEnd(a)], a[WordEnd(a)..];
      WordIsFirst(a);
      SplitApart(rest, c, b);
      LongerRest(rest, c, b);
      WordApart(w, rest, rest + [c] + b, Split(b));
      Regrouped(w, rest, [c], b);
    }
  }

  lemma {:induction false} LongerRest(rest: string, c: char, b: string)
    requires (rest != "" ==> IsSpace(rest[0])) && IsSpace(c)
    ensures IsSpace((rest + [c] + b)[0])
  {
  }

  lemma {:induction false} Regrouped(w: string, rest: string, c: string, b: string)
    ensures w + rest + c + b == w + (rest + c + b)
  {
  }

  lemma {:induction false} WordApart(w: string, rest: string, t: string, tail: seq<string>)
    requires Word(w) && (rest != "" ==> IsSpace(rest[0])) && (t != "" ==> IsSpace(t[0]))
    requires Split(t) == Split(rest) + tail
    ensures Split(w + t) == Split(w + rest) + tail
  {
    WordThenRest(w, rest);
    WordThenRest(w, t);
  }

  /** What stripping leaves: the part from the first character that is not space to the last one. */
  lemma {:induction false} StripMeaning(t: string)
    ensures exists i, j :: 0 <= i <= j <= |t| && StripsTo(t, i, j)
  {
    var i := LeftSpaces(t);
    RightSpaces(LeftStrip(t));
    LeftStripFirst(t);
    RightStripEnds(LeftStrip(t));
    assert StripsTo(t, i, i + |Strip(t)|);
  }

  /** t[i..j] is what is left, and only space was cut off. */
  ghost predicate StripsTo(t: string, i: nat, j: nat)
    requires i <= j <= |t|
  {
    && Strip(t) == t[i..j]
    && (forall k :: 0 <= k < |t| && !(i <= k < j) ==> IsSpace(t[k]))
    && (i < j ==> !IsSpace(t[i]) && !IsSpace(t[j - 1]))
  }

  lemma {:induction false} LeftSpaces(t: string) returns (i: nat)
    ensures i <= |t| && LeftStrip(t) == t[i..] && forall k :: 0 <= k < i ==> IsSpace(t[k])
    decreases |t|
  {
    i := 0;
    if t != [] && IsSpace(t[0]) {
      var j := LeftSpaces(t[1..]);
      assert forall k :: 1 <= k < j + 1 ==> t[k] == t[1..][k - 1];
      i := j + 1;
    }
  }

  lemma {:induction false} RightSpaces(t: string)
    ensures var r := RightStrip(t); |r| <= |t| && r == t[..|r|] && forall k :: |r| <= k < |t| ==> IsSpace(t[k])
    decreases |t|
  {
    if t != [] && IsSpace(t[|t| - 1]) { RightSpaces(t[..|t| - 1]); }
  }
}
