/**
 splitUtf8 (src/data_stream.cpp): what it cuts, and exactly when it cuts inside a character.
 */
module SplitUtf8 {
  import opened Common

  /** (b & 0xC0) == 0x80 */
  predicate IsContinuation(b: Byte) { 0x80 <= b < 0xC0 }

  function Min(a: nat, b: nat): nat { if a <= b then a else b }

  // ---------------------------------------------------------------- the cuts, as a function

  /** First inner loop: from `end`, walk back to a byte that is not a continuation byte. */
  function WalkBack(s: Bytes, i: nat, end: nat): (r: nat)
    requires i <= end < |s|
    ensures i <= r <= end
    ensures r > i ==> !IsContinuation(s[r])
    ensures forall k | r < k <= end :: IsContinuation(s[k])
    decreases end - i
  {
    if end > i && IsContinuation(s[end]) then WalkBack(s, i, end - 1) else end
  }

  /** The end of the piece that starts at `i`. */
  function NextCut(s: Bytes, i: nat, maxBytes: nat): (cut: nat)
    requires i < |s| && maxBytes >= 1
    ensures i < cut <= |s| && cut - i <= maxBytes
  {
    var window := Min(i + maxBytes, |s|);
    var back :=
      if window < |s| then WalkBack(s, i, window)
      else if IsContinuation(s[|s| - 1]) then |s| - 1
      else |s|;
    if back == i then window else back
  }

  /** The positions at which the text is cut, the last one being its end. */
  function Cuts(s: Bytes, i: nat, maxBytes: nat): seq<nat>
    requires i <= |s| && maxBytes >= 1
    decreases |s| - i
  {
    if i == |s| then [] else [NextCut(s, i, maxBytes)] + Cuts(s, NextCut(s, i, maxBytes), maxBytes)
  }

  function Pieces(s: Bytes, i: nat, maxBytes: nat): seq<Bytes>
    requires i <= |s| && maxBytes >= 1
    decreases |s| - i
  {
    if i == |s| then [] else
      var cut := NextCut(s, i, maxBytes);
      [s[i..cut]] + Pieces(s, cut, maxBytes)
  }

  function SplitText(s: Bytes, maxBytes: nat): seq<Bytes>
    requires maxBytes >= 1
  {
    Pieces(s, 0, maxBytes)
  }

  lemma {:induction false} PiecesUnfoldBack(s: Bytes, maxBytes: nat, done: seq<Bytes>, i: nat)
    requires i < |s| && maxBytes >= 1 && done + Pieces(s, i, maxBytes) == SplitText(s, maxBytes)
    ensures var cut := NextCut(s, i, maxBytes);
            done + [s[i..cut]] + Pieces(s, cut, maxBytes) == SplitText(s, maxBytes)
  {
    var cut := NextCut(s, i, maxBytes);
    assert done + ([s[i..cut]] + Pieces(s, cut, maxBytes)) == done + [s[i..cut]] + Pieces(s, cut, maxBytes);
  }

  // ---------------------------------------------------------------- the loop

  /** The source's three nested loops; its caller fixes maxBytes at 15000. */
  method Split(s: Bytes, maxBytes: nat) returns (result: seq<Bytes>)
    requires maxBytes >= 1
    ensures result == SplitText(s, maxBytes)
  {
    result := [];
    if s == [] {
      return;
    }
    var i, n := 0, |s|;
    while i < n
      invariant i <= n && result + Pieces(s, i, maxBytes) == SplitText(s, maxBytes)
      decreases n - i
    {
      var window := if i + maxBytes <= n then i + maxBytes else n;
      var end := window;
      while end > i && end < n && IsContinuation(s[end])
        invariant i <= end <= window
        invariant window < n ==> WalkBack(s, i, end) == WalkBack(s, i, window)
        invariant window == n ==> end == n
        decreases end
      {
        end := end - 1;
      }
      while end > i && end == n && IsContinuation(s[end - 1])
        invariant i <= end <= window
        invariant window < n ==> end == WalkBack(s, i, window)
        invariant window == n ==> end == n || (end == n - 1 && IsContinuation(s[n - 1]))
        decreases end
      {
        end := end - 1;
      }
      if end == i {
        end := if i + maxBytes <= n then i + maxBytes else n;
      }
      assert end == NextCut(s, i, maxBytes);
      PiecesUnfoldBack(s, maxBytes, result, i);
      result := result + [s[i..end]];
      i := end;
    }
    assert result + [] == result;
  }

  // ---------------------------------------------------------------- nothing is lost, no piece is too long

  lemma {:induction false} PiecesCover(s: Bytes, i: nat, maxBytes: nat)
    requires i <= |s| && maxBytes >= 1
    ensures Concat(Pieces(s, i, maxBytes)) == s[i..]
    ensures forall p | p in Pieces(s, i, maxBytes) :: 0 < |p| <= maxBytes
    decreases |s| - i
  {
    hide NextCut;
    if i < |s| {
      var cut := NextCut(s, i, maxBytes);
      PiecesCover(s, cut, maxBytes);
      var rest := Pieces(s, cut, maxBytes);
      assert Pieces(s, i, maxBytes) == [s[i..cut]] + rest && ([s[i..cut]] + rest)[1..] == rest;
      assert s[i..] == s[i..cut] + s[cut..];
    }
  }

  /** For any bytes at all: non-empty pieces of at most `maxBytes` bytes whose concatenation is the text. */
  lemma SplitCovers(s: Bytes, maxBytes: nat)
    requires maxBytes >= 1
    ensures Concat(SplitText(s, maxBytes)) == s
    ensures forall p | p in SplitText(s, maxBytes) :: 0 < |p| <= maxBytes
  {
    PiecesCover(s, 0, maxBytes);
  }

  // ---------------------------------------------------------------- well-formed UTF-8 (RFC 3629, sections 3 and 4)

  /** Length of the character that starts at `i`, or 0 if none of the syntax's forms matches there. */
  function CharLength(s: Bytes, i: nat): (len: nat)
    requires i < |s|
    ensures len <= 4 && i + len <= |s|
    ensures len > 0 ==> !IsContinuation(s[i]) && forall k | i < k < i + len :: IsContinuation(s[k])
  {
    var b, left := s[i], |s| - i;
    if b < 0x80 then 1
    else if 0xC2 <= b <= 0xDF && left >= 2 && Tail(s[i + 1]) then 2
    else if 0xE0 <= b <= 0xEF && left >= 3 && SecondOfThree(b, s[i + 1]) && Tail(s[i + 2]) then 3
    else if 0xF0 <= b <= 0xF4 && left >= 4 && SecondOfFour(b, s[i + 1]) && Tail(s[i + 2]) && Tail(s[i + 3]) then 4
    else 0
  }

  predicate Tail(b: Byte) { 0x80 <= b <= 0xBF }

  predicate SecondOfThree(lead: Byte, b: Byte) {
    (if lead == 0xE0 then 0xA0 else 0x80) <= b <= (if lead == 0xED then 0x9F else 0xBF)
  }

  predicate SecondOfFour(lead: Byte, b: Byte) {
    (if lead == 0xF0 then 0x90 else 0x80) <= b <= (if lead == 0xF4 then 0x8F else 0xBF)
  }

  /** s[i..] is a sequence of characters. */
  ghost predicate WellFormed(s: Bytes, i: nat)
    requires i <= |s|
    decreases |s| - i
  {
    i == |s| || (CharLength(s, i) > 0 && WellFormed(s, i + CharLength(s, i)))
  }

  /** Where characters of s[i..] start, together with the end. */
  ghost function Boundaries(s: Bytes, i: nat): set<nat>
    requires i <= |s| && WellFormed(s, i)
    decreases |s| - i
  {
    {i} + if i == |s| then {} else Boundaries(s, i + CharLength(s, i))
  }

  /** In well-formed text a position is a boundary exactly when no continuation byte stands there. */
  lemma {:induction false} BoundaryIff(s: Bytes, i: nat, k: nat)
    requires i <= k <= |s| && WellFormed(s, i)
    ensures k in Boundaries(s, i) <==> (k == |s| || !IsContinuation(s[k]))
    decreases |s| - i
  {
    if i < |s| {
      var next := i + CharLength(s, i);
      BoundariesAfter(s, next);
      if k >= next {
        BoundaryIff(s, next, k);
      }
    }
  }

  lemma {:induction false} BoundariesAfter(s: Bytes, i: nat)
    requires i <= |s| && WellFormed(s, i)
    ensures forall k | k in Boundaries(s, i) :: i <= k <= |s|
    decreases |s| - i
  {
    if i < |s| {
      BoundariesAfter(s, i + CharLength(s, i));
    }
  }

  lemma {:induction false} CharEndsAtBoundary(s: Bytes, i: nat, k: nat)
    requires i <= k < |s| && WellFormed(s, i) && k in Boundaries(s, i)
    ensures CharLength(s, k) > 0 && k + CharLength(s, k) in Boundaries(s, i)
    decreases |s| - i
  {
    var next := i + CharLength(s, i);
    BoundariesAfter(s, next);
    if i < k {
      CharEndsAtBoundary(s, next, k);
    }
  }

  // ---------------------------------------------------------------- where the cuts fall

  ghost predicate EndsInContinuation(s: Bytes) { s != [] && IsContinuation(s[|s| - 1]) }

  ghost predicate IsBoundary(s: Bytes, k: nat)
    requires WellFormed(s, 0)
  {
    k in Boundaries(s, 0)
  }

  /** From a boundary, the next cut is a boundary, unless it is the cut before a final continuation byte. */
  lemma NextCutFromBoundary(s: Bytes, i: nat, maxBytes: nat)
    requires WellFormed(s, 0) && i < |s| && maxBytes >= 4 && IsBoundary(s, i)
    ensures var cut := NextCut(s, i, maxBytes);
            if i + maxBytes < |s| then IsBoundary(s, cut) && cut < |s|
            else if EndsInContinuation(s) then cut == |s| - 1 else cut == |s|
  {
    var cut := NextCut(s, i, maxBytes);
    CharEndsAtBoundary(s, 0, i);
    var next := i + CharLength(s, i);
    BoundaryIff(s, 0, i);
    BoundaryIff(s, 0, next);
    BoundaryIff(s, 0, cut);
  }

  lemma {:induction false} CutsAfter(s: Bytes, i: nat, maxBytes: nat)
    requires WellFormed(s, 0) && i <= |s| && maxBytes >= 4 && IsBoundary(s, i)
    ensures forall c | c in Cuts(s, i, maxBytes) :: IsBoundary(s, c) || (c == |s| - 1 && EndsInContinuation(s))
    ensures EndsInContinuation(s) && i < |s| ==> |s| - 1 in Cuts(s, i, maxBytes)
    decreases |s| - i
  {
    if i < |s| {
      NextCutFromBoundary(s, i, maxBytes);
      var cut := NextCut(s, i, maxBytes);
      BoundaryIff(s, 0, |s|);
      if i + maxBytes < |s| {
        CutsAfter(s, cut, maxBytes);
      } else if EndsInContinuation(s) {
        assert Cuts(s, |s| - 1, maxBytes) == [|s|] + Cuts(s, |s|, maxBytes);
      }
    }
  }

  lemma {:induction false} CutsIncrease(s: Bytes, i: nat, maxBytes: nat)
    requires i <= |s| && maxBytes >= 1
    ensures forall c | c in Cuts(s, i, maxBytes) :: i < c <= |s|
    ensures forall j, k | 0 <= j < k < |Cuts(s, i, maxBytes)| :: Cuts(s, i, maxBytes)[j] < Cuts(s, i, maxBytes)[k]
    decreases |s| - i
  {
    if i < |s| {
      var cut := NextCut(s, i, maxBytes);
      CutsIncrease(s, cut, maxBytes);
      var rest := Cuts(s, cut, maxBytes);
      assert Cuts(s, i, maxBytes) == [cut] + rest;
      forall k | 0 < k <= |rest|
        ensures ([cut] + rest)[k] in rest
      {
      }
    }
  }

  /** Piece `k` is what lies between cut `k - 1`, or the start, and cut `k`; the last cut is the end of the text. */
  lemma {:induction false} PiecesEndAtCuts(s: Bytes, i: nat, maxBytes: nat, k: nat)
    requires i <= |s| && maxBytes >= 1
    ensures |Pieces(s, i, maxBytes)| == |Cuts(s, i, maxBytes)|
    ensures k < |Cuts(s, i, maxBytes)| ==>
              var from, to := if k == 0 then i else Cuts(s, i, maxBytes)[k - 1], Cuts(s, i, maxBytes)[k];
              && from < to <= |s| && Pieces(s, i, maxBytes)[k] == s[from..to]
              && (k == |Cuts(s, i, maxBytes)| - 1 ==> to == |s|)
    decreases |s| - i
  {
    if i < |s| {
      var cut := NextCut(s, i, maxBytes);
      PiecesEndAtCuts(s, cut, maxBytes, if k == 0 then 0 else k - 1);
      var cuts, pieces := Cuts(s, cut, maxBytes), Pieces(s, cut, maxBytes);
      assert Cuts(s, i, maxBytes) == [cut] + cuts && Pieces(s, i, maxBytes) == [s[i..cut]] + pieces;
      assert cuts == [] ==> cut == |s|;
    }
  }

  /**
   On well-formed text with maxBytes >= 4 every cut is a character boundary, with one exception: a text that ends
   in a continuation byte is always cut, once, before that last byte.
   */
  lemma CutsExactly(s: Bytes, maxBytes: nat)
    requires WellFormed(s, 0) && maxBytes >= 4
    ensures forall c | c in Cuts(s, 0, maxBytes) ::
              IsBoundary(s, c) <==> !(EndsInContinuation(s) && c == |s| - 1)
    ensures EndsInContinuation(s) ==> |s| - 1 in Cuts(s, 0, maxBytes)
    ensures forall j, k | 0 <= j < k < |Cuts(s, 0, maxBytes)| :: Cuts(s, 0, maxBytes)[j] < Cuts(s, 0, maxBytes)[k]
  {
    BoundaryIff(s, 0, 0);
    CutsAfter(s, 0, maxBytes);
    CutsIncrease(s, 0, maxBytes);
    if EndsInContinuation(s) {
      BoundaryIff(s, 0, |s| - 1);
    }
  }

  /** Where the piece that starts at `from` has to end: no later boundary fits, except in the text's last window. */
  ghost predicate EndsWhereItMust(s: Bytes, from: nat, to: nat, maxBytes: nat)
    requires WellFormed(s, 0)
  {
    if from + maxBytes < |s| then
      IsBoundary(s, to) && to <= from + maxBytes && forall b | to < b <= from + maxBytes :: !IsBoundary(s, b)
    else if EndsInContinuation(s) && from + 1 < |s| then to == |s| - 1
    else to == |s|
  }

  lemma NextCutIsGreatest(s: Bytes, i: nat, maxBytes: nat)
    requires WellFormed(s, 0) && i < |s| && maxBytes >= 4 && (IsBoundary(s, i) || i + 1 == |s|)
    ensures EndsWhereItMust(s, i, NextCut(s, i, maxBytes), maxBytes)
  {
    var cut := NextCut(s, i, maxBytes);
    if i + maxBytes < |s| {
      NextCutFromBoundary(s, i, maxBytes);
      forall b | cut < b <= i + maxBytes
        ensures !IsBoundary(s, b)
      {
        assert IsContinuation(s[b]);
        BoundaryIff(s, 0, b);
      }
    }
  }

  /** Every piece is as long as it can be without ending inside a character, up to the last window. */
  lemma {:induction false} CutsAreGreatest(s: Bytes, i: nat, maxBytes: nat, k: nat)
    requires WellFormed(s, 0) && i < |s| && maxBytes >= 4 && (IsBoundary(s, i) || i + 1 == |s|)
    requires k < |Cuts(s, i, maxBytes)|
    ensures EndsWhereItMust(s, if k == 0 then i else Cuts(s, i, maxBytes)[k - 1], Cuts(s, i, maxBytes)[k], maxBytes)
    decreases |s| - i
  {
    NextCutIsGreatest(s, i, maxBytes);
    if k > 0 {
      var cut := NextCut(s, i, maxBytes);
      assert Cuts(s, i, maxBytes) == [cut] + Cuts(s, cut, maxBytes);
      assert cut < |s|;
      CutsAreGreatest(s, cut, maxBytes, k - 1);
    }
  }

  /** The documented promise, never to break a code point, holds exactly for texts that end in a one-byte character. */
  lemma NeverBreaksIff(s: Bytes, maxBytes: nat)
    requires WellFormed(s, 0) && maxBytes >= 4
    ensures (forall c | c in Cuts(s, 0, maxBytes) :: IsBoundary(s, c)) <==> !EndsInContinuation(s)
  {
    CutsExactly(s, maxBytes);
  }

  /** U+00E9 alone is sent in two pieces that are not characters. */
  lemma BreaksSmallText()
    ensures WellFormed([0xC3, 0xA9], 0) && SplitText([0xC3, 0xA9], 15000) == [[0xC3], [0xA9]]
  {
    var s := [0xC3, 0xA9];
    assert WellFormed(s, 2);
    assert NextCut(s, 0, 15000) == 1 && NextCut(s, 1, 15000) == 2;
    assert Pieces(s, 2, 15000) == [];
    assert s[0..1] == [0xC3] && s[1..2] == [0xA9];
  }
}
