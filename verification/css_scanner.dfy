/** The hand-written scanners of the CSS sanitizer: braces and declarations. */
module CssScanner {
  import opened JsonText

  const OPEN_BRACE: Code := 0x7B
  const CLOSE_BRACE: Code := 0x7D
  const OPEN_PARENTHESIS: Code := 0x28
  const CLOSE_PARENTHESIS: Code := 0x29
  const SEMICOLON: Code := 0x3B

  // ----- braces -----

  /** How a unit changes the brace depth. */
  function Turn(c: Code): int {
    if c == OPEN_BRACE then 1 else if c == CLOSE_BRACE then -1 else 0
  }

  /** Open braces minus closed braces. */
  function Depth(t: Text): int {
    if t == [] then 0 else Depth(t[..|t| - 1]) + Turn(t[|t| - 1])
  }

  /** `close` closes the brace at `open`: the braces from one to the other cancel out. */
  predicate Closes(css: Text, open: nat, close: int) {
    open <= close < |css| && css[close] == CLOSE_BRACE && Depth(css[open..close + 1]) == 0
  }

  lemma DepthStep(css: Text, open: nat, index: nat)
    requires open <= index < |css|
    ensures Depth(css[open..index + 1]) == Depth(css[open..index]) + Turn(css[index])
  {
    var t := css[open..index + 1];
    assert t[..|t| - 1] == css[open..index];
  }

  /** The first target at or after `start`, or -1. */
  function FirstFrom(css: Text, start: nat, target: Code): (found: int)
    requires start <= |css|
    ensures found == -1 || start <= found < |css|
    ensures found != -1 ==> css[found] == target
    ensures forall i :: start <= i < (if found == -1 then |css| else found) ==> css[i] != target
    decreases |css| - start
  {
    if start == |css| then -1 else if css[start] == target then start else FirstFrom(css, start + 1, target)
  }

  /** The least position from `index` on that closes the brace at `open`, or -1. */
  function ClosingFrom(css: Text, open: nat, index: nat): (close: int)
    requires open <= index <= |css|
    ensures close == -1 || (index <= close && Closes(css, open, close))
    ensures forall i :: index <= i < (if close == -1 then |css| else close) ==> !Closes(css, open, i)
    decreases |css| - index
  {
    if index == |css| then -1 else if Closes(css, open, index) then index else ClosingFrom(css, open, index + 1)
  }

  method FindBrace(css: Text, start: nat, target: Code) returns (found: int)
    requires start <= |css|
    ensures found == FirstFrom(css, start, target)
  {
    for index := start to |css|
      invariant FirstFrom(css, start, target) == FirstFrom(css, index, target)
    {
      if css[index] == target { return index; }
    }
    return -1;
  }

  /** The running depth is compared with zero only at closing braces. */
  method MatchingBrace(css: Text, open: nat) returns (close: int)
    requires open <= |css|
    ensures close == ClosingFrom(css, open, open)
  {
    hide Depth;
    assert css[open..open] == [] && Depth([]) == 0 by { NoDepth(); }
    var depth := 0;
    for index := open to |css|
      invariant depth == Depth(css[open..index])
      invariant ClosingFrom(css, open, open) == ClosingFrom(css, open, index)
    {
      DepthStep(css, open, index);
      if css[index] == OPEN_BRACE {
        depth := depth + 1;
      } else if css[index] == CLOSE_BRACE {
        depth := depth - 1;
        if depth == 0 { return index; }
      }
    }
    return -1;
  }

  lemma NoDepth()
    ensures Depth([]) == 0
  {
  }

  // ----- declarations -----

  function ParenthesesStep(before: nat, c: Code): nat {
    if c == OPEN_PARENTHESIS then before + 1
    else if c == CLOSE_PARENTHESIS then (if before > 0 then before - 1 else 0)
    else before
  }

  /** The parenthesis depth after a text; an unmatched closing one does not count. */
  function Parentheses(t: Text): nat {
    if t == [] then 0 else ParenthesesStep(Parentheses(t[..|t| - 1]), t[|t| - 1])
  }

  /** A semicolon outside parentheses. */
  predicate Cuts(t: Text, i: nat) {
    i < |t| && t[i] == SEMICOLON && Parentheses(t[..i]) == 0
  }

  ghost predicate Whole(piece: Text) {
    forall i: nat :: !Cuts(piece, i)
  }

  /** The first cut at or after `start`, or -1. */
  function FirstCut(t: Text, start: nat): (cut: int)
    requires start <= |t|
    ensures cut == -1 || (start <= cut && Cuts(t, cut))
    ensures forall i: nat :: start <= i < (if cut == -1 then |t| else cut) ==> !Cuts(t, i)
    decreases |t| - start
  {
    if start == |t| then -1 else if Cuts(t, start) then start else FirstCut(t, start + 1)
  }

  function Split(t: Text): (pieces: seq<Text>)
    ensures pieces != []
    decreases |t|
  {
    var cut := FirstCut(t, 0);
    if cut == -1 then [t] else [t[..cut]] + Split(t[cut + 1..])
  }

  function JoinPieces(pieces: seq<Text>): Text {
    if pieces == [] then []
    else if |pieces| == 1 then pieces[0]
    else pieces[0] + [SEMICOLON] + JoinPieces(pieces[1..])
  }

  /** The pieces of a text: rejoined they give it, all are whole, and all but the last close their parentheses. */
  ghost predicate IsSplit(pieces: seq<Text>, input: Text) {
    && pieces != [] && JoinPieces(pieces) == input
    && (forall p :: p in pieces ==> Whole(p))
    && (forall k :: 0 <= k < |pieces| - 1 ==> Parentheses(pieces[k]) == 0)
  }

  lemma CutsPrefix(t: Text, n: nat, i: nat)
    requires n <= |t|
    ensures i < n ==> (Cuts(t[..n], i) <==> Cuts(t, i))
  {
    if i < n {
      assert t[..n][..i] == t[..i];
    }
  }

  lemma {:induction false} SplitSound(t: Text)
    ensures IsSplit(Split(t), t)
    decreases |t|
  {
    var cut := FirstCut(t, 0);
    if cut != -1 {
      var rest := t[cut + 1..];
      SplitSound(rest);
      hide Parentheses;
      assert t == t[..cut] + [SEMICOLON] + rest;
      forall i: nat ensures !Cuts(t[..cut], i) {
        CutsPrefix(t, cut, i);
      }
      var pieces := Split(t);
      assert pieces[1..] == Split(rest);
    }
  }

  /** The first piece of any decomposition ends at the first cut. */
  lemma FirstPiece(pieces: seq<Text>, t: Text)
    requires IsSplit(pieces, t)
    ensures |pieces| == 1 ==> FirstCut(t, 0) == -1
    ensures |pieces| > 1 ==> FirstCut(t, 0) == |pieces[0]| && t[|pieces[0]| + 1..] == JoinPieces(pieces[1..])
  {
    hide Parentheses;
    var p := pieces[0];
    assert Whole(p);
    assert p == t[..|p|];
    forall i: nat | i < |p| ensures !Cuts(t, i) {
      CutsPrefix(t, |p|, i);
    }
    if |pieces| > 1 {
      assert t == p + [SEMICOLON] + JoinPieces(pieces[1..]);
      assert Cuts(t, |p|);
    }
  }

  /** No other decomposition of the text has these properties. */
  lemma {:induction false} SplitUnique(pieces: seq<Text>, t: Text)
    requires IsSplit(pieces, t)
    ensures pieces == Split(t)
    decreases |pieces|
  {
    hide Parentheses, Whole;
    FirstPiece(pieces, t);
    if |pieces| > 1 {
      var tail := pieces[1..];
      assert forall k :: 0 <= k < |tail| ==> tail[k] == pieces[k + 1];
      SplitUnique(tail, JoinPieces(tail));
      assert pieces == [pieces[0]] + tail;
      assert t[..|pieces[0]|] == pieces[0];
    }
  }

  /** The split so far, when the rest is cut at `index`. */
  lemma CutHere(input: Text, start: nat, index: nat)
    requires start <= index < |input| && FirstCut(input[start..], 0) == FirstCut(input[start..], index - start)
    requires Cuts(input[start..], index - start)
    ensures Split(input[start..]) == [input[start..index]] + Split(input[index + 1..])
  {
    hide Cuts;
    assert input[start..][..index - start] == input[start..index];
    assert input[start..][index - start + 1..] == input[index + 1..];
  }

  lemma NoCutHere(t: Text, i: nat)
    requires i < |t| && !Cuts(t, i)
    ensures FirstCut(t, i) == FirstCut(t, i + 1)
  {
    hide Cuts;
  }

  lemma NoCutLeft(t: Text)
    requires FirstCut(t, 0) == FirstCut(t, |t|)
    ensures Split(t) == [t]
  {
    hide Cuts;
  }

  lemma CutsAt(input: Text, start: nat, index: nat)
    requires start <= index < |input|
    ensures Cuts(input[start..], index - start) <==> input[index] == SEMICOLON && Parentheses(input[start..index]) == 0
  {
    hide Parentheses;
    assert input[start..][..index - start] == input[start..index];
  }

  /** One pass with a running parenthesis depth, which is zero again at every cut. */
  method SplitDeclarations(input: Text) returns (pieces: seq<Text>)
    ensures pieces == Split(input) && IsSplit(pieces, input)
  {
    hide Parentheses, ParenthesesStep, Split, FirstCut, Cuts, IsSplit;
    pieces := [];
    var start, parentheses := 0, 0;
    NoParentheses();
    assert input[0..] == input && input[0..0] == [];
    for index := 0 to |input|
      invariant 0 <= start <= index
      invariant parentheses == Parentheses(input[start..index])
      invariant FirstCut(input[start..], 0) == FirstCut(input[start..], index - start)
      invariant Split(input) == pieces + Split(input[start..])
    {
      ParenthesesAfter(input, start, index);
      CutsAt(input, start, index);
      if input[index] == SEMICOLON && parentheses == 0 {
        CutHere(input, start, index);
        pieces := pieces + [input[start..index]];
        start := index + 1;
        assert input[index + 1..index + 1] == [];
      } else {
        NoCutHere(input[start..], index - start);
        if input[index] == OPEN_PARENTHESIS {
          parentheses := parentheses + 1;
        } else if input[index] == CLOSE_PARENTHESIS {
          parentheses := if parentheses > 0 then parentheses - 1 else 0;
        }
      }
    }
    NoCutLeft(input[start..]);
    pieces := pieces + [input[start..]];
    SplitSound(input);
  }

  lemma NoParentheses()
    ensures Parentheses([]) == 0
  {
  }

  lemma ParenthesesAfter(input: Text, start: nat, index: nat)
    requires start <= index < |input|
    ensures Parentheses(input[start..index + 1])
         == if input[index] == OPEN_PARENTHESIS then Parentheses(input[start..index]) + 1
            else if input[index] != CLOSE_PARENTHESIS then Parentheses(input[start..index])
            else if Parentheses(input[start..index]) > 0 then Parentheses(input[start..index]) - 1 else 0
  {
    assert input[start..index + 1][..index - start] == input[start..index];
  }
}
