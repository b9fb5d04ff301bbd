/** The fragment of Python's `re` that the report parser's four summary
    patterns use: literal text, an optional literal (`s?`, captured when
    written `(s?)`) and one-or-more runs `(\d+)` and `(.+)`, each captured.
    `MatchPrefix` is `re.match`: anchored at the start of the line, not at
    its end, trying greedy alternatives first and backtracking. */
module Patterns {
  import opened Wrappers
  import opened StringOps

  /** The classes a `+` repeats: `\d` (ASCII digits here) and `.`. */
  datatype CharClass = Digit | AnyButNewline

  predicate InClass(cls: CharClass, c: char)
  {
    match cls
    case Digit => IsDigit(c)
    case AnyButNewline => c != '\n'
  }

  datatype Token =
    | Literal(text: string)
    | Optional(text: string, captured: bool)
    | OneOrMore(cls: CharClass)

  /** Python's `Match`: the text each token consumed, then what follows. */
  datatype Match = Match(pieces: seq<string>, rest: string)

  /** `piece` is something `tok` can consume. */
  predicate Fits(tok: Token, piece: string)
  {
    match tok
    case Literal(t) => piece == t
    case Optional(t, _) => piece == t || piece == ""
    case OneOrMore(cls) => piece != "" && forall k :: 0 <= k < |piece| ==> InClass(cls, piece[k])
  }

  function Concat(pieces: seq<string>): string
  {
    if pieces == [] then "" else pieces[0] + Concat(pieces[1..])
  }

  /** `m` splits `line` into one fitting piece per token, followed by `m.rest`. */
  predicate Decomposes(pat: seq<Token>, m: Match, line: string)
  {
    |m.pieces| == |pat| &&
    (forall i :: 0 <= i < |pat| ==> Fits(pat[i], m.pieces[i])) &&
    Concat(m.pieces) + m.rest == line
  }

  /** The length of the longest prefix of `s` inside `cls`. */
  function RunLength(cls: CharClass, s: string): (n: nat)
    ensures n <= |s|
    ensures forall k :: 0 <= k < n ==> InClass(cls, s[k])
    ensures n < |s| ==> !InClass(cls, s[n])
  {
    if s != [] && InClass(cls, s[0]) then 1 + RunLength(cls, s[1..]) else 0
  }

  lemma DecomposesCons(pat: seq<Token>, piece: string, m: Match, line: string)
    requires pat != [] && Fits(pat[0], piece) && |piece| <= |line| && line[..|piece|] == piece
    requires Decomposes(pat[1..], m, line[|piece|..])
    ensures Decomposes(pat, Match([piece] + m.pieces, m.rest), line)
  {
    var ps := [piece] + m.pieces;
    assert ps[1..] == m.pieces;
    assert Concat(ps) == piece + Concat(m.pieces);
    assert line == line[..|piece|] + line[|piece|..];
    forall i | 0 <= i < |pat| ensures Fits(pat[i], ps[i]) {
      if i > 0 {
        assert pat[i] == pat[1..][i - 1] && ps[i] == m.pieces[i - 1];
      }
    }
  }

  /** `Concat` peeled at position `i`. */
  lemma ConcatAt(pieces: seq<string>, i: nat)
    requires i < |pieces|
    ensures Concat(pieces[i..]) == pieces[i] + Concat(pieces[i + 1..])
  {
    assert pieces[i..][1..] == pieces[i + 1..];
  }

  /** `Concat` of a list with a first piece in front. */
  lemma ConcatCons(piece: string, pieces: seq<string>)
    ensures Concat([piece] + pieces) == piece + Concat(pieces)
  {
    assert ([piece] + pieces)[1..] == pieces;
  }

  /** `Concat` with five pieces in front. */
  lemma ConcatFive(v: string, w: string, x: string, y: string, z: string, rest: seq<string>)
    ensures Concat([v, w, x, y, z] + rest) == v + w + x + y + z + Concat(rest)
  {
    ConcatCons(z, rest);
    ConcatCons(y, [z] + rest);
    ConcatCons(x, [y] + ([z] + rest));
    ConcatCons(w, [x] + ([y] + ([z] + rest)));
    ConcatCons(v, [w] + ([x] + ([y] + ([z] + rest))));
    assert [v] + ([w] + ([x] + ([y] + ([z] + rest)))) == [v, w, x, y, z] + rest;
  }

  lemma ConcatThree(x: string, y: string, z: string)
    ensures Concat([x, y, z]) == x + y + z
  {
    ConcatCons(z, []);
    ConcatCons(y, [z] + []);
    ConcatCons(x, [y] + ([z] + []));
    assert [x] + ([y] + ([z] + [])) == [x, y, z];
  }

  lemma ConcatEight(p0: string, p1: string, p2: string, p3: string, p4: string,
                    p5: string, p6: string, p7: string)
    ensures Concat([p0, p1, p2, p3, p4, p5, p6, p7]) == p0 + p1 + p2 + p3 + p4 + p5 + p6 + p7
  {
    var ys := [p5, p6, p7];
    ConcatFive(p0, p1, p2, p3, p4, ys);
    ConcatThree(p5, p6, p7);
    assert [p0, p1, p2, p3, p4] + ys == [p0, p1, p2, p3, p4, p5, p6, p7];
  }

  lemma ConcatTen(p0: string, p1: string, p2: string, p3: string, p4: string,
                  p5: string, p6: string, p7: string, p8: string, p9: string)
    ensures Concat([p0, p1, p2, p3, p4, p5, p6, p7, p8, p9]) == p0 + p1 + p2 + p3 + p4 + p5 + p6 + p7 + p8 + p9
  {
    var ys := [p5, p6, p7, p8, p9];
    ConcatFive(p0, p1, p2, p3, p4, ys);
    ConcatFive(p5, p6, p7, p8, p9, []);
    assert ys + [] == ys;
    assert [p0, p1, p2, p3, p4] + ys == [p0, p1, p2, p3, p4, p5, p6, p7, p8, p9];
  }

  function Prepend(piece: string, m: Option<Match>): Option<Match>
  {
    match m
    case None => None
    case Some(mm) => Some(Match([piece] + mm.pieces, mm.rest))
  }

  /** `re.match(pat, line)`: `None` when no prefix of `line` matches. */
  function MatchPrefix(pat: seq<Token>, line: string): (r: Option<Match>)
    ensures r.Some? ==> Decomposes(pat, r.value, line)
    decreases |pat|, |line| + 1
  {
    if pat == [] then
      assert Concat([]) == "";
      Some(Match([], line))
    else
      match pat[0]
      case Literal(t) =>
        if StartsWith(line, t) then
          var tail := MatchPrefix(pat[1..], line[|t|..]);
          if tail.Some? then DecomposesCons(pat, t, tail.value, line); Prepend(t, tail)
          else None
        else None
      case Optional(t, _) =>
        var taken :=
          if StartsWith(line, t) then
            var tail := MatchPrefix(pat[1..], line[|t|..]);
            if tail.Some? then DecomposesCons(pat, t, tail.value, line); Prepend(t, tail)
            else None
          else None;
        if taken.Some? then taken
        else
          var tail := MatchPrefix(pat[1..], line);
          if tail.Some? then DecomposesCons(pat, "", tail.value, line); Prepend("", tail)
          else None
      case OneOrMore(cls) => MatchRun(pat, line, RunLength(cls, line))
  }

  /** Backtracking over a `+` run: tries the first `k` characters, then fewer. */
  function MatchRun(pat: seq<Token>, line: string, k: nat): (r: Option<Match>)
    requires pat != [] && pat[0].OneOrMore? && k <= RunLength(pat[0].cls, line)
    ensures r.Some? ==> Decomposes(pat, r.value, line)
    decreases |pat|, k
  {
    if k == 0 then None
    else
      var tail := MatchPrefix(pat[1..], line[k..]);
      if tail.Some? then
        DecomposesCons(pat, line[..k], tail.value, line);
        Prepend(line[..k], tail)
      else MatchRun(pat, line, k - 1)
  }

  predicate Captures(tok: Token)
  {
    tok.OneOrMore? || (tok.Optional? && tok.captured)
  }

  /** The position of the token that forms capturing group `n` among the
      tokens from `from` on, counting groups from 1 as `m.group(n)` does;
      `|pat|` when there are fewer groups. */
  function GroupIndexFrom(pat: seq<Token>, from: nat, n: nat): (i: nat)
    requires from <= |pat| && n >= 1
    ensures from <= i <= |pat|
    ensures i < |pat| ==> Captures(pat[i])
    decreases |pat| - from
  {
    if from == |pat| then |pat|
    else if Captures(pat[from]) && n == 1 then from
    else GroupIndexFrom(pat, from + 1, if Captures(pat[from]) then n - 1 else n)
  }

  /** The number of capturing tokens at positions `from` to `to - 1`. */
  function CapturesBetween(pat: seq<Token>, from: nat, to: nat): nat
    requires from <= to <= |pat|
    decreases |pat| - from
  {
    if from == to then 0 else (if Captures(pat[from]) then 1 else 0) + CapturesBetween(pat, from + 1, to)
  }

  /** Group `n` is the capturing token with exactly `n - 1` capturing
      tokens before it; there is none when fewer than `n` tokens capture. */
  lemma {:induction false} GroupIndexIsNthCapture(pat: seq<Token>, from: nat, n: nat)
    requires from <= |pat| && n >= 1
    ensures var i := GroupIndexFrom(pat, from, n);
      (i < |pat| ==> Captures(pat[i]) && CapturesBetween(pat, from, i) == n - 1) &&
      (i == |pat| ==> CapturesBetween(pat, from, |pat|) < n)
    decreases |pat| - from
  {
    if from < |pat| && !(Captures(pat[from]) && n == 1) {
      GroupIndexIsNthCapture(pat, from + 1, if Captures(pat[from]) then n - 1 else n);
    }
  }

  /** `m.group(n)`. */
  function Group(pat: seq<Token>, m: Match, n: nat): string
    requires |m.pieces| == |pat| && n >= 1 && GroupIndexFrom(pat, 0, n) < |pat|
  {
    m.pieces[GroupIndexFrom(pat, 0, n)]
  }

  /** A split that starts with a digit run followed by a literal that does
      not start with a digit: that run is all the line's leading digits,
      and the literal comes right after it. */
  lemma LeadingDigits(pat: seq<Token>, m: Match, line: string)
    requires |pat| >= 2 && pat[0] == OneOrMore(Digit) && pat[1].Literal?
    requires pat[1].text != "" && !IsDigit(pat[1].text[0])
    requires Decomposes(pat, m, line)
    ensures |m.pieces[0]| == RunLength(Digit, line) > 0
    ensures StartsWith(line[RunLength(Digit, line)..], pat[1].text)
  {
    var p := m.pieces[0];
    assert m.pieces == [p] + m.pieces[1..];
    assert m.pieces[1..] == [m.pieces[1]] + m.pieces[2..];
    assert Fits(pat[1], m.pieces[1]);
    var after := Concat(m.pieces[1..]) + m.rest;
    assert line == p + after;
    assert after == pat[1].text + (Concat(m.pieces[2..]) + m.rest);
    assert Fits(pat[0], p);
    RunOfPiece(Digit, p, after);
    assert line[|p|..] == after;
  }

  /** Each `+` run and each optional literal is followed by a literal whose
      first character it cannot consume, unless a run ends the pattern. In
      such a pattern every greedy choice is the only one that can succeed. */
  predicate Separated(pat: seq<Token>)
  {
    pat == [] || (HeadSeparated(pat) && Separated(pat[1..]))
  }

  predicate HeadSeparated(pat: seq<Token>)
    requires pat != []
  {
    match pat[0]
    case Literal(_) => true
    case Optional(t, _) =>
      t != "" && |pat| > 1 && pat[1].Literal? && pat[1].text != "" && pat[1].text[0] != t[0]
    case OneOrMore(cls) =>
      |pat| == 1 || (pat[1].Literal? && pat[1].text != "" && !InClass(cls, pat[1].text[0]))
  }

  /** A run that ends the pattern is not followed by a character it could take. */
  predicate EndsMaximal(pat: seq<Token>, rest: string)
  {
    pat != [] && pat[|pat| - 1].OneOrMore? ==> rest == [] || !InClass(pat[|pat| - 1].cls, rest[0])
  }

  lemma {:induction false} RunOfPiece(cls: CharClass, piece: string, after: string)
    requires forall k :: 0 <= k < |piece| ==> InClass(cls, piece[k])
    requires after == [] || !InClass(cls, after[0])
    ensures RunLength(cls, piece + after) == |piece|
  {
    if piece == [] {
      assert piece + after == after;
    } else {
      assert (piece + after)[1..] == piece[1..] + after;
      RunOfPiece(cls, piece[1..], after);
    }
  }

  /** The first piece of a split heads the line, and the other pieces split the rest. */
  lemma DecomposesTail(pat: seq<Token>, m: Match, line: string)
    requires pat != [] && Decomposes(pat, m, line)
    ensures |m.pieces[0]| <= |line| && line[..|m.pieces[0]|] == m.pieces[0]
    ensures Decomposes(pat[1..], Match(m.pieces[1..], m.rest), line[|m.pieces[0]|..])
    ensures EndsMaximal(pat, m.rest) ==> EndsMaximal(pat[1..], m.rest)
    ensures |pat| > 1 && pat[1].Literal? && pat[1].text != "" ==>
      |line| > |m.pieces[0]| && line[|m.pieces[0]|] == pat[1].text[0]
  {
    var p := m.pieces[0];
    var tailM := Match(m.pieces[1..], m.rest);
    assert m.pieces == [p] + m.pieces[1..];
    assert line == p + (Concat(m.pieces[1..]) + m.rest);
    forall i | 0 <= i < |pat[1..]| ensures Fits(pat[1..][i], tailM.pieces[i]) {
      assert Fits(pat[i + 1], m.pieces[i + 1]);
    }
    if |pat| > 1 {
      assert pat[1..][|pat[1..]| - 1] == pat[|pat| - 1];
      if pat[1].Literal? && pat[1].text != "" {
        assert Fits(pat[1], m.pieces[1]);
        assert m.pieces[1..][1..] == m.pieces[2..];
        assert Concat(m.pieces[1..]) == m.pieces[1] + Concat(m.pieces[2..]);
      }
    }
  }

  /** In a separated pattern the match is unique: whenever `line` splits
      into fitting pieces (a final run taking all it can), `re.match`
      returns exactly that split. With `MatchPrefix`'s own postcondition
      this says the pattern matches `line` if and only if such a split exists. */
  lemma {:induction false} MatchComplete(pat: seq<Token>, m: Match, line: string)
    requires Separated(pat) && Decomposes(pat, m, line) && EndsMaximal(pat, m.rest)
    ensures MatchPrefix(pat, line) == Some(m)
    decreases |pat|
  {
    if pat == [] {
      assert m.pieces == [] && Concat(m.pieces) == "";
      assert "" + m.rest == m.rest;
      assert m == Match([], line);
    } else {
      var p := m.pieces[0];
      var after := line[|p|..];
      DecomposesTail(pat, m, line);
      MatchComplete(pat[1..], Match(m.pieces[1..], m.rest), after);
      assert m.pieces == [p] + m.pieces[1..];
      match pat[0]
      case Literal(t) =>
      case Optional(t, c) =>
        if p == "" {
          // The next literal starts the line and differs from `t` at once.
          assert !StartsWith(line, t);
        }
      case OneOrMore(cls) =>
        if |pat| == 1 {
          assert after == m.rest;
        }
        RunOfPiece(cls, p, after);
        assert line == p + after;
    }
  }
}
