/**
 * Ruby's String#split with the regular expression `, *` and a positive
 * limit, as the loader applies it to the normalizer's output (shp.rb:21).
 * The expression matches a comma followed by as many spaces as there are;
 * with a positive limit at most limit - 1 matches are cut, the last piece
 * keeps the rest of the string verbatim, and trailing empty pieces are kept.
 * The empty string splits into no pieces at all.
 */
module RubySplit {

  import opened RubyText

  /** Where the run of spaces starting at `from` ends: what ` *` consumes greedily. */
  function SpaceEnd(s: string, from: nat): (j: nat)
    requires from <= |s|
    ensures from <= j <= |s|
    decreases |s| - from
  {
    if from < |s| && s[from] == ' ' then SpaceEnd(s, from + 1) else from
  }

  /** The run is all spaces and stops at the first other character. */
  lemma {:induction false} SpaceEndShape(s: string, from: nat)
    requires from <= |s|
    ensures var j := SpaceEnd(s, from);
      && (forall k :: from <= k < j ==> s[k] == ' ')
      && (j < |s| ==> s[j] != ' ')
    decreases |s| - from
  {
    if from < |s| && s[from] == ' ' {
      SpaceEndShape(s, from + 1);
    }
  }

  /** Where the first match of the pattern ends: after the comma and the spaces that follow it. */
  function CutEnd(s: string): (e: nat)
    requires IndexOf(s, ',') < |s|
    ensures IndexOf(s, ',') < e <= |s|
  {
    SpaceEnd(s, IndexOf(s, ',') + 1)
  }

  /** The pieces of a non-empty string, the first match cut from the left. */
  function SplitFrom(s: string, limit: nat): (r: seq<string>)
    requires limit >= 1
    ensures 1 <= |r| <= limit
    decreases |s|
  {
    if limit == 1 || IndexOf(s, ',') == |s| then [s]
    else [s[..IndexOf(s, ',')]] + SplitFrom(s[CutEnd(s)..], limit - 1)
  }

  /** The separators SplitFrom cuts out, in order: each a comma and its spaces. */
  function SeparatorsFrom(s: string, limit: nat): seq<string>
    requires limit >= 1
    decreases |s|
  {
    if limit == 1 || IndexOf(s, ',') == |s| then []
    else [s[IndexOf(s, ',')..CutEnd(s)]] + SeparatorsFrom(s[CutEnd(s)..], limit - 1)
  }

  /** Ruby's split of `s` on the expression `, *` with a positive limit. */
  function Split(s: string, limit: nat): (r: seq<string>)
    requires limit >= 1
    ensures |r| <= limit
    ensures r == [] <==> s == []
  {
    if s == [] then [] else SplitFrom(s, limit)
  }

  /** What the expression `, *` matches in full: a comma, then only spaces. */
  predicate IsSeparator(t: string) {
    |t| >= 1 && t[0] == ',' && forall k :: 1 <= k < |t| ==> t[k] == ' '
  }

  /** Pieces glued back together with the separators between them. */
  function Join(pieces: seq<string>, seps: seq<string>): string
    requires |pieces| >= 1 && |seps| == |pieces| - 1
  {
    if |pieces| == 1 then pieces[0]
    else pieces[0] + seps[0] + Join(pieces[1..], seps[1..])
  }

  predicate NoComma(t: string) {
    Absent(',', t)
  }

  function CommaCount(s: string): nat {
    if s == [] then 0 else (if s[0] == ',' then 1 else 0) + CommaCount(s[1..])
  }

  function Min(a: nat, b: nat): nat {
    if a <= b then a else b
  }

  lemma {:induction false} CommaCountAppend(a: string, b: string)
    ensures CommaCount(a + b) == CommaCount(a) + CommaCount(b)
  {
    if a != [] {
      assert (a + b)[0] == a[0];
      assert (a + b)[1..] == a[1..] + b;
      CommaCountAppend(a[1..], b);
    } else {
      assert a + b == b;
    }
  }

  lemma {:induction false} CommaCountNone(s: string)
    requires NoComma(s)
    ensures CommaCount(s) == 0
  {
    if s != [] {
      CommaCountNone(s[1..]);
    }
  }

  /** The facts about one cut that the lemmas below share. */
  lemma CutFacts(s: string)
    requires IndexOf(s, ',') < |s|
    ensures var i, e := IndexOf(s, ','), CutEnd(s);
      && s == s[..i] + s[i..e] + s[e..]
      && NoComma(s[..i])
      && IsSeparator(s[i..e])
      && (e < |s| ==> s[e] != ' ')
      && CommaCount(s) == 1 + CommaCount(s[e..])
  {
    var i, e := IndexOf(s, ','), CutEnd(s);
    CutShape(s);
    CommaCountSplit(s, i, e);
    CommaCountNone(s[..i]);
    SeparatorCount(s[i..e]);
  }

  lemma CutShape(s: string)
    requires IndexOf(s, ',') < |s|
    ensures var i, e := IndexOf(s, ','), CutEnd(s);
      && NoComma(s[..i])
      && IsSeparator(s[i..e])
      && (e < |s| ==> s[e] != ' ')
  {
    IndexOfFirst(s, ',');
    CutSeparator(s);
  }

  /** What a cut removes is a separator, and what follows it is not a space. */
  lemma CutSeparator(s: string)
    requires IndexOf(s, ',') < |s|
    ensures var i, e := IndexOf(s, ','), CutEnd(s);
      && IsSeparator(s[i..e])
      && (e < |s| ==> s[e] != ' ')
  {
    var i, e := IndexOf(s, ','), CutEnd(s);
    SpaceEndShape(s, i + 1);
    var sep := s[i..e];
    forall k | 1 <= k < |sep| ensures sep[k] == ' ' {
      assert sep[k] == s[i + k];
    }
  }

  lemma SeparatorCount(t: string)
    requires IsSeparator(t)
    ensures CommaCount(t) == 1
  {
    assert t == [t[0]] + t[1..];
    assert NoComma(t[1..]);
    CommaCountNone(t[1..]);
    CommaCountAppend([t[0]], t[1..]);
  }

  lemma CommaCountSplit(s: string, i: nat, e: nat)
    requires i <= e <= |s|
    ensures s == s[..i] + s[i..e] + s[e..]
    ensures CommaCount(s) == CommaCount(s[..i]) + CommaCount(s[i..e]) + CommaCount(s[e..])
  {
    assert s == s[..i] + s[i..e] + s[e..];
    CommaCountAppend(s[..i] + s[i..e], s[e..]);
    CommaCountAppend(s[..i], s[i..e]);
  }

  /**
   * Splitting loses nothing: the separators are matches of `, *`, there is
   * one fewer of them than pieces, and gluing the pieces back with them
   * gives the original string.
   */
  lemma {:induction false} SplitFromReassembles(s: string, limit: nat)
    requires limit >= 1
    ensures var r := SplitFrom(s, limit); var seps := SeparatorsFrom(s, limit);
      && |seps| == |r| - 1
      && (forall k :: 0 <= k < |seps| ==> IsSeparator(seps[k]))
      && Join(r, seps) == s
    decreases |s|
  {
    if limit > 1 && IndexOf(s, ',') < |s| {
      var i, e := IndexOf(s, ','), CutEnd(s);
      CutFacts(s);
      SplitFromReassembles(s[e..], limit - 1);
      var r := SplitFrom(s, limit);
      var seps := SeparatorsFrom(s, limit);
      assert r[1..] == SplitFrom(s[e..], limit - 1);
      assert seps[1..] == SeparatorsFrom(s[e..], limit - 1);
    }
  }

  /** The first piece is where the string starts. */
  lemma SplitFromFirstIsPrefix(s: string, limit: nat)
    requires limit >= 1
    ensures var r := SplitFrom(s, limit); |r[0]| <= |s| && r[0] == s[..|r[0]|]
  {
  }

  /**
   * The pieces themselves: no piece but the last holds a comma, every piece
   * after a cut starts with something other than a space (the spaces went
   * into the separator), and the last piece holds a comma only when the
   * limit was reached.
   */
  lemma SplitFromPieces(s: string, limit: nat)
    requires limit >= 1
    ensures var r := SplitFrom(s, limit);
      && (forall j :: 0 <= j < |r| - 1 ==> NoComma(r[j]))
      && (forall j :: 1 <= j < |r| && r[j] != [] ==> r[j][0] != ' ')
      && (|r| < limit ==> NoComma(r[|r| - 1]))
  {
    SplitFromCommas(s, limit);
    SplitFromNoLeadingSpace(s, limit);
  }

  /** Only the last piece can hold a comma, and only once the limit is reached. */
  lemma {:induction false} SplitFromCommas(s: string, limit: nat)
    requires limit >= 1
    ensures var r := SplitFrom(s, limit);
      && (forall j :: 0 <= j < |r| - 1 ==> NoComma(r[j]))
      && (|r| < limit ==> NoComma(r[|r| - 1]))
    decreases |s|
  {
    if limit > 1 && IndexOf(s, ',') < |s| {
      var e := CutEnd(s);
      IndexOfFirst(s, ',');
      SplitFromCutStep(s, limit);
      SplitFromCommas(s[e..], limit - 1);
      var r := SplitFrom(s, limit);
      var t := SplitFrom(s[e..], limit - 1);
      forall j | 0 <= j < |r| - 1 ensures NoComma(r[j]) {
        if j > 0 {
          assert r[j] == t[j - 1];
        }
      }
      if |r| < limit {
        assert r[|t|] == t[|t| - 1];
      }
    } else if IndexOf(s, ',') == |s| {
      IndexOfFirst(s, ',');
      assert s[..|s|] == s;
    }
  }

  /** The spaces after a comma go with the separator, never into the next piece. */
  lemma {:induction false} SplitFromNoLeadingSpace(s: string, limit: nat)
    requires limit >= 1
    ensures var r := SplitFrom(s, limit);
      forall j :: 1 <= j < |r| && r[j] != [] ==> r[j][0] != ' '
    decreases |s|
  {
    if limit > 1 && IndexOf(s, ',') < |s| {
      var e := CutEnd(s);
      CutSeparator(s);
      SplitFromCutStep(s, limit);
      SplitFromNoLeadingSpace(s[e..], limit - 1);
      SplitFromFirstIsPrefix(s[e..], limit - 1);
      var r := SplitFrom(s, limit);
      var t := SplitFrom(s[e..], limit - 1);
      forall j | 1 <= j < |r| && r[j] != [] ensures r[j][0] != ' ' {
        assert r[j] == t[j - 1];
        if j == 1 {
          assert t[0] == s[e..][..|t[0]|];
        }
      }
    }
  }

  /** One cut: the first piece is what precedes the comma, the others are the pieces of the rest. */
  lemma SplitFromCutStep(s: string, limit: nat)
    requires limit > 1 && IndexOf(s, ',') < |s|
    ensures var r, t := SplitFrom(s, limit), SplitFrom(s[CutEnd(s)..], limit - 1);
      && |r| == |t| + 1
      && r[0] == s[..IndexOf(s, ',')]
      && (forall j :: 1 <= j < |r| ==> r[j] == t[j - 1])
  {
  }

  /**
   * The number of pieces of a non-empty string: one more than its commas,
   * capped at the limit.
   */
  lemma {:induction false} SplitFromCount(s: string, limit: nat)
    requires limit >= 1
    ensures |SplitFrom(s, limit)| == Min(limit, CommaCount(s) + 1)
    decreases |s|
  {
    if IndexOf(s, ',') == |s| {
      IndexOfFirst(s, ',');
      assert s[..|s|] == s;
      CommaCountNone(s);
    } else {
      CutCount(s);
      if limit > 1 {
        SplitFromCount(s[CutEnd(s)..], limit - 1);
      }
    }
  }

  /** The loader's test: the output splits into exactly four pieces iff it has at least three commas. */
  lemma FourFieldsIffThreeCommas(s: string)
    ensures |Split(s, 4)| == 4 <==> CommaCount(s) >= 3
  {
    if s != [] {
      SplitFromCount(s, 4);
    }
  }

  /**
   * The first piece is everything before the first comma, untrimmed: an
   * output starting "4326 ," yields the field "4326 ", not "4326".
   */
  lemma FirstPieceUntrimmed(p: string, q: string, limit: nat)
    requires limit >= 2 && NoComma(p)
    ensures Split(p + [','] + q, limit)[0] == p
  {
    IndexOfAfter(p, ',', q);
    assert (p + [','] + q)[..|p|] == p;
  }

  /**
   * One cut: a piece without commas, a comma and a rest that does not
   * start with a space split into the piece and the pieces of the rest.
   */
  lemma SplitFromStep(p: string, q: string, limit: nat)
    requires limit >= 2 && NoComma(p) && (q == [] || q[0] != ' ')
    ensures SplitFrom(p + [','] + q, limit) == [p] + SplitFrom(q, limit - 1)
  {
    var s := p + [','] + q;
    IndexOfAfter(p, ',', q);
    assert s[..|p|] == p;
    assert s[|p| + 1..] == q;
  }

  /** The last piece SplitFrom produces, reached cut by cut. */
  function LastPiece(s: string, limit: nat): string
    requires limit >= 1
    decreases |s|
  {
    if limit == 1 || IndexOf(s, ',') == |s| then s
    else LastPiece(s[CutEnd(s)..], limit - 1)
  }

  /** LastPiece is indeed the last of the pieces. */
  lemma {:induction false} LastPieceIsLast(s: string, limit: nat)
    requires limit >= 1
    ensures var r := SplitFrom(s, limit); r[|r| - 1] == LastPiece(s, limit)
    decreases |s|
  {
    if limit > 1 && IndexOf(s, ',') < |s| {
      SplitFromLastStep(s, limit);
      LastPieceIsLast(s[CutEnd(s)..], limit - 1);
    }
  }

  /**
   * Trailing empty pieces are kept: a string ending in a comma has an empty
   * last piece exactly when it has fewer commas than the limit, that is when
   * its final comma was cut rather than left inside the last piece.
   */
  lemma {:induction false} SplitFromTrailingComma(s: string, limit: nat)
    requires limit >= 1 && s != [] && s[|s| - 1] == ','
    ensures CommaCount(s) < limit ==> |LastPiece(s, limit)| == 0
    ensures CommaCount(s) >= limit ==> |LastPiece(s, limit)| > 0
    decreases |s|
  {
    IndexOfAtMost(s, ',', |s| - 1);
    CutCount(s);
    if limit > 1 {
      var e := CutEnd(s);
      if e < |s| {
        assert s[e..][|s[e..]| - 1] == s[|s| - 1];
        SplitFromTrailingComma(s[e..], limit - 1);
      }
    }
  }

  /** After a cut, the last piece is the last piece of the rest. */
  lemma SplitFromLastStep(s: string, limit: nat)
    requires limit > 1 && IndexOf(s, ',') < |s|
    ensures var r, t := SplitFrom(s, limit), SplitFrom(s[CutEnd(s)..], limit - 1);
      |r| == |t| + 1 && r[|r| - 1] == t[|t| - 1]
  {
  }

  /** A cut removes exactly one comma. */
  lemma CutCount(s: string)
    requires IndexOf(s, ',') < |s|
    ensures CommaCount(s) == 1 + CommaCount(s[CutEnd(s)..])
  {
    CutFacts(s);
  }

  /** The same for the whole split: "a,b,c," split with limit 4 ends with an empty piece. */
  lemma SplitKeepsTrailingEmpty(s: string, limit: nat)
    requires limit >= 1 && s != [] && s[|s| - 1] == ','
    ensures var r := Split(s, limit); r != [] && (r[|r| - 1] == [] <==> CommaCount(s) < limit)
  {
    SplitFromTrailingComma(s, limit);
    LastPieceIsLast(s, limit);
  }
}
