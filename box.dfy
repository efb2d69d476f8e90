/**
 * One box of the page: the list of balls it draws and which of them are
 * highlighted or dimmed once a colour has been observed.
 *
 * The page shuffles the list with a random comparator before drawing it, so
 * the order of the balls is not part of this model: a ball list is any
 * arrangement of `redCount` reds and `blueCount` blues.
 */
module Box {
  import opened Wrappers
  import opened Types

  /** `Array(n)` throws a RangeError unless n is a whole number below 2^32. */
  const ArrayLengthLimit: int := 0x1_0000_0000

  predicate ValidLength(n: int) {
    0 <= n < ArrayLengthLimit
  }

  /** `Array(n).fill(c)`: n balls of colour c. */
  function Fill(n: nat, c: BallColor): (r: seq<BallColor>)
    requires ValidLength(n)
    ensures |r| == n
    ensures forall i :: 0 <= i < |r| ==> r[i] == c
  {
    if n == 0 then [] else [c] + Fill(n - 1, c)
  }

  /**
   * The list before it is shuffled: the reds, then the blues. `None` stands
   * for the RangeError that `Array(n)` throws for a count that is not a
   * valid array length, which stops the box from being drawn. Memory is
   * unbounded here, and so is the length of the combined list.
   */
  function UnshuffledBalls(redCount: int, blueCount: int): (r: Option<seq<BallColor>>)
    ensures r.Some? <==> ValidLength(redCount) && ValidLength(blueCount)
    ensures r.Some? ==> |r.value| == redCount + blueCount
  {
    if ValidLength(redCount) && ValidLength(blueCount) then
      Some(Fill(redCount, Red) + Fill(blueCount, Blue))
    else
      None
  }

  /** `balls` is one of the orders the shuffle can produce. */
  predicate IsBallList(balls: seq<BallColor>, redCount: int, blueCount: int) {
    var unshuffled := UnshuffledBalls(redCount, blueCount);
    unshuffled.Some? && multiset(balls) == multiset(unshuffled.value)
  }

  /** A ball is highlighted when its colour is the observed one. */
  predicate Highlight(evidence: Option<BallColor>, color: BallColor) {
    evidence == Some(color)
  }

  /** A ball is dimmed when a colour has been observed and it is not that colour. */
  predicate Dim(evidence: Option<BallColor>, color: BallColor) {
    evidence != None && evidence != Some(color)
  }

  /** What the box hands each ball it draws. */
  datatype BallView = BallView(color: BallColor, highlight: bool, dim: bool)

  /**
   * `balls.map(...)`: each ball keeps its colour; with nothing observed no
   * ball carries a flag, and with c observed every ball carries exactly one,
   * the highlight exactly when it is c. What the flags amount to over the
   * whole box is stated by HighlightedCountIsMultiplicity, FlagsPartition and
   * NoDimWithoutEvidence below.
   */
  function Render(balls: seq<BallColor>, evidence: Option<BallColor>): (r: seq<BallView>)
    ensures |r| == |balls| && forall i :: 0 <= i < |r| ==> r[i].color == balls[i]
    ensures evidence == None ==> forall i :: 0 <= i < |r| ==> !r[i].highlight && !r[i].dim
    ensures evidence.Some? ==>
              forall i :: 0 <= i < |r| ==>
                (r[i].highlight <==> balls[i] == evidence.value) && (r[i].dim <==> !r[i].highlight)
  {
    seq(|balls|, i requires 0 <= i < |balls| =>
      BallView(balls[i], Highlight(evidence, balls[i]), Dim(evidence, balls[i])))
  }

  /** How many of the drawn balls are highlighted. */
  function HighlightedCount(views: seq<BallView>): nat {
    if views == [] then 0 else (if views[0].highlight then 1 else 0) + HighlightedCount(views[1..])
  }

  /** How many of the drawn balls are dimmed. */
  function DimmedCount(views: seq<BallView>): nat {
    if views == [] then 0 else (if views[0].dim then 1 else 0) + DimmedCount(views[1..])
  }

  // ---------------------------------------------------------------------
  // The ball list
  // ---------------------------------------------------------------------

  lemma {:induction false} FillMultiset(n: nat, c: BallColor, other: BallColor)
    requires ValidLength(n) && other != c
    ensures multiset(Fill(n, c))[c] == n && multiset(Fill(n, c))[other] == 0
  {
    if n > 0 {
      assert multiset(Fill(n, c)) == multiset{c} + multiset(Fill(n - 1, c));
      FillMultiset(n - 1, c, other);
    }
  }

  /**
   * Whatever the shuffle does, the box holds redCount reds and blueCount
   * blues, and nothing else; a list exists only for valid array lengths.
   */
  lemma BallListContents(balls: seq<BallColor>, redCount: int, blueCount: int)
    requires IsBallList(balls, redCount, blueCount)
    ensures ValidLength(redCount) && ValidLength(blueCount)
    ensures |balls| == redCount + blueCount
    ensures multiset(balls)[Red] == redCount && multiset(balls)[Blue] == blueCount
  {
    FillMultiset(redCount, Red, Blue);
    FillMultiset(blueCount, Blue, Red);
    assert |multiset(balls)| == |multiset(UnshuffledBalls(redCount, blueCount).value)|;
  }

  /** For valid lengths the unshuffled list is itself one of the possible lists. */
  lemma UnshuffledIsBallList(redCount: int, blueCount: int)
    requires ValidLength(redCount) && ValidLength(blueCount)
    ensures IsBallList(UnshuffledBalls(redCount, blueCount).value, redCount, blueCount)
  {
  }

  /** A count of 2^32 or more (or below 0) leaves no ball list: the box throws. */
  lemma OversizedCountThrows(redCount: int, blueCount: int, balls: seq<BallColor>)
    requires !ValidLength(redCount) || !ValidLength(blueCount)
    ensures UnshuffledBalls(redCount, blueCount) == None
    ensures !IsBallList(balls, redCount, blueCount)
  {
  }

  // ---------------------------------------------------------------------
  // Highlight and dim
  // ---------------------------------------------------------------------

  /** Before any observation no ball is highlighted or dimmed. */
  lemma NoEvidenceNoFlags(color: BallColor)
    ensures !Highlight(None, color) && !Dim(None, color)
  {
  }

  /** After observing c, a ball is highlighted iff it is c, dimmed iff it is not: exactly one flag. */
  lemma EvidenceFlags(c: BallColor, color: BallColor)
    ensures Highlight(Some(c), color) <==> color == c
    ensures Dim(Some(c), color) <==> color != c
    ensures Highlight(Some(c), color) != Dim(Some(c), color)
  {
  }

  lemma {:induction false} HighlightedCountIsMultiplicity(balls: seq<BallColor>, evidence: Option<BallColor>)
    ensures HighlightedCount(Render(balls, evidence)) ==
              match evidence
              case None => 0
              case Some(c) => multiset(balls)[c]
  {
    if balls != [] {
      assert Render(balls, evidence)[1..] == Render(balls[1..], evidence);
      assert balls == [balls[0]] + balls[1..];
      assert multiset(balls) == multiset{balls[0]} + multiset(balls[1..]);
      HighlightedCountIsMultiplicity(balls[1..], evidence);
    }
  }

  lemma {:induction false} FlagsPartition(balls: seq<BallColor>, c: BallColor)
    ensures HighlightedCount(Render(balls, Some(c))) + DimmedCount(Render(balls, Some(c))) == |balls|
  {
    if balls != [] {
      assert Render(balls, Some(c))[1..] == Render(balls[1..], Some(c));
      FlagsPartition(balls[1..], c);
    }
  }

  /**
   * With red observed, exactly redCount balls are highlighted and blueCount
   * dimmed; with blue, the other way round; with nothing, none of either.
   */
  lemma HighlightedBalls(balls: seq<BallColor>, redCount: int, blueCount: int, evidence: Option<BallColor>)
    requires IsBallList(balls, redCount, blueCount)
    ensures var views := Render(balls, evidence);
            match evidence
            case None => HighlightedCount(views) == 0 && DimmedCount(views) == 0
            case Some(Red) => HighlightedCount(views) == redCount && DimmedCount(views) == blueCount
            case Some(Blue) => HighlightedCount(views) == blueCount && DimmedCount(views) == redCount
  {
    BallListContents(balls, redCount, blueCount);
    HighlightedCountIsMultiplicity(balls, evidence);
    if evidence.Some? {
      FlagsPartition(balls, evidence.value);
    } else {
      NoDimWithoutEvidence(balls);
    }
  }

  lemma {:induction false} NoDimWithoutEvidence(balls: seq<BallColor>)
    ensures DimmedCount(Render(balls, None)) == 0
  {
    if balls != [] {
      assert Render(balls, None)[1..] == Render(balls[1..], None);
      NoDimWithoutEvidence(balls[1..]);
    }
  }
}
