/**
 * Hand scoring: every card adds its points with Aces at 11, then Aces are
 * downgraded to 1, one at a time, while the total is over 21.
 */
module Scoring {
  import opened Cards

  /** The total with every Ace counted as 11. */
  function NaiveSum(hand: seq<Card>): nat {
    if hand == [] then 0 else Points(hand[0]) + NaiveSum(hand[1..])
  }

  /** The number of Aces in the hand. */
  function AceCount(hand: seq<Card>): nat {
    if hand == [] then 0 else (if IsAce(hand[0]) then 1 else 0) + AceCount(hand[1..])
  }

  /** Adding a card to a hand adds its points to the naive total and counts it if it is an Ace. */
  lemma {:induction false} AddCard(hand: seq<Card>, c: Card)
    ensures NaiveSum(hand + [c]) == NaiveSum(hand) + Points(c)
    ensures AceCount(hand + [c]) == AceCount(hand) + (if IsAce(c) then 1 else 0)
  {
    if hand != [] {
      assert (hand + [c])[1..] == hand[1..] + [c];
      AddCard(hand[1..], c);
    }
  }

  function Min(a: int, b: int): int {
    if a <= b then a else b
  }

  /**
   * How many of `aces` Aces must drop from 11 to 1 for a naive total of `naive`:
   * the fewest that bring the total to 21 or below, or all of them when even
   * that does not suffice. ((naive - 12) / 10 is the ceiling of (naive - 21) / 10.)
   */
  function Downgrades(naive: int, aces: nat): (m: nat)
    ensures m <= aces
  {
    if naive <= 21 then 0 else Min(aces, (naive - 12) / 10)
  }

  /** The value of a hand: the naive total less 10 for every downgraded Ace. */
  function Score(hand: seq<Card>): int {
    NaiveSum(hand) - 10 * Downgrades(NaiveSum(hand), AceCount(hand))
  }

  /**
   * Scores a hand the way the game does: one pass adding points and counting
   * Aces, then one loop taking 10 off per Ace while the sum is over 21.
   */
  method HandValue(hand: seq<Card>) returns (sum: int)
    ensures sum == Score(hand)
  {
    sum := 0;
    var aces := 0;
    for i := 0 to |hand|
      invariant sum == NaiveSum(hand[..i])
      invariant aces == AceCount(hand[..i])
    {
      assert hand[..i + 1] == hand[..i] + [hand[i]];
      AddCard(hand[..i], hand[i]);
      var c := hand[i];
      if IsAce(c) {
        sum := sum + 11;
        aces := aces + 1;
      } else if IsFace(c) {
        sum := sum + 10;
      } else {
        sum := sum + ParseRank(c.value);
      }
    }
    assert hand[..|hand|] == hand;
    ghost var naive, total := sum, aces;
    while sum > 21 && aces > 0
      invariant 0 <= aces <= total
      invariant sum == naive - 10 * (total - aces)
      invariant aces < total ==> sum > 11
    {
      sum := sum - 10;
      aces := aces - 1;
    }
    DowngradesIsMinimal(naive, total, total - aces);
  }

  /**
   * Downgrades picks exactly the greedy count: k is the count if and only if
   * the k-th downgrade was still needed (the total before it was over 21) and
   * stopping at k is allowed (the total is at most 21, or no Ace is left).
   */
  lemma DowngradesIsMinimal(naive: int, aces: nat, k: nat)
    requires k <= aces
    ensures Downgrades(naive, aces) == k <==>
              (k > 0 ==> naive - 10 * (k - 1) > 21) && (k < aces ==> naive - 10 * k <= 21)
  {
  }

  /** Every Ace contributes 11 to the naive total. */
  lemma {:induction false} NaiveSumCoversAces(hand: seq<Card>)
    ensures NaiveSum(hand) >= 11 * AceCount(hand)
  {
    if hand != [] {
      NaiveSumCoversAces(hand[1..]);
    }
  }

  /**
   * The score is the naive total less 10 for m of the Aces, 0 <= m <= the number
   * of Aces, so each Ace ends up counting 11 or 1; the score is never negative.
   */
  lemma ScoreDecomposes(hand: seq<Card>)
    ensures exists m :: 0 <= m <= AceCount(hand) && Score(hand) == NaiveSum(hand) - 10 * m
    ensures NaiveSum(hand) - 10 * AceCount(hand) <= Score(hand) <= NaiveSum(hand)
    ensures Score(hand) >= AceCount(hand) >= 0
  {
    var m := Downgrades(NaiveSum(hand), AceCount(hand));
    assert Score(hand) == NaiveSum(hand) - 10 * m;
    NaiveSumCoversAces(hand);
  }

  /** A hand without Aces scores its plain sum of points. */
  lemma ScoreWithoutAces(hand: seq<Card>)
    requires AceCount(hand) == 0
    ensures Score(hand) == NaiveSum(hand)
  {
  }

  /** A bust hand has had every Ace downgraded; a downgrade happens only when it is needed. */
  lemma ScoreDowngradesGreedily(hand: seq<Card>)
    ensures Score(hand) > 21 ==> Downgrades(NaiveSum(hand), AceCount(hand)) == AceCount(hand)
    ensures Downgrades(NaiveSum(hand), AceCount(hand)) > 0 ==> Score(hand) + 10 > 21
  {
  }

  /**
   * Among the totals the Aces allow (naive - 10k for 0 <= k <= aces), the score
   * is the largest one not over 21, or the smallest of all when every one is over 21.
   */
  lemma ScoreIsBestTotal(hand: seq<Card>, k: nat)
    requires k <= AceCount(hand)
    ensures NaiveSum(hand) - 10 * k <= 21 ==> NaiveSum(hand) - 10 * k <= Score(hand) <= 21
    ensures Score(hand) > 21 ==> Score(hand) <= NaiveSum(hand) - 10 * k
  {
  }

  /** Worked hands: two Aces make 12, Ace and King make 21, three face cards make 30, King-2-Queen busts at 22. */
  lemma ScoreExamples()
    ensures Score([Card("AS", "ACE", "SPADES"), Card("AH", "ACE", "HEARTS")]) == 12
    ensures Score([Card("AS", "ACE", "SPADES"), Card("KH", "KING", "HEARTS")]) == 21
    ensures Score([Card("KS", "KING", "SPADES"), Card("QH", "QUEEN", "HEARTS"), Card("JD", "JACK", "DIAMONDS")]) == 30
    ensures Score([Card("KS", "KING", "SPADES"), Card("2H", "2", "HEARTS"), Card("QH", "QUEEN", "HEARTS")]) == 22
  {
    var aces := [Card("AS", "ACE", "SPADES"), Card("AH", "ACE", "HEARTS")];
    assert aces[1..][1..] == [];
    assert NaiveSum(aces) == 22 && AceCount(aces) == 2;
    var blackjack := [Card("AS", "ACE", "SPADES"), Card("KH", "KING", "HEARTS")];
    assert blackjack[1..][1..] == [];
    assert NaiveSum(blackjack) == 21;
    var faces := [Card("KS", "KING", "SPADES"), Card("QH", "QUEEN", "HEARTS"), Card("JD", "JACK", "DIAMONDS")];
    assert faces[1..][1..][1..] == [];
    assert NaiveSum(faces[1..][1..]) == 10 && AceCount(faces[1..][1..]) == 0;
    assert NaiveSum(faces) == 30 && AceCount(faces) == 0;
    var bust := [Card("KS", "KING", "SPADES"), Card("2H", "2", "HEARTS"), Card("QH", "QUEEN", "HEARTS")];
    assert "2"[..0] == [] && Points(bust[1]) == 2;
    assert bust[1..][1..][1..] == [];
    assert NaiveSum(bust[1..][1..]) == 10 && AceCount(bust[1..][1..]) == 0;
    assert NaiveSum(bust) == 22 && AceCount(bust) == 0;
  }

  /** Worked hands for a stand at 18 against a dealer on 15 who draws a 4: 10-8 is 18, 10-5 is 15, 10-5-4 is 19. */
  lemma ScoreStandExamples()
    ensures Score([Card("0S", "10", "SPADES"), Card("8H", "8", "HEARTS")]) == 18
    ensures Score([Card("0D", "10", "DIAMONDS"), Card("5C", "5", "CLUBS")]) == 15
    ensures Score([Card("0D", "10", "DIAMONDS"), Card("5C", "5", "CLUBS"), Card("4S", "4", "SPADES")]) == 19
  {
    assert "10"[..1] == "1" && "1"[..0] == [];
    assert "4"[..0] == [] && "5"[..0] == [] && "8"[..0] == [];
    var eighteen := [Card("0S", "10", "SPADES"), Card("8H", "8", "HEARTS")];
    assert Points(eighteen[0]) == 10 && Points(eighteen[1]) == 8;
    assert eighteen[1..][1..] == [];
    assert NaiveSum(eighteen) == 18 && AceCount(eighteen) == 0;
    var fifteen := [Card("0D", "10", "DIAMONDS"), Card("5C", "5", "CLUBS")];
    assert Points(fifteen[0]) == 10 && Points(fifteen[1]) == 5;
    assert fifteen[1..][1..] == [];
    assert NaiveSum(fifteen) == 15 && AceCount(fifteen) == 0;
    var four := Card("4S", "4", "SPADES");
    assert Points(four) == 4 && !IsAce(four);
    AddCard(fifteen, four);
  }
}
