/**
 * The turn logic of a game: the deal, the player's hit/stand loop, the
 * dealer's draw-to-17 loop and the settlement. Cards come from a supplied
 * sequence in the order the deck service would hand them out (a failed draw
 * appears there as the zero card); the player's commands come from a supplied
 * sequence of already-trimmed lines.
 */
module Turns {
  import opened Cards
  import opened Scoring
  import opened Settlement

  /** The two accepted spellings of "hit". */
  predicate IsHit(cmd: string) {
    cmd == "hit" || cmd == "хит"
  }

  /** The two accepted spellings of "stand". */
  predicate IsStand(cmd: string) {
    cmd == "stand" || cmd == "стоп"
  }

  /** The number of hit commands among `commands`. */
  function Hits(commands: seq<string>): (n: nat)
    ensures n <= |commands|
  {
    if commands == [] then 0
    else Hits(commands[..|commands| - 1]) + (if IsHit(commands[|commands| - 1]) then 1 else 0)
  }

  /** Reading one more command adds one hit exactly when that command is a hit. */
  lemma HitsAppend(commands: seq<string>, cmd: string)
    ensures Hits(commands + [cmd]) == Hits(commands) + (if IsHit(cmd) then 1 else 0)
  {
    assert (commands + [cmd])[..|commands|] == commands;
  }

  /**
   * The prompt advertises "stop", but only "stand" and its Russian synonym end the
   * turn: "stop" is rejected like any unknown command and adds no card.
   */
  lemma AdvertisedStopIsRejected(commands: seq<string>)
    ensures !IsHit("stop") && !IsStand("stop")
    ensures Hits(commands + ["stop"]) == Hits(commands)
  {
    HitsAppend(commands, "stop");
  }

  /** How the player's turn ended. */
  datatype PlayerEnd =
    | Busted   // the hand went over 21
    | Stood    // the player stood
    | NoCards  // a hit found the card source empty
    | NoInput  // the commands ran out

  /**
   * Every card of `hand` from position `start` on was taken while the hand
   * before it scored below `bound`.
   */
  ghost predicate DrewBelow(hand: seq<Card>, start: nat, bound: int) {
    forall k {:trigger Score(hand[..k])} :: start <= k < |hand| ==> Score(hand[..k]) < bound
  }

  /** How the dealer's turn ended. */
  datatype DealerEnd =
    | Stands         // the dealer reached 17 or more
    | DealerNoCards  // the card source ran out below 17

  /** Where a whole game stopped. */
  datatype Finish =
    | BustBeforeDealer          // the player busted; the dealer never played
    | Settled(outcome: Outcome) // the player stood and the dealer reached 17
    | DealOutOfCards            // fewer than four cards for the deal
    | PlayerOutOfCards          // a hit found no card left
    | DealerOutOfCards          // the dealer was below 17 with no card left
    | InputExhausted            // the commands ran out during the player's turn

  datatype Game = Game(player: seq<Card>, dealer: seq<Card>, finish: Finish, drawn: nat, read: nat)

  /**
   * The player's loop: score the hand and stop on a bust; otherwise read one
   * command. A hit appends the next card, a stand ends the turn, anything else
   * is rejected and changes nothing. `drawn` cards and `read` commands are used.
   */
  method PlayerPhase(hand: seq<Card>, cards: seq<Card>, commands: seq<string>)
    returns (final: seq<Card>, drawn: nat, read: nat, end: PlayerEnd)
    ensures drawn <= |cards| && read <= |commands|
    ensures final == hand + cards[..drawn]
    ensures drawn == Hits(commands[..read])
    ensures DrewBelow(final, |hand|, 22)
    ensures forall i :: 0 <= i < read && !(end == Stood && i == read - 1) ==> !IsStand(commands[i])
    ensures end == Busted <==> Score(final) > 21
    ensures end == Busted ==> read == 0 || IsHit(commands[read - 1])
    ensures end == Stood ==> 0 < read && IsStand(commands[read - 1])
    ensures end == NoInput ==> read == |commands|
    ensures end == NoCards ==> read < |commands| && IsHit(commands[read]) && drawn == |cards|
  {
    final, drawn, read := hand, 0, 0;
    while true
      invariant drawn <= |cards| && read <= |commands|
      invariant final == hand + cards[..drawn]
      invariant drawn == Hits(commands[..read])
      invariant DrewBelow(final, |hand|, 22)
      invariant forall i :: 0 <= i < read ==> !IsStand(commands[i])
      invariant read == 0 || IsHit(commands[read - 1]) || Score(final) <= 21
      decreases |commands| - read
    {
      var total := HandValue(final);
      if total > 21 {
        end := Busted;
        return;
      }
      if read == |commands| {
        end := NoInput;
        return;
      }
      var cmd := commands[read];
      assert commands[..read + 1] == commands[..read] + [cmd];
      HitsAppend(commands[..read], cmd);
      if IsHit(cmd) {
        if drawn == |cards| {
          end := NoCards;
          return;
        }
        var next := final + [cards[drawn]];
        assert next[..|final|] == final;
        assert forall k :: |hand| <= k < |final| ==> next[..k] == final[..k];
        assert cards[..drawn + 1] == cards[..drawn] + [cards[drawn]];
        final := next;
        drawn := drawn + 1;
      } else if IsStand(cmd) {
        read := read + 1;
        end := Stood;
        return;
      }
      read := read + 1;
    }
  }

  /**
   * The dealer's loop: score the hand and stop at 17 or more; otherwise take
   * the next card. Every card was taken while the dealer's total was below 17.
   */
  method DealerPhase(hand: seq<Card>, cards: seq<Card>)
    returns (final: seq<Card>, drawn: nat, end: DealerEnd)
    ensures drawn <= |cards|
    ensures final == hand + cards[..drawn]
    ensures DrewBelow(final, |hand|, 17)
    ensures end == Stands <==> Score(final) >= 17
    ensures end == DealerNoCards ==> drawn == |cards|
  {
    final, drawn := hand, 0;
    while true
      invariant drawn <= |cards|
      invariant final == hand + cards[..drawn]
      invariant DrewBelow(final, |hand|, 17)
      decreases |cards| - drawn
    {
      var dv := HandValue(final);
      if dv >= 17 {
        end := Stands;
        return;
      }
      if drawn == |cards| {
        end := DealerNoCards;
        return;
      }
      var next := final + [cards[drawn]];
      assert next[..|final|] == final;
      assert forall k :: |hand| <= k < |final| ==> next[..k] == final[..k];
      assert cards[..drawn + 1] == cards[..drawn] + [cards[drawn]];
      final := next;
      drawn := drawn + 1;
    }
  }

  /**
   * What follows a stand: the dealer's turn, then the two totals settled. The
   * game settles only when the dealer reached 17; a card source that runs dry
   * first leaves it unsettled.
   */
  method DealerTurnThenSettle(player: seq<Card>, dealer: seq<Card>, rest: seq<Card>)
    returns (finalDealer: seq<Card>, drawn: nat, finish: Finish)
    ensures drawn <= |rest|
    ensures finalDealer == dealer + rest[..drawn]
    ensures DrewBelow(finalDealer, |dealer|, 17)
    ensures finish == DealerOutOfCards || finish.Settled?
    ensures finish == DealerOutOfCards ==> drawn == |rest| && Score(finalDealer) < 17
    ensures finish.Settled? ==>
              && Score(finalDealer) >= 17
              && finish.outcome == Settle(Score(player), Score(finalDealer))
  {
    var dealerEnd;
    finalDealer, drawn, dealerEnd := DealerPhase(dealer, rest);
    if dealerEnd == DealerNoCards {
      finish := DealerOutOfCards;
      return;
    }
    var pt := HandValue(player);
    var dt := HandValue(finalDealer);
    finish := Settled(Settle(pt, dt));
  }

  /**
   * A whole game: two cards to the player, two to the dealer, the player's turn,
   * then (only after a stand) the dealer's turn and the settlement of the two totals.
   */
  method Play(cards: seq<Card>, commands: seq<string>) returns (g: Game)
    ensures g.drawn <= |cards| && g.read <= |commands|
    ensures g.finish == DealOutOfCards <==> |cards| < 4
    ensures |cards| < 4 ==>
              g == Game(cards[..Min(2, |cards|)], cards[Min(2, |cards|)..], DealOutOfCards, |cards|, 0)
    ensures |cards| >= 4 ==>
              && 2 <= |g.player| && 2 + |g.player| <= g.drawn
              && g.player == cards[..2] + cards[4..2 + |g.player|]
              && g.dealer == cards[2..4] + cards[2 + |g.player|..g.drawn]
              && |g.player| - 2 == Hits(commands[..g.read])
    ensures forall i :: 0 <= i < g.read - (if g.finish.Settled? || g.finish == DealerOutOfCards then 1 else 0) ==>
              !IsStand(commands[i])
    ensures g.finish == BustBeforeDealer ==> Score(g.player) > 21 && |g.dealer| == 2
    ensures g.finish == BustBeforeDealer ==> g.read == 0 || IsHit(commands[g.read - 1])
    ensures g.finish == InputExhausted ==> g.read == |commands| && Score(g.player) <= 21 && |g.dealer| == 2
    ensures g.finish == PlayerOutOfCards ==>
              && g.drawn == |cards| && Score(g.player) <= 21 && |g.dealer| == 2
              && g.read < |commands| && IsHit(commands[g.read])
    ensures g.finish == DealerOutOfCards ==> g.drawn == |cards| && Score(g.dealer) < 17
    ensures g.finish.Settled? || g.finish == DealerOutOfCards || |g.dealer| > 2 ==>
              0 < g.read && IsStand(commands[g.read - 1]) && Score(g.player) <= 21
    ensures DrewBelow(g.dealer, 2, 17)
    ensures DrewBelow(g.player, 2, 22)
    ensures g.finish.Settled? ==>
              && Score(g.dealer) >= 17
              && g.finish.outcome == Settle(Score(g.player), Score(g.dealer))
              && g.finish.outcome != PlayerBust
  {
    if |cards| < 4 {
      var split := Min(2, |cards|);
      return Game(cards[..split], cards[split..], DealOutOfCards, |cards|, 0);
    }
    var player, drawnP, read, playerEnd := PlayerPhase(cards[..2], cards[4..], commands);
    var dealer := cards[2..4];
    if playerEnd != Stood {
      var finish := match playerEnd
        case Busted => BustBeforeDealer
        case NoCards => PlayerOutOfCards
        case _ => InputExhausted;
      assert |dealer| == 2 && !finish.Settled? && finish != DealerOutOfCards;
      return Game(player, dealer, finish, 4 + drawnP, read);
    }
    assert 0 < read && IsStand(commands[read - 1]) && Score(player) <= 21;
    var finalDealer, drawnD, finish := DealerTurnThenSettle(player, dealer, cards[4 + drawnP..]);
    g := Game(player, finalDealer, finish, 4 + drawnP + drawnD, read);
  }
}

/** A client of the game's contract: a player on 12 hits, draws a Queen and busts; the dealer never plays. */
method BustScenario() {
  var k := Cards.Card("KS", "KING", "SPADES");
  var two := Cards.Card("2H", "2", "HEARTS");
  var ten := Cards.Card("0D", "10", "DIAMONDS");
  var five := Cards.Card("5C", "5", "CLUBS");
  var q := Cards.Card("QH", "QUEEN", "HEARTS");
  var cards := [k, two, ten, five, q];
  var commands := ["hit", "stand"];
  var g := Turns.Play(cards, commands);
  Scoring.ScoreExamples();
  assert commands[..0] == [] && commands[..1] == ["hit"] && ["hit"][..0] == [];
  assert Turns.Hits(commands[..0]) == 0 && Turns.Hits(commands[..1]) == 1;
  assert cards[..2] == [k, two] && cards[4..5] == [q];
  assert |g.player| == 2 || g.player == [k, two, q];
  assert g.read > 0 ==> |g.player| == 3;
  assert g.finish == Turns.BustBeforeDealer;
}

/**
 * A client of the game's contract: the player stands on 18, the dealer on 15
 * must draw, takes a 4 and stands on 19, and the dealer wins on the higher total.
 */
method StandScenario() {
  var tenS := Cards.Card("0S", "10", "SPADES");
  var eight := Cards.Card("8H", "8", "HEARTS");
  var tenD := Cards.Card("0D", "10", "DIAMONDS");
  var five := Cards.Card("5C", "5", "CLUBS");
  var four := Cards.Card("4S", "4", "SPADES");
  var cards := [tenS, eight, tenD, five, four];
  var commands := ["stand"];
  var g := Turns.Play(cards, commands);
  Scoring.ScoreStandExamples();
  assert commands[..0] == [] && commands[..1] == commands;
  assert !Turns.IsHit("stand") && Turns.IsStand("stand");
  assert Turns.Hits(commands[..0]) == 0 && Turns.Hits(commands[..1]) == 0;
  assert g.player == [tenS, eight];
  assert cards[2..4] == [tenD, five] && cards[4..4] == [] && cards[4..5] == [four];
  assert g.drawn == 4 ==> g.dealer == [tenD, five];
  assert g.drawn == 5 ==> g.dealer == [tenD, five, four];
  assert g.finish == Turns.Settled(Settlement.DealerCloser);
}
