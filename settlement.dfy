/**
 * Settlement: the final totals of player and dealer are classified into one
 * of five outcomes, the checks taken in a fixed order.
 */
module Settlement {

  datatype Outcome =
    | PlayerBust    // the player is over 21: the player loses
    | DealerBust    // the dealer is over 21: the player wins
    | PlayerCloser  // the player is nearer 21: the player wins
    | DealerCloser  // the dealer is nearer 21: the player loses
    | Push          // equal totals: a tie

  /** The player's bust first, then the dealer's, then the higher total, else a tie. */
  function Settle(pt: int, dt: int): Outcome {
    if pt > 21 then PlayerBust
    else if dt > 21 then DealerBust
    else if pt > dt then PlayerCloser
    else if pt < dt then DealerCloser
    else Push
  }

  predicate PlayerWins(o: Outcome) {
    o == DealerBust || o == PlayerCloser
  }

  predicate PlayerLoses(o: Outcome) {
    o == PlayerBust || o == DealerCloser
  }

  /** Each outcome holds exactly under its own condition on the two totals. */
  lemma SettleClassifies(pt: int, dt: int)
    ensures Settle(pt, dt) == PlayerBust <==> pt > 21
    ensures Settle(pt, dt) == DealerBust <==> pt <= 21 && dt > 21
    ensures Settle(pt, dt) == PlayerCloser <==> pt <= 21 && dt <= 21 && pt > dt
    ensures Settle(pt, dt) == DealerCloser <==> pt <= 21 && dt <= 21 && pt < dt
    ensures Settle(pt, dt) == Push <==> pt == dt && pt <= 21
  {
  }

  /**
   * The player wins exactly when not bust and the dealer is bust or lower, loses
   * exactly when bust or lower than a dealer who is not bust; never both.
   */
  lemma SettleWinLoss(pt: int, dt: int)
    ensures PlayerWins(Settle(pt, dt)) <==> pt <= 21 && (dt > 21 || pt > dt)
    ensures PlayerLoses(Settle(pt, dt)) <==> pt > 21 || (dt <= 21 && pt < dt)
    ensures !(PlayerWins(Settle(pt, dt)) && PlayerLoses(Settle(pt, dt)))
  {
  }

  /** When both are bust the player's bust is checked first, so the player loses. */
  lemma PlayerBustDecidesFirst(pt: int, dt: int)
    requires pt > 21 && dt > 21
    ensures Settle(pt, dt) == PlayerBust
  {
  }

  /** Worked settlements: 18 against 19 loses, 20 against 20 ties, 20 against a dealer's 22 wins. */
  lemma SettleExamples()
    ensures Settle(18, 19) == DealerCloser
    ensures Settle(20, 20) == Push
    ensures Settle(20, 22) == DealerBust
  {
  }
}
