/**
 * Cards as the deck service hands them out, and what each card adds to a hand
 * before any Ace is downgraded.
 */
module Cards {

  /** A card: display code, rank ("ACE", "KING", ..., "2") and suit. Only the rank is scored. */
  datatype Card = Card(code: string, value: string, suit: string)

  /** The zero-value card that a failed draw hands back: every field empty. */
  const ZeroCard: Card := Card("", "", "")

  predicate IsAce(c: Card) {
    c.value == "ACE"
  }

  predicate IsFace(c: Card) {
    c.value == "KING" || c.value == "QUEEN" || c.value == "JACK"
  }

  predicate IsDigit(ch: char) {
    '0' <= ch <= '9'
  }

  /** A non-empty string of decimal digits only. */
  predicate IsDecimal(s: string) {
    |s| > 0 && forall i :: 0 <= i < |s| ==> IsDigit(s[i])
  }

  /** The value of a string of decimal digits, most significant digit first. */
  function DecimalValue(s: string): nat
    requires forall i :: 0 <= i < |s| ==> IsDigit(s[i])
  {
    if s == [] then 0
    else
      assert IsDigit(s[|s| - 1]);
      DecimalValue(s[..|s| - 1]) * 10 + (s[|s| - 1] as int - '0' as int)
  }

  /**
   * How a rank that is neither an Ace nor a face card is read as a decimal
   * integer: a decimal string gives its value, anything else (the empty rank of
   * the zero card included) leaves the target at 0.
   */
  function ParseRank(s: string): nat {
    if IsDecimal(s) then DecimalValue(s) else 0
  }

  /** The decimal rendering of a number, as the service spells number ranks ("2" ... "10"). */
  function DecimalString(n: nat): (r: string)
    ensures IsDecimal(r)
    ensures |r| == 1 <==> n < 10
  {
    if n < 10 then ['0' + n as char]
    else DecimalString(n / 10) + ['0' + (n % 10) as char]
  }

  /** What one card adds to the running sum: Ace 11, King/Queen/Jack 10, otherwise its parsed rank. */
  function Points(c: Card): nat {
    if IsAce(c) then 11
    else if IsFace(c) then 10
    else ParseRank(c.value)
  }

  /** Reading a rendered number back gives the number: number ranks score their face value. */
  lemma {:induction false} ParseRankRoundTrip(n: nat)
    ensures ParseRank(DecimalString(n)) == n
  {
    var s := DecimalString(n);
    if n >= 10 {
      var prefix := DecimalString(n / 10);
      ParseRankRoundTrip(n / 10);
      assert s[..|s| - 1] == prefix;
      assert DecimalValue(s) == DecimalValue(prefix) * 10 + n % 10;
    }
  }

  /** A card whose rank is the rendering of n scores n. */
  lemma NumberRankPoints(n: nat, code: string, suit: string)
    ensures Points(Card(code, DecimalString(n), suit)) == n
  {
    var s := DecimalString(n);
    assert IsDigit(s[0]);
    ParseRankRoundTrip(n);
  }

  /** The point table: Aces, faces, and ranks that are not decimal, the zero card's included. */
  lemma RankPoints(c: Card)
    ensures IsAce(c) ==> Points(c) == 11
    ensures IsFace(c) ==> Points(c) == 10
    ensures !IsAce(c) && !IsFace(c) && !IsDecimal(c.value) ==> Points(c) == 0
    ensures Points(ZeroCard) == 0
  {
  }
}
