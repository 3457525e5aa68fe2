/** The placing suffix of the fencer page: its own copy of the ordinal rule
    that the placing formatter also implements. */
module FencerDetail {
  import Helpers

  /** getPlacingSuffix: 'th' throughout the teens (11, 12, 13 of every
      hundred), otherwise 'st', 'nd', 'rd' for a last digit of 1, 2, 3 and
      'th' for every other last digit. */
  function PlacingSuffix(placing: nat): (r: string)
    ensures r in {"st", "nd", "rd", "th"}
    ensures placing % 100 in {11, 12, 13} ==> r == "th"
    ensures placing % 100 !in {11, 12, 13} ==>
              && (placing % 10 == 1 <==> r == "st")
              && (placing % 10 == 2 <==> r == "nd")
              && (placing % 10 == 3 <==> r == "rd")
    ensures placing % 10 !in {1, 2, 3} ==> r == "th"
  {
    if placing % 10 == 1 && placing % 100 != 11 then "st"
    else if placing % 10 == 2 && placing % 100 != 12 then "nd"
    else if placing % 10 == 3 && placing % 100 != 13 then "rd"
    else "th"
  }

  /** The suffix depends only on the placing's last two digits. */
  lemma SuffixByLastTwoDigits(p: nat, q: nat)
    requires p % 100 == q % 100
    ensures PlacingSuffix(p) == PlacingSuffix(q)
  {
    LastDigitOfLastTwo(p);
    LastDigitOfLastTwo(q);
  }

  /** The last digit is the last digit of the last two digits. */
  lemma LastDigitOfLastTwo(p: nat)
    ensures p % 10 == (p % 100) % 10
  {
    var k, r := p / 100, p % 100;
    var j, d := r / 10, r % 10;
    assert p == 100 * k + r;
    assert r == 10 * j + d;
    LastDigit(p, 10 * k + j, d);
  }

  lemma LastDigit(p: int, m: int, d: int)
    requires 0 <= d < 10 && p == 10 * m + d
    ensures p % 10 == d
  {
  }

  /** Placings a hundred apart get the same suffix. */
  lemma SuffixPeriodic(p: nat)
    ensures PlacingSuffix(p + 100) == PlacingSuffix(p)
  {
    SuffixByLastTwoDigits(p + 100, p);
  }

  /** The two copies agree: for every placing the formatter gives the
      number followed by this suffix. */
  lemma FormatPlacingHasSuffix(p: nat)
    requires p > 0
    ensures Helpers.FormatPlacing(p) == Helpers.Decimal(p) + PlacingSuffix(p)
  {
  }
}
