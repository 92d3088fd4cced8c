/**
 * Loan card numbers (LoanerServiceImpl.makeCardNumber).
 *
 * One attempt prints, in this order: the digit count of the family id, the
 * family id's leading digit, its last digit, the product id's last digit, the
 * guardian id's last digit, the marker 3, nine random digits and a check value.
 * The check value is `10 - sum % 10`, so it lies in 1 .. 10 and is printed as
 * the two characters "10" when the sum is already a multiple of ten. The last
 * family digit is printed but not added to the sum. The retry loop keeps the
 * family id that the digit-count loop reduced to its leading digit, so every
 * attempt after the first starts with "1", leading digit, leading digit.
 *
 * `java.util.Random` is replaced by `draws`: draws[k] holds the nine digits of
 * attempt k. The card numbers already held by loans are passed in as `issued`.
 */
module CardNumber {
  import opened Results
  import opened Decimal

  /** The fixed marker digit printed after the guardian digit. */
  const Marker: nat := 3

  /** Nine digits, each what `Random.nextInt(10)` may return. */
  predicate IsDraw(draw: seq<nat>) {
    |draw| == 9 && forall i :: 0 <= i < |draw| ==> draw[i] < 10
  }

  /** A random digit counts twice at an even position and once at an odd one. */
  function RandomWeight(i: nat): nat {
    if i % 2 == 0 then 2 else 1
  }

  /** Sum of the random digits, each weighted by its position. */
  function WeightedSum(draw: seq<nat>): nat
    decreases |draw|
  {
    if draw == [] then 0
    else WeightedSum(draw[..|draw| - 1]) + RandomWeight(|draw| - 1) * draw[|draw| - 1]
  }

  /** The random digits as printed, one character each. */
  function DigitsText(draw: seq<nat>): (s: string)
    requires forall i :: 0 <= i < |draw| ==> draw[i] < 10
    ensures |s| == |draw|
    ensures forall i :: 0 <= i < |draw| ==> s[i] == DigitChar(draw[i])
    decreases |draw|
  {
    if draw == [] then []
    else DigitsText(draw[..|draw| - 1]) + DecimalString(draw[|draw| - 1])
  }

  /** The sum seeded from the structural digits; the last family digit is not part of it. */
  function StructuralSum(familyId: nat, productId: nat, parentId: nat): nat {
    DigitCount(familyId) + 2 * Leading(familyId) + productId % 10 + 2 * (parentId % 10) + Marker
  }

  /** The check value as the source computes it, without a final `% 10`. */
  function CheckValue(sum: nat): (c: nat)
    ensures 1 <= c <= 10
    ensures (sum + c) % 10 == 0
    ensures c == 10 <==> sum % 10 == 0
  {
    10 - sum % 10
  }

  /** The six structural fields of one attempt. */
  function Prefix(familyId: nat, productId: nat, parentId: nat): string {
    DecimalString(DigitCount(familyId)) + DecimalString(Leading(familyId))
    + DecimalString(familyId % 10) + DecimalString(productId % 10)
    + DecimalString(parentId % 10) + DecimalString(Marker)
  }

  /** The card number one attempt prints, for the family id it starts with. */
  function Attempt(familyId: nat, productId: nat, parentId: nat, draw: seq<nat>): string
    requires IsDraw(draw)
  {
    Prefix(familyId, productId, parentId) + DigitsText(draw)
    + DecimalString(CheckValue(StructuralSum(familyId, productId, parentId) + WeightedSum(draw)))
  }

  /** The family id attempt k starts with: the first attempt reduces it to its leading digit. */
  function FamilyIdAt(familyId: nat, k: nat): nat {
    if k == 0 then familyId else Leading(familyId)
  }

  /**
   * The inner loop of one attempt: append the nine drawn digits to the
   * text and add each, weighted by its position, to the sum.
   */
  method PrintDraw(sb0: string, sum0: nat, draw: seq<nat>) returns (sb: string, sum: nat)
    requires IsDraw(draw)
    ensures sb == sb0 + DigitsText(draw)
    ensures sum == sum0 + WeightedSum(draw)
  {
    sb, sum := sb0, sum0;
    var i := 0;
    while i < 9
      invariant 0 <= i <= 9
      invariant sb == sb0 + DigitsText(draw[..i])
      invariant sum == sum0 + WeightedSum(draw[..i])
    {
      var randNum := draw[i];
      sb := sb + DecimalString(randNum);
      if i % 2 == 0 {
        sum := sum + randNum * 2;
      } else {
        sum := sum + randNum;
      }
      assert draw[..i + 1][..i] == draw[..i];
      i := i + 1;
    }
    assert draw[..9] == draw;
  }

  /**
   * One pass of the body of the retry loop before the lookup: reduce the
   * family id to its leading digit while counting its digits, print the six
   * structural fields and the nine drawn digits while summing, then print the
   * check value. `reduced` is the family id the next attempt starts with.
   */
  method PrintAttempt(familyId: nat, productId: nat, parentId: nat, draw: seq<nat>)
    returns (sb: string, reduced: nat)
    requires IsDraw(draw)
    ensures sb == Attempt(familyId, productId, parentId, draw)
    ensures reduced == Leading(familyId) && reduced < 10
  {
    var fam := familyId;
    var num := 0;
    var last := fam % 10;
    while fam >= 10
      invariant num + DigitCount(fam) == DigitCount(familyId)
      invariant Leading(fam) == Leading(familyId)
    {
      fam := fam / 10;
      num := num + 1;
    }
    sb := DecimalString(num + 1) + DecimalString(fam) + DecimalString(last)
      + DecimalString(productId % 10) + DecimalString(parentId % 10) + DecimalString(Marker);
    var sum := num + 1 + (fam % 10) * 2 + productId % 10 + (parentId % 10) * 2 + Marker;
    assert sb == Prefix(familyId, productId, parentId);
    assert sum == StructuralSum(familyId, productId, parentId);
    sb, sum := PrintDraw(sb, sum, draw);
    sb := sb + DecimalString(10 - sum % 10);
    reduced := fam;
  }

  /**
   * The retry loop: attempts are made in order until one prints a number no
   * loan holds. `None` means every supplied draw collided, where the source
   * would go on drawing.
   */
  method MakeCardNumber(familyId: nat, productId: nat, parentId: nat, draws: seq<seq<nat>>, issued: set<string>)
    returns (card: Option<string>)
    requires forall k :: 0 <= k < |draws| ==> IsDraw(draws[k])
    ensures card.Some? ==> card.value !in issued
    ensures card.Some? ==>
      exists k :: 0 <= k < |draws| && card.value == Attempt(FamilyIdAt(familyId, k), productId, parentId, draws[k])
        && forall j :: 0 <= j < k ==> Attempt(FamilyIdAt(familyId, j), productId, parentId, draws[j]) in issued
    ensures card.None? ==>
      forall k :: 0 <= k < |draws| ==> Attempt(FamilyIdAt(familyId, k), productId, parentId, draws[k]) in issued
  {
    var fam := familyId;
    var k := 0;
    while k < |draws|
      invariant 0 <= k <= |draws|
      invariant fam == FamilyIdAt(familyId, k)
      invariant forall j :: 0 <= j < k ==> Attempt(FamilyIdAt(familyId, j), productId, parentId, draws[j]) in issued
    {
      var sb;
      sb, fam := PrintAttempt(fam, productId, parentId, draws[k]);
      if sb !in issued {
        card := Some(sb);
        return;
      }
      k := k + 1;
    }
    card := None;
  }

  /** Weight of the digit printed at position p (for a one-character digit count). */
  function PositionWeight(p: nat): nat {
    if p == 0 then 1
    else if p == 1 then 2
    else if p == 2 then 0
    else if p == 3 then 1
    else if p == 4 then 2
    else if p == 5 then 1
    else RandomWeight(p - 6)
  }

  /** Weighted digit sum of the first n characters of a printed card number. */
  function WeightedText(s: string, n: nat): nat
    requires n <= |s| && AllDigits(s)
  {
    if n == 0 then 0 else WeightedText(s, n - 1) + PositionWeight(n - 1) * DigitValue(s[n - 1])
  }

  /**
   * The check a reader of a printed card number can make: fifteen digits,
   * the marker at position 5, and a check value in 1 .. 10 after them that
   * brings the weighted digit sum to a multiple of ten.
   */
  predicate ChecksumCloses(card: string) {
    |card| >= 16 && AllDigits(card) && card[5] == '3'
    && var check := ParseDecimal(card[15..]);
    1 <= check <= 10 && (WeightedText(card, 15) + check) % 10 == 0
  }

  lemma {:induction false} PrefixChars(familyId: nat, productId: nat, parentId: nat)
    requires DigitCount(familyId) < 10
    ensures var s := Prefix(familyId, productId, parentId);
      |s| == 6 && s[0] == DigitChar(DigitCount(familyId)) && s[1] == DigitChar(Leading(familyId))
      && s[2] == DigitChar(familyId % 10) && s[3] == DigitChar(productId % 10)
      && s[4] == DigitChar(parentId % 10) && s[5] == '3'
  {
  }

  lemma {:induction false} WeightedTextOfAttempt(card: string, familyId: nat, productId: nat, parentId: nat, draw: seq<nat>, i: nat)
    requires IsDraw(draw) && i <= 9 && |card| >= 15 && AllDigits(card)
    requires card[..6] == Prefix(familyId, productId, parentId) && DigitCount(familyId) < 10
    requires forall j :: 0 <= j < 9 ==> card[6 + j] == DigitChar(draw[j])
    ensures WeightedText(card, 6 + i) == StructuralSum(familyId, productId, parentId) + WeightedSum(draw[..i])
  {
    if i == 0 {
      PrefixChars(familyId, productId, parentId);
      assert card[0] == DigitChar(DigitCount(familyId)) && card[1] == DigitChar(Leading(familyId));
      assert card[3] == DigitChar(productId % 10) && card[4] == DigitChar(parentId % 10) && card[5] == '3';
      DigitRoundTrip(DigitCount(familyId));
      DigitRoundTrip(Leading(familyId));
      DigitRoundTrip(productId % 10);
      DigitRoundTrip(parentId % 10);
      assert WeightedText(card, 1) == DigitCount(familyId);
      assert WeightedText(card, 2) == DigitCount(familyId) + 2 * Leading(familyId);
      assert WeightedText(card, 3) == WeightedText(card, 2);
      assert WeightedText(card, 4) == WeightedText(card, 3) + productId % 10;
      assert WeightedText(card, 5) == WeightedText(card, 4) + 2 * (parentId % 10);
      assert WeightedText(card, 6) == WeightedText(card, 5) + Marker;
    } else {
      WeightedTextOfAttempt(card, familyId, productId, parentId, draw, i - 1);
      assert draw[..i][..i - 1] == draw[..i - 1];
      DigitRoundTrip(draw[i - 1]);
    }
  }

  /**
   * For a family id below 10^9 every attempt is 16 characters, or 17 when
   * the check value is 10, and its checksum closes.
   */
  lemma AttemptShape(familyId: nat, productId: nat, parentId: nat, draw: seq<nat>)
    requires IsDraw(draw) && familyId < Pow10(9)
    ensures var card := Attempt(familyId, productId, parentId, draw);
      (|card| == 16 || |card| == 17) && ChecksumCloses(card)
  {
    DigitCountBelow(familyId, 9);
    var card := Attempt(familyId, productId, parentId, draw);
    var c := CheckValue(StructuralSum(familyId, productId, parentId) + WeightedSum(draw));
    PrefixChars(familyId, productId, parentId);
    assert card[15..] == DecimalString(c);
    ParseDecimalOfDecimalString(c);
    AttemptWeightedText(familyId, productId, parentId, draw);
  }

  /** The weighted reading of the first fifteen printed digits gives back the loop's sum. */
  lemma AttemptWeightedText(familyId: nat, productId: nat, parentId: nat, draw: seq<nat>)
    requires IsDraw(draw) && DigitCount(familyId) < 10
    ensures var card := Attempt(familyId, productId, parentId, draw);
      |card| >= 15 && AllDigits(card)
      && WeightedText(card, 15) == StructuralSum(familyId, productId, parentId) + WeightedSum(draw)
  {
    var card := Attempt(familyId, productId, parentId, draw);
    PrefixChars(familyId, productId, parentId);
    assert card[..6] == Prefix(familyId, productId, parentId);
    forall j | 0 <= j < 9 ensures card[6 + j] == DigitChar(draw[j]) {
      assert card[6 + j] == DigitsText(draw)[j];
    }
    WeightedTextOfAttempt(card, familyId, productId, parentId, draw, 9);
    assert draw[..9] == draw;
  }

  /** Every retry starts with "1" and then the leading digit of the family id twice. */
  lemma RetryPrefix(familyId: nat, productId: nat, parentId: nat, draw: seq<nat>, k: nat)
    requires IsDraw(draw) && k > 0
    ensures var card := Attempt(FamilyIdAt(familyId, k), productId, parentId, draw);
      card[0] == '1' && card[1] == DigitChar(Leading(familyId)) && card[2] == DigitChar(Leading(familyId))
  {
    var lead := Leading(familyId);
    PrefixChars(lead, productId, parentId);
    var card := Attempt(lead, productId, parentId, draw);
    assert card[..6] == Prefix(lead, productId, parentId);
  }

  /** The first attempt prints the digit count, the leading digit and the last digit of the family id. */
  lemma FirstAttemptPrefix(familyId: nat, productId: nat, parentId: nat, draw: seq<nat>)
    requires IsDraw(draw) && DigitCount(familyId) <= 9
    ensures var card := Attempt(FamilyIdAt(familyId, 0), productId, parentId, draw);
      card[0] == DigitChar(DigitCount(familyId)) && card[1] == DigitChar(Leading(familyId))
      && card[2] == DigitChar(familyId % 10) && card[3] == DigitChar(productId % 10)
      && card[4] == DigitChar(parentId % 10) && card[5] == '3'
  {
    PrefixChars(familyId, productId, parentId);
    var card := Attempt(familyId, productId, parentId, draw);
    assert card[..6] == Prefix(familyId, productId, parentId);
  }
}
