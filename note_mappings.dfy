/** The pitch-to-hardware frequency tables of NoteMappings.h and the
    declared contracts of its frequency functions. Each table is written
    row by row as in the header; the rows concatenate to 128 entries, one
    per MIDI note. */
module NoteMappings {

  import opened IntegerPolicy

  /** Every table has one entry per MIDI note. */
  const NOTE_COUNT := 128

  /** Divisors N for the SN76489 clocked at 4 MHz: F = 125,000 / N.
      N is a 10-bit field on the chip. */
  const NOTES_125KHZ: seq<nat> :=
    (([15281, 14434, 13617, 12860, 12136, 11457, 10813, 10204, 9630, 9091, 8579] +
      [8101, 7645, 7217, 6812, 6427, 6068, 5726, 5407, 5102, 4815, 4545]) +
     ([4290, 4049, 3823, 3608, 3405, 3214, 3034, 2864, 2703, 2551, 2408] +
      [2273, 2145, 2025, 1911, 1804, 1703, 1607, 1517, 1432, 1351, 1276])) +
    (([1204, 1136, 1073, 1012, 956, 902, 851, 804, 758, 716, 676] +
      [638, 602, 568, 536, 506, 478, 451, 426, 402, 379, 358]) +
     ([338, 319, 301, 284, 268, 253, 239, 225, 213, 201, 190] +
      [179, 169, 159, 150, 142, 134, 127, 119, 113, 106, 100])) +
    (([95, 89, 84, 80, 75, 71, 67, 63, 60, 56, 53] +
      [50, 47, 45, 42, 40, 38, 36, 34, 32, 30, 28]) +
     ([27, 25, 24, 22, 21, 20, 19, 18, 17, 16, 15] +
      [14, 13, 13, 12, 11, 11, 10]))

  /** The SN76489's largest divisor (10 bits). */
  const SN76489_MAX_N := 1023

  /** Divisors N for the YM2203 clocked at 4 MHz: F = 250,000 / N.
      N is a 12-bit field on the chip. */
  const NOTES_250KHZ: seq<nat> :=
    (([30562, 28868, 27233, 25720, 24272, 22915, 21626, 20408, 19260, 18182, 17159] +
      [16202, 15291, 14434, 13624, 12853, 12136, 11452, 10813, 10204, 9630, 9091]) +
     ([8579, 8098, 7645, 7215, 6810, 6428, 6068, 5727, 5405, 5102, 4816] +
      [4545, 4290, 4049, 3822, 3608, 3405, 3214, 3034, 2863, 2703, 2551])) +
    (([2408, 2273, 2145, 2025, 1911, 1804, 1703, 1607, 1517, 1432, 1351] +
      [1276, 1204, 1136, 1073, 1012, 956, 902, 851, 804, 758, 716]) +
     ([676, 638, 602, 568, 536, 506, 478, 451, 426, 402, 379] +
      [358, 338, 319, 301, 284, 268, 253, 239, 225, 213, 201])) +
    (([190, 179, 169, 159, 150, 142, 134, 127, 119, 113, 106] +
      [100, 95, 89, 84, 80, 75, 71, 67, 63, 60, 56]) +
     ([53, 50, 47, 45, 42, 40, 38, 36, 34, 32, 30] +
      [28, 27, 25, 24, 22, 21, 20]))

  /** The YM2203's largest divisor (12 bits). */
  const YM2203_MAX_N := 4095

  /** Base F-numbers of the YM2203 at 4 MHz, one octave per 12 entries.
      The first octave starts at 618 where the later ones start at 617;
      the table is kept exactly as written. */
  const F_NUMBERS_4MHZ: seq<nat> :=
    (([618, 654, 693, 734, 778, 824, 873, 925, 980, 1038, 1100, 1165, 617] +
      [654, 693, 734, 778, 824, 873, 925, 980, 1038, 1100, 1165, 617, 654]) +
     ([693, 734, 778, 824, 873, 925, 980, 1038, 1100, 1165, 617, 654, 693] +
      [734, 778, 824, 873, 925, 980, 1038, 1100, 1165, 617, 654, 693, 734])) +
    (([778, 824, 873, 925, 980, 1038, 1100, 1165, 617, 654, 693, 734, 778] +
      [824, 873, 925, 980, 1038, 1100, 1165, 617, 654, 693, 734, 778, 824]) +
     ([873, 925, 980, 1038, 1100, 1165, 617, 654, 693, 734, 778, 824, 873] +
      [925, 980, 1038, 1100, 1165, 617, 654, 693, 734, 778, 824, 873, 925])) +
    ([980, 1038, 1100, 1165, 617, 654, 693, 734, 778, 824, 873, 925, 980] +
     [1038, 1100, 1165, 617, 654, 693, 734, 778, 824, 873, 925])

  // ---------------------------------------------------------------------
  // Facts about the tables, proved by evaluating them entry by entry
  // ---------------------------------------------------------------------

  /** Each table has exactly one entry per MIDI note, as the functions'
      `note_mappings[128]` parameters expect. */
  lemma TablesHaveOneEntryPerNote()
    ensures |NOTES_125KHZ| == NOTE_COUNT && |NOTES_250KHZ| == NOTE_COUNT && |F_NUMBERS_4MHZ| == NOTE_COUNT
  {
  }

  ghost predicate NonIncreasing(s: seq<nat>)
  {
    forall i, j :: 0 <= i <= j < |s| ==> s[i] >= s[j]
  }

  /** From index k on, no entry of `s` is larger than the one before it. */
  predicate StepsDownFrom(s: seq<nat>, k: nat)
    decreases |s| - k
  {
    k + 1 >= |s| || (s[k] >= s[k + 1] && StepsDownFrom(s, k + 1))
  }

  /** Adjacent steps down add up to an ordering of the whole suffix. */
  lemma {:induction false} StepsDownOrdered(s: seq<nat>, k: nat)
    requires StepsDownFrom(s, k)
    ensures forall i, j :: k <= i <= j < |s| ==> s[i] >= s[j]
    decreases |s| - k
  {
    if k + 1 < |s| {
      StepsDownOrdered(s, k + 1);
    }
  }

  // The verifier evaluates a recursive predicate on literal arguments only,
  // so each table gets a copy of the step-down walk that names the table
  // itself; evaluating it from the last note back to note 0 in short hops
  // checks every entry, and a bridge lemma hands the result to the generic
  // predicate.

  predicate Notes125KhzStepsDownFrom(k: nat)
    decreases 128 - k
  {
    k + 1 >= 128 || (NOTES_125KHZ[k] >= NOTES_125KHZ[k + 1] && Notes125KhzStepsDownFrom(k + 1))
  }

  lemma {:induction false} Notes125KhzBridge(k: nat)
    requires Notes125KhzStepsDownFrom(k)
    ensures StepsDownFrom(NOTES_125KHZ, k)
    decreases 128 - k
  {
    assert |NOTES_125KHZ| == 128;
    if k + 1 < 128 {
      Notes125KhzBridge(k + 1);
    }
  }

  lemma Notes125KhzStepsDownFrom64()
    ensures Notes125KhzStepsDownFrom(64)
  {
    assert Notes125KhzStepsDownFrom(124);
    assert Notes125KhzStepsDownFrom(120);
    assert Notes125KhzStepsDownFrom(116);
    assert Notes125KhzStepsDownFrom(112);
    assert Notes125KhzStepsDownFrom(108);
    assert Notes125KhzStepsDownFrom(104);
    assert Notes125KhzStepsDownFrom(100);
    assert Notes125KhzStepsDownFrom(96);
    assert Notes125KhzStepsDownFrom(92);
    assert Notes125KhzStepsDownFrom(88);
    assert Notes125KhzStepsDownFrom(84);
    assert Notes125KhzStepsDownFrom(80);
    assert Notes125KhzStepsDownFrom(76);
    assert Notes125KhzStepsDownFrom(72);
    assert Notes125KhzStepsDownFrom(68);
    assert Notes125KhzStepsDownFrom(64);
  }

  lemma Notes125KhzStepsDown()
    ensures Notes125KhzStepsDownFrom(0)
  {
    Notes125KhzStepsDownFrom64();
    assert Notes125KhzStepsDownFrom(60);
    assert Notes125KhzStepsDownFrom(56);
    assert Notes125KhzStepsDownFrom(52);
    assert Notes125KhzStepsDownFrom(48);
    assert Notes125KhzStepsDownFrom(44);
    assert Notes125KhzStepsDownFrom(40);
    assert Notes125KhzStepsDownFrom(36);
    assert Notes125KhzStepsDownFrom(32);
    assert Notes125KhzStepsDownFrom(28);
    assert Notes125KhzStepsDownFrom(24);
    assert Notes125KhzStepsDownFrom(20);
    assert Notes125KhzStepsDownFrom(16);
    assert Notes125KhzStepsDownFrom(12);
    assert Notes125KhzStepsDownFrom(8);
    assert Notes125KhzStepsDownFrom(4);
    assert Notes125KhzStepsDownFrom(0);
  }

  /** The SN76489 divisors never increase with the note: a divisor is
      inversely proportional to its frequency. */
  lemma Notes125KhzNonIncreasing()
    ensures NonIncreasing(NOTES_125KHZ)
  {
    Notes125KhzStepsDown();
    Notes125KhzBridge(0);
    StepsDownOrdered(NOTES_125KHZ, 0);
  }

  predicate Notes250KhzStepsDownFrom(k: nat)
    decreases 128 - k
  {
    k + 1 >= 128 || (NOTES_250KHZ[k] >= NOTES_250KHZ[k + 1] && Notes250KhzStepsDownFrom(k + 1))
  }

  lemma {:induction false} Notes250KhzBridge(k: nat)
    requires Notes250KhzStepsDownFrom(k)
    ensures StepsDownFrom(NOTES_250KHZ, k)
    decreases 128 - k
  {
    assert |NOTES_250KHZ| == 128;
    if k + 1 < 128 {
      Notes250KhzBridge(k + 1);
    }
  }

  lemma Notes250KhzStepsDownFrom64()
    ensures Notes250KhzStepsDownFrom(64)
  {
    assert Notes250KhzStepsDownFrom(124);
    assert Notes250KhzStepsDownFrom(120);
    assert Notes250KhzStepsDownFrom(116);
    assert Notes250KhzStepsDownFrom(112);
    assert Notes250KhzStepsDownFrom(108);
    assert Notes250KhzStepsDownFrom(104);
    assert Notes250KhzStepsDownFrom(100);
    assert Notes250KhzStepsDownFrom(96);
    assert Notes250KhzStepsDownFrom(92);
    assert Notes250KhzStepsDownFrom(88);
    assert Notes250KhzStepsDownFrom(84);
    assert Notes250KhzStepsDownFrom(80);
    assert Notes250KhzStepsDownFrom(76);
    assert Notes250KhzStepsDownFrom(72);
    assert Notes250KhzStepsDownFrom(68);
    assert Notes250KhzStepsDownFrom(64);
  }

  lemma Notes250KhzStepsDown()
    ensures Notes250KhzStepsDownFrom(0)
  {
    Notes250KhzStepsDownFrom64();
    assert Notes250KhzStepsDownFrom(60);
    assert Notes250KhzStepsDownFrom(56);
    assert Notes250KhzStepsDownFrom(52);
    assert Notes250KhzStepsDownFrom(48);
    assert Notes250KhzStepsDownFrom(44);
    assert Notes250KhzStepsDownFrom(40);
    assert Notes250KhzStepsDownFrom(36);
    assert Notes250KhzStepsDownFrom(32);
    assert Notes250KhzStepsDownFrom(28);
    assert Notes250KhzStepsDownFrom(24);
    assert Notes250KhzStepsDownFrom(20);
    assert Notes250KhzStepsDownFrom(16);
    assert Notes250KhzStepsDownFrom(12);
    assert Notes250KhzStepsDownFrom(8);
    assert Notes250KhzStepsDownFrom(4);
    assert Notes250KhzStepsDownFrom(0);
  }

  /** The YM2203 divisors never increase with the note. */
  lemma Notes250KhzNonIncreasing()
    ensures NonIncreasing(NOTES_250KHZ)
  {
    Notes250KhzStepsDown();
    Notes250KhzBridge(0);
    StepsDownOrdered(NOTES_250KHZ, 0);
  }

  /** The SN76489 divisor fits the chip's 10-bit field exactly for the notes
      from 47 on; every lower note asks for a larger divisor. */
  lemma Notes125KhzFitTenBitsFromNote47()
    ensures forall i :: 0 <= i < |NOTES_125KHZ| ==> (NOTES_125KHZ[i] <= SN76489_MAX_N <==> 47 <= i)
  {
    Notes125KhzNonIncreasing();
    assert NOTES_125KHZ[46] == 1073 && NOTES_125KHZ[47] == 1012;
  }

  /** The YM2203 divisor fits the chip's 12-bit field exactly for the notes
      from 35 on; every lower note asks for a larger divisor. */
  lemma Notes250KhzFitTwelveBitsFromNote35()
    ensures forall i :: 0 <= i < |NOTES_250KHZ| ==> (NOTES_250KHZ[i] <= YM2203_MAX_N <==> 35 <= i)
  {
    Notes250KhzNonIncreasing();
    assert NOTES_250KHZ[34] == 4290 && NOTES_250KHZ[35] == 4049;
  }

  /** The shape of an F-number table from index k on: each entry lies in
      [617, 1165]; it is below the next one within an octave and above it
      across an octave boundary (after indices 11, 23, ...); and, from index
      1 on, it equals the entry an octave (12 notes) up. */
  predicate OctaveShapedFrom(s: seq<nat>, k: nat)
    decreases |s| - k
  {
    k >= |s| ||
    (617 <= s[k] <= 1165 &&
     (k + 1 < |s| ==> if (k + 1) % 12 == 0 then s[k] > s[k + 1] else s[k] < s[k + 1]) &&
     (1 <= k && k + 12 < |s| ==> s[k] == s[k + 12]) &&
     OctaveShapedFrom(s, k + 1))
  }

  lemma {:induction false} OctaveShapedEverywhere(s: seq<nat>, k: nat)
    requires OctaveShapedFrom(s, k)
    ensures forall i :: k <= i < |s| ==> 617 <= s[i] <= 1165
    ensures forall i :: k <= i && i + 1 < |s| && (i + 1) % 12 != 0 ==> s[i] < s[i + 1]
    ensures forall i :: k <= i && i + 1 < |s| && (i + 1) % 12 == 0 ==> s[i] > s[i + 1]
    ensures forall i :: k <= i && 1 <= i && i + 12 < |s| ==> s[i] == s[i + 12]
    decreases |s| - k
  {
    if k < |s| {
      OctaveShapedEverywhere(s, k + 1);
    }
  }

  predicate FNumbersShapedFrom(k: nat)
    decreases 128 - k
  {
    k >= 128 ||
    (617 <= F_NUMBERS_4MHZ[k] <= 1165 &&
     (k + 1 < 128 ==>
        if (k + 1) % 12 == 0 then F_NUMBERS_4MHZ[k] > F_NUMBERS_4MHZ[k + 1] else F_NUMBERS_4MHZ[k] < F_NUMBERS_4MHZ[k + 1]) &&
     (1 <= k && k + 12 < 128 ==> F_NUMBERS_4MHZ[k] == F_NUMBERS_4MHZ[k + 12]) &&
     FNumbersShapedFrom(k + 1))
  }

  lemma {:induction false} FNumbersBridge(k: nat)
    requires FNumbersShapedFrom(k)
    ensures OctaveShapedFrom(F_NUMBERS_4MHZ, k)
    decreases 128 - k
  {
    assert |F_NUMBERS_4MHZ| == 128;
    if k < 128 {
      FNumbersBridge(k + 1);
    }
  }

  lemma FNumbersShapedFrom96()
    ensures FNumbersShapedFrom(96)
  {
    assert FNumbersShapedFrom(124);
    assert FNumbersShapedFrom(120);
    assert FNumbersShapedFrom(116);
    assert FNumbersShapedFrom(112);
    assert FNumbersShapedFrom(108);
    assert FNumbersShapedFrom(104);
    assert FNumbersShapedFrom(100);
    assert FNumbersShapedFrom(96);
  }

  lemma FNumbersShapedFrom64()
    ensures FNumbersShapedFrom(64)
  {
    FNumbersShapedFrom96();
    assert FNumbersShapedFrom(92);
    assert FNumbersShapedFrom(88);
    assert FNumbersShapedFrom(84);
    assert FNumbersShapedFrom(80);
    assert FNumbersShapedFrom(76);
    assert FNumbersShapedFrom(72);
    assert FNumbersShapedFrom(68);
    assert FNumbersShapedFrom(64);
  }

  lemma FNumbersShapedFrom32()
    ensures FNumbersShapedFrom(32)
  {
    FNumbersShapedFrom64();
    assert FNumbersShapedFrom(60);
    assert FNumbersShapedFrom(56);
    assert FNumbersShapedFrom(52);
    assert FNumbersShapedFrom(48);
    assert FNumbersShapedFrom(44);
    assert FNumbersShapedFrom(40);
    assert FNumbersShapedFrom(36);
    assert FNumbersShapedFrom(32);
  }

  lemma FNumbersShapedFrom0()
    ensures FNumbersShapedFrom(0)
  {
    FNumbersShapedFrom32();
    assert FNumbersShapedFrom(28);
    assert FNumbersShapedFrom(24);
    assert FNumbersShapedFrom(20);
    assert FNumbersShapedFrom(16);
    assert FNumbersShapedFrom(12);
    assert FNumbersShapedFrom(8);
    assert FNumbersShapedFrom(4);
    assert FNumbersShapedFrom(0);
  }

  /** Every base F-number lies in [617, 1165]; within each octave they
      strictly increase and at each octave boundary they drop back. */
  lemma FNumbersRiseWithinOctaves()
    ensures forall i :: 0 <= i < |F_NUMBERS_4MHZ| ==> 617 <= F_NUMBERS_4MHZ[i] <= 1165
    ensures forall i :: 0 <= i < 127 && (i + 1) % 12 != 0 ==> F_NUMBERS_4MHZ[i] < F_NUMBERS_4MHZ[i + 1]
    ensures forall i :: 0 <= i < 127 && (i + 1) % 12 == 0 ==> F_NUMBERS_4MHZ[i] > F_NUMBERS_4MHZ[i + 1]
  {
    assert |F_NUMBERS_4MHZ| == NOTE_COUNT;
    FNumbersShapedFrom0();
    FNumbersBridge(0);
    OctaveShapedEverywhere(F_NUMBERS_4MHZ, 0);
  }

  /** The base F-numbers repeat with period 12, except that the very first
      entry is 618 where every later octave starts at 617: the table could
      be one octave long but for that entry. */
  lemma FNumbersRepeatByOctave()
    ensures forall i :: 1 <= i < 116 ==> F_NUMBERS_4MHZ[i] == F_NUMBERS_4MHZ[i + 12]
    ensures F_NUMBERS_4MHZ[0] == 618 && F_NUMBERS_4MHZ[12] == 617
  {
    assert |F_NUMBERS_4MHZ| == NOTE_COUNT;
    FNumbersShapedFrom0();
    FNumbersBridge(0);
    OctaveShapedEverywhere(F_NUMBERS_4MHZ, 0);
  }

  // ---------------------------------------------------------------------
  // The frequency functions
  // ---------------------------------------------------------------------

  /** The shape of getFrequencyNForCents and getFNumberForCents: from a
      note, the cents above it and a note table, the unsigned correction to
      the note's entry. Their bodies are not part of this model, so every
      lemma below is either about any correction or about the linear
      reference corrections further down. */
  type CentsCorrection = (nat, nat, seq<nat>) -> nat

  /** getFrequencyN: a pitch given in cents is split into a note
      (`frequency_cents / 100`) and the cents above it (`% 100`); the PSG
      divisor is the note's divisor less the correction for those cents.
      Because a correction is unsigned, the divisor is never above the
      note's own. */
  function FrequencyN(frequencyCents: nat, noteMappings: seq<nat>, nForCents: CentsCorrection): (n: int)
    requires |noteMappings| == NOTE_COUNT && frequencyCents < 100 * NOTE_COUNT
    ensures n <= noteMappings[frequencyCents / 100]
  {
    var note, cents := frequencyCents / 100, frequencyCents % 100;
    noteMappings[note] - nForCents(note, cents, noteMappings)
  }

  /** getFNumber: as FrequencyN, but the correction is added, so the
      F-number is never below the note's own. */
  function FNumber(frequencyCents: nat, noteMappings: seq<nat>, fNumberForCents: CentsCorrection): (f: nat)
    requires |noteMappings| == NOTE_COUNT && frequencyCents < 100 * NOTE_COUNT
    ensures f >= noteMappings[frequencyCents / 100]
  {
    var note, cents := frequencyCents / 100, frequencyCents % 100;
    noteMappings[note] + fNumberForCents(note, cents, noteMappings)
  }

  /** A pitch `100 * note + cents` with fewer than 100 cents is read back as
      exactly that note and those cents. */
  lemma {:induction false} PitchSplits(note: nat, cents: nat)
    requires cents < 100
    ensures (100 * note + cents) / 100 == note && (100 * note + cents) % 100 == cents
  {
    var p := 100 * note + cents;
    assert p == note * 100 + cents;
    DivModUnique(p, 100, note, cents);
  }

  /** Dafny's division is determined by quotient and remainder. */
  lemma DivModUnique(p: nat, d: nat, q: nat, r: nat)
    requires d > 0 && r < d && p == q * d + r
    ensures p / d == q && p % d == r
  {
    var q0, r0 := p / d, p % d;
    DivModFacts(p, d);
    assert (q - q0) * d == r0 - r;
    if q != q0 {
      MultipleBound(q - q0, d);
    }
  }

  /** The declared contract of getFrequencyN: for a note and cents, the
      result is the note's divisor minus getFrequencyNForCents(note, cents). */
  lemma FrequencyNOfNoteAndCents(note: nat, cents: nat, noteMappings: seq<nat>, nForCents: CentsCorrection)
    requires |noteMappings| == NOTE_COUNT && note < NOTE_COUNT && cents < 100
    ensures FrequencyN(100 * note + cents, noteMappings, nForCents) == noteMappings[note] - nForCents(note, cents, noteMappings)
  {
    PitchSplits(note, cents);
  }

  /** The declared contract of getFNumber: for a note and cents, the result
      is the note's F-number plus getFNumberForCents(note, cents). */
  lemma FNumberOfNoteAndCents(note: nat, cents: nat, noteMappings: seq<nat>, fNumberForCents: CentsCorrection)
    requires |noteMappings| == NOTE_COUNT && note < NOTE_COUNT && cents < 100
    ensures FNumber(100 * note + cents, noteMappings, fNumberForCents) == noteMappings[note] + fNumberForCents(note, cents, noteMappings)
  {
    PitchSplits(note, cents);
  }

  /** `gap * cents / 100` never exceeds `gap`, reaches it only when the gap
      is 0 or cents are 100, and grows with cents. */
  lemma {:induction false} ScaledGap(gap: nat, c1: nat, c2: nat)
    requires c1 <= c2 <= 100
    ensures gap * c1 / 100 <= gap * c2 / 100 <= gap
    ensures c2 < 100 && gap > 0 ==> gap * c2 / 100 < gap
    ensures c1 == 0 ==> gap * c1 / 100 == 0
  {
    assert gap * c1 <= gap * c2 <= gap * 100 by {
      assert gap * c2 == gap * c1 + gap * (c2 - c1);
      assert gap * 100 == gap * c2 + gap * (100 - c2);
      NonNegativeProduct(gap, c2 - c1);
      NonNegativeProduct(gap, 100 - c2);
    }
    DivIsMonotone(gap * c1, gap * c2, 100);
    DivIsMonotone(gap * c2, gap * 100, 100);
    DivModUnique(gap * 100, 100, gap, 0);
    if c2 < 100 && gap > 0 {
      var q := gap * c2 / 100;
      DivModFacts(gap * c2, 100);
      assert gap * c2 < gap * 100 by {
        assert gap * 100 == gap * c2 + gap * (100 - c2);
        MultipleBound(gap, 100 - c2);
      }
      ProductOrder(q, gap, 100);
    }
  }

  /** Multiplying by a positive constant preserves strict order. */
  lemma ProductOrder(x: int, y: int, k: nat)
    requires k > 0 && x * k < y * k
    ensures x < y
  {
    if x >= y {
      assert x * k - y * k == (x - y) * k;
      NonNegativeProduct(x - y, k);
      assert false;
    }
  }

  lemma DivIsMonotone(a: nat, b: nat, d: nat)
    requires a <= b && d > 0
    ensures a / d <= b / d
  {
    TruncDivOfNonNegative(a, d);
    TruncDivOfNonNegative(b, d);
    TruncDivMonotone(a, b, d);
  }

  /** A reference getFrequencyNForCents: the gap between a note's divisor
      and the next note's, scaled by cents / 100 and truncated. Where the
      next divisor is not smaller (and past the last note) it corrects
      nothing. */
  function LinearNForCents(note: nat, cents: nat, noteMappings: seq<nat>): (c: nat)
    ensures cents <= 100 && note + 1 < |noteMappings| && noteMappings[note + 1] <= noteMappings[note] ==>
              c <= noteMappings[note] - noteMappings[note + 1]
  {
    if note + 1 < |noteMappings| && noteMappings[note + 1] <= noteMappings[note] then
      var gap := noteMappings[note] - noteMappings[note + 1];
      assert cents <= 100 ==> gap * cents / 100 <= gap by {
        if cents <= 100 {
          ScaledGap(gap, 0, cents);
        }
      }
      gap * cents / 100
    else
      0
  }

  /** A reference getFNumberForCents: the gap up to the next note's
      F-number, scaled by cents / 100 and truncated. Across an octave
      boundary (notes 11, 23, ... and 127), where the next F-number is
      smaller, it corrects nothing, so there cents do not move the F-number
      at all; how the source crosses into the next block is not part of
      this model. */
  function LinearFNumberForCents(note: nat, cents: nat, noteMappings: seq<nat>): (c: nat)
    ensures cents <= 100 && note + 1 < |noteMappings| && noteMappings[note] <= noteMappings[note + 1] ==>
              c <= noteMappings[note + 1] - noteMappings[note]
  {
    if note + 1 < |noteMappings| && noteMappings[note] <= noteMappings[note + 1] then
      var gap := noteMappings[note + 1] - noteMappings[note];
      assert cents <= 100 ==> gap * cents / 100 <= gap by {
        if cents <= 100 {
          ScaledGap(gap, 0, cents);
        }
      }
      gap * cents / 100
    else
      0
  }

  /** With the linear correction and a non-increasing table, the divisor for
      a note plus cents lies between the next note's divisor and the note's
      own: it is the note's own at 0 cents, strictly above the next note's
      whenever the two differ, and it never rises as cents increase. */
  lemma LinearFrequencyNBetweenNotes(noteMappings: seq<nat>, note: nat, c1: nat, c2: nat)
    requires |noteMappings| == NOTE_COUNT && NonIncreasing(noteMappings)
    requires note + 1 < NOTE_COUNT && c1 <= c2 < 100
    ensures noteMappings[note + 1] <= FrequencyN(100 * note + c2, noteMappings, LinearNForCents) <= noteMappings[note]
    ensures noteMappings[note + 1] < noteMappings[note] ==>
              noteMappings[note + 1] < FrequencyN(100 * note + c2, noteMappings, LinearNForCents)
    ensures FrequencyN(100 * note + c2, noteMappings, LinearNForCents) <= FrequencyN(100 * note + c1, noteMappings, LinearNForCents)
    ensures FrequencyN(100 * note, noteMappings, LinearNForCents) == noteMappings[note]
  {
    FrequencyNOfNoteAndCents(note, c1, noteMappings, LinearNForCents);
    FrequencyNOfNoteAndCents(note, c2, noteMappings, LinearNForCents);
    FrequencyNOfNoteAndCents(note, 0, noteMappings, LinearNForCents);
    ScaledGap(noteMappings[note] - noteMappings[note + 1], c1, c2);
    ScaledGap(noteMappings[note] - noteMappings[note + 1], 0, 0);
  }

  /** With the linear correction, within an octave the F-number for a note
      plus cents lies between the note's F-number and the next note's: it
      is the note's own at 0 cents, strictly below the next note's, and it
      never falls as cents increase. */
  lemma LinearFNumberBetweenNotes(noteMappings: seq<nat>, note: nat, c1: nat, c2: nat)
    requires |noteMappings| == NOTE_COUNT && note + 1 < NOTE_COUNT && c1 <= c2 < 100
    requires noteMappings[note] < noteMappings[note + 1]
    ensures noteMappings[note] <= FNumber(100 * note + c2, noteMappings, LinearFNumberForCents) < noteMappings[note + 1]
    ensures FNumber(100 * note + c1, noteMappings, LinearFNumberForCents) <= FNumber(100 * note + c2, noteMappings, LinearFNumberForCents)
    ensures FNumber(100 * note, noteMappings, LinearFNumberForCents) == noteMappings[note]
  {
    FNumberOfNoteAndCents(note, c1, noteMappings, LinearFNumberForCents);
    FNumberOfNoteAndCents(note, c2, noteMappings, LinearFNumberForCents);
    FNumberOfNoteAndCents(note, 0, noteMappings, LinearFNumberForCents);
    ScaledGap(noteMappings[note + 1] - noteMappings[note], c1, c2);
    ScaledGap(noteMappings[note + 1] - noteMappings[note], 0, 0);
  }

  /** For the SN76489 table, a note plus cents maps between the divisors of
      the note and of the next note, lower as the cents rise. */
  lemma Notes125KhzInterpolate(note: nat, c1: nat, c2: nat)
    requires note + 1 < NOTE_COUNT && c1 <= c2 < 100
    ensures NOTES_125KHZ[note + 1] <= FrequencyN(100 * note + c2, NOTES_125KHZ, LinearNForCents) <= NOTES_125KHZ[note]
    ensures FrequencyN(100 * note + c2, NOTES_125KHZ, LinearNForCents) <= FrequencyN(100 * note + c1, NOTES_125KHZ, LinearNForCents)
  {
    assert |NOTES_125KHZ| == NOTE_COUNT;
    Notes125KhzNonIncreasing();
    LinearFrequencyNBetweenNotes(NOTES_125KHZ, note, c1, c2);
  }

  /** For the YM2203 SSG table, the same. */
  lemma Notes250KhzInterpolate(note: nat, c1: nat, c2: nat)
    requires note + 1 < NOTE_COUNT && c1 <= c2 < 100
    ensures NOTES_250KHZ[note + 1] <= FrequencyN(100 * note + c2, NOTES_250KHZ, LinearNForCents) <= NOTES_250KHZ[note]
    ensures FrequencyN(100 * note + c2, NOTES_250KHZ, LinearNForCents) <= FrequencyN(100 * note + c1, NOTES_250KHZ, LinearNForCents)
  {
    assert |NOTES_250KHZ| == NOTE_COUNT;
    Notes250KhzNonIncreasing();
    LinearFrequencyNBetweenNotes(NOTES_250KHZ, note, c1, c2);
  }

  /** For the base F-numbers, a note plus cents that stays inside its octave
      maps between the F-numbers of the note and of the next note, higher
      as the cents rise. */
  lemma FNumbersInterpolateWithinOctave(note: nat, c1: nat, c2: nat)
    requires note + 1 < NOTE_COUNT && (note + 1) % 12 != 0 && c1 <= c2 < 100
    ensures F_NUMBERS_4MHZ[note] <= FNumber(100 * note + c2, F_NUMBERS_4MHZ, LinearFNumberForCents) < F_NUMBERS_4MHZ[note + 1]
    ensures FNumber(100 * note + c1, F_NUMBERS_4MHZ, LinearFNumberForCents) <= FNumber(100 * note + c2, F_NUMBERS_4MHZ, LinearFNumberForCents)
  {
    assert |F_NUMBERS_4MHZ| == NOTE_COUNT;
    FNumbersRiseWithinOctaves();
    LinearFNumberBetweenNotes(F_NUMBERS_4MHZ, note, c1, c2);
  }
}
