/** `rssi_to_bars`: the five-tier signal-strength indicator. The tier is
    computed from the dBm value; the glyph and its terminal colour are a
    separate mapping from the tier. */
module Signal {

  datatype Tier = Strong | Good | Fair | Weak | VeryWeak

  /** Terminal colour of a tier's glyph. `Plain` is the default colour. */
  datatype Colour = Green | Plain | Red

  /** The tier of a signal level, with the same branches, in the same order,
      as the source's if/elif chain. */
  function RssiToTier(rssi: int): Tier {
    if rssi >= -55 then Strong
    else if -65 <= rssi < -55 then Good
    else if -75 <= rssi < -65 then Fair
    else if -85 <= rssi < -75 then Weak
    else VeryWeak
  }

  /** How strong a tier is: VeryWeak 0 up to Strong 4. */
  function Rank(t: Tier): (n: nat)
    ensures n <= 4
  {
    match t
    case VeryWeak => 0
    case Weak => 1
    case Fair => 2
    case Good => 3
    case Strong => 4
  }

  /** The intended block glyph of a tier (a blank for the weakest). The
      literals in wifi_scanner.py hold these glyphs' UTF-8 bytes decoded as
      Windows-1252, three characters each. */
  function Glyph(t: Tier): char {
    match t
    case Strong => '\U{2588}'
    case Good => '\U{2586}'
    case Fair => '\U{2584}'
    case Weak => '\U{2582}'
    case VeryWeak => ' '
  }

  /** The colour the glyph is wrapped in: green for the two strong tiers,
      red for the two weak ones, the default colour for Fair. */
  function ColourOf(t: Tier): Colour {
    match t
    case Strong | Good => Green
    case Fair => Plain
    case Weak | VeryWeak => Red
  }

  /** Each tier is exactly one band of dBm values, lower bound inclusive. */
  lemma TierBands(rssi: int)
    ensures RssiToTier(rssi) == Strong <==> rssi >= -55
    ensures RssiToTier(rssi) == Good <==> -65 <= rssi <= -56
    ensures RssiToTier(rssi) == Fair <==> -75 <= rssi <= -66
    ensures RssiToTier(rssi) == Weak <==> -85 <= rssi <= -76
    ensures RssiToTier(rssi) == VeryWeak <==> rssi <= -86
  {
  }

  /** The values on each side of every threshold. */
  lemma TierBoundaries()
    ensures RssiToTier(-55) == Strong && RssiToTier(-56) == Good
    ensures RssiToTier(-65) == Good && RssiToTier(-66) == Fair
    ensures RssiToTier(-75) == Fair && RssiToTier(-76) == Weak
    ensures RssiToTier(-85) == Weak && RssiToTier(-86) == VeryWeak
  {
  }

  /** A stronger signal never gets a weaker tier. */
  lemma TierMonotone(r1: int, r2: int)
    requires r1 >= r2
    ensures Rank(RssiToTier(r1)) >= Rank(RssiToTier(r2))
  {
  }

  /** The rank counts how many of the four thresholds the signal reaches, an
      independent description of the same step function. */
  lemma RankCountsThresholds(rssi: int)
    ensures Rank(RssiToTier(rssi)) ==
      (if rssi >= -85 then 1 else 0) + (if rssi >= -75 then 1 else 0) +
      (if rssi >= -65 then 1 else 0) + (if rssi >= -55 then 1 else 0)
  {
  }

  /** Distinct tiers are shown with distinct glyphs. */
  lemma GlyphInjective(t1: Tier, t2: Tier)
    requires t1 != t2
    ensures Glyph(t1) != Glyph(t2)
  {
  }

  /** Green exactly from -65 dBm up, red exactly below -75 dBm. */
  lemma ColourBands(rssi: int)
    ensures ColourOf(RssiToTier(rssi)) == Green <==> rssi >= -65
    ensures ColourOf(RssiToTier(rssi)) == Red <==> rssi < -75
    ensures ColourOf(RssiToTier(rssi)) == Plain <==> -75 <= rssi < -65
  {
  }
}
