/** `freq_to_channel`: channel number from centre frequency, split into the
    2.4 GHz and 5 GHz formulas at 3000 MHz, with no range check. */
module Channel {

  datatype Band = Band2G4 | Band5G

  /** The band the source's test `freq < 3000` selects. */
  function BandOf(freq: int): Band {
    if freq < 3000 then Band2G4 else Band5G
  }

  /** Frequency of channel 0 of a band in the source's formula. */
  function Base(b: Band): int {
    match b
    case Band2G4 => 2407
    case Band5G => 5000
  }

  /** Python `(freq - 2407) // 5` or `(freq - 5000) // 5`. Python's `//`
      floors; with the positive divisor 5 Dafny's Euclidean `/` agrees,
      negative numerators included. */
  function FreqToChannel(freq: int): int {
    if freq < 3000 then (freq - 2407) / 5 else (freq - 5000) / 5
  }

  /** The centre frequency of a channel in a band. */
  function CentreFrequency(b: Band, ch: int): int {
    Base(b) + 5 * ch
  }

  /** The channel is the floor of the band offset divided by 5: the largest
      integer whose multiple of 5 does not exceed the offset. */
  lemma ChannelIsFloor(freq: int)
    ensures var off := freq - Base(BandOf(freq));
      5 * FreqToChannel(freq) <= off < 5 * FreqToChannel(freq) + 5
  {
  }

  /** Every frequency lies in the 5 MHz step that starts at its channel's
      centre frequency. */
  lemma ChannelStep(freq: int)
    ensures CentreFrequency(BandOf(freq), FreqToChannel(freq)) <= freq
    ensures freq < CentreFrequency(BandOf(freq), FreqToChannel(freq)) + 5
  {
    ChannelIsFloor(freq);
  }

  /** A channel's centre frequency maps back to that channel, as long as
      that frequency falls on the band's side of the 3000 MHz split. */
  lemma ChannelRoundTrip(b: Band, ch: int)
    requires BandOf(CentreFrequency(b, ch)) == b
    ensures FreqToChannel(CentreFrequency(b, ch)) == ch
  {
  }

  /** The channels the round trip covers in each band. */
  lemma BandRange(ch: int)
    ensures BandOf(CentreFrequency(Band2G4, ch)) == Band2G4 <==> ch <= 118
    ensures BandOf(CentreFrequency(Band5G, ch)) == Band5G <==> ch >= -400
  {
  }

  /** Worked values: channels 1, 6, 13 and 36, 165, and what the formula
      gives outside the plan: 2484 MHz (channel 14 in Japan) yields 15, and
      2400 MHz, below channel 1, floors to -2. */
  lemma ChannelExamples()
    ensures FreqToChannel(2412) == 1 && FreqToChannel(2437) == 6 && FreqToChannel(2472) == 13
    ensures FreqToChannel(5180) == 36 && FreqToChannel(5825) == 165
    ensures FreqToChannel(2484) == 15 && FreqToChannel(2400) == -2
  {
  }
}
