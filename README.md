# Wi-Fi scan table — a Dafny model

This project models `wifi_scanner.py`, a command-line tool that runs the
Termux utility `termux-wifi-scaninfo`, decodes the JSON array it prints and
shows the nearby networks as a table, strongest signal first. The model covers:

- the outcome decision of acquisition (`get_wifi_data`): missing command,
  failed command with or without disabled location services, blank output,
  undecodable output, success (module `Acquisition`, with the Python string
  operations `strip()` and `in` in module `PyText`);
- the five-tier signal indicator (`rssi_to_bars`, module `Signal`), with the
  glyph and colour as a separate mapping from the tier;
- the frequency-to-channel formula (`freq_to_channel`, module `Channel`);
- the stable sort by rssi, strongest first (module `Ordering`);
- the rows `main` prints and the run as a whole (module `Table`).

The network observation is `Observation.Network(ssid, rssi, frequency)`,
where `ssid` is an `Option<string>`: `None` stands for a JSON `null`.

Notes on the model:

- The source tests `"Location is disabled" in stderr.strip()` and reports the
  stripped stderr. This gives the same answer as testing the raw stderr,
  because the text starts and ends with a non-space character
  (`PyText.ContainsAfterStrip`).
- Python's `//` floors. With the divisor 5, Dafny's `/` gives the same
  result for every numerator, negative ones included.
- The sort is written as an insertion sort over a `seq`. Its result is the
  only ordering that is both descending and stable
  (`Ordering.SortedEqualsStableSort`). So it is exactly what Python's
  `sorted(..., key=rssi, reverse=True)` returns, whatever algorithm Python uses.
- Among string-or-null SSIDs, only a `null` or empty SSID is shown as
  `[Hidden]`. An object without an `ssid` key makes `net['ssid']` raise
  `KeyError`, which the source does not catch. A reader might expect an
  absent SSID to be treated like an empty one; the code does not, and the
  model follows the code.
- The formula has no range check, and the model keeps that. So 2484 MHz
  (channel 14) gives 15, and frequencies below 2407 MHz give negative
  channels (`Channel.ChannelExamples`).
- A decoded empty array is a success. The header is printed, no rows
  follow, and the exit status is 0. This is a different outcome from blank
  output, which prints "No Wi-Fi networks found" and no table.

## Model

| member | source | states |
|---|---|---|
| PyText.Strip | wifi_scanner.py:37 | `strip()` gives the slice of the string between its leading and trailing whitespace; everything cut off is whitespace; the result neither starts nor ends with whitespace |
| PyText.Contains | wifi_scanner.py:38 | Python's `needle in hay`: some suffix of `hay` starts with `needle`; used by `Acquire`, and `ContainsAfterStrip` relates it to `Strip` |
| PyText.StripEmptyIffBlank | wifi_scanner.py:26 | `not output.strip()` holds exactly when the output is empty or whitespace only |
| PyText.ContainsAfterStrip | wifi_scanner.py:37-38 | a needle with non-whitespace ends occurs in the stripped string iff it occurs in the original |
| Acquisition.Acquire | wifi_scanner.py:18-48 | a missing command gives MissingDependency; a non-zero exit gives LocationDisabled iff stderr contains "Location is disabled", and otherwise Unexpected carrying the stripped stderr; after a zero exit, NoNetworks iff stdout is blank, Malformed iff stdout is not blank and not valid JSON, Ok with the decoded list iff it is not blank and valid |
| Acquisition.Outcome.ExitCode | wifi_scanner.py:28-48 | the `sys.exit` codes: 0 for no networks and for a normal end after the table, 1 for the four errors; stated against the inputs in `ExitZeroIff` and `Table.Run` |
| Acquisition.ExitZeroIff | wifi_scanner.py:26-48 | the exit status is 0 exactly when the command succeeded and its output was blank or valid JSON; it is 1 otherwise |
| Acquisition.LocationRegardlessOfContext | wifi_scanner.py:37-40 | a failing command whose stderr contains the location text anywhere, with any other text around it, gives the location error |
| Acquisition.UnexpectedVerbatim | wifi_scanner.py:41-42 | a stderr without the location text and without surrounding whitespace is reported unchanged |
| Signal.RssiToTier | wifi_scanner.py:50-61 | the if/elif chain of `rssi_to_bars`, branch for branch; its bands are stated in `TierBands`, its boundaries in `TierBoundaries`, its order in `TierMonotone` and `RankCountsThresholds` |
| Signal.TierBands | wifi_scanner.py:52-61 | each tier is exactly one band: Strong at -55 and above, Good -65..-56, Fair -75..-66, Weak -85..-76, VeryWeak -86 and below |
| Signal.TierBoundaries | wifi_scanner.py:52-60 | -55 Strong, -56 Good, -65 Good, -66 Fair, -75 Fair, -76 Weak, -85 Weak, -86 VeryWeak |
| Signal.TierMonotone | wifi_scanner.py:52-61 | a stronger or equal signal never gets a weaker tier |
| Signal.RankCountsThresholds | wifi_scanner.py:52-61 | the tier's rank is the number of thresholds -85, -75, -65, -55 the signal reaches |
| Signal.GlyphInjective | wifi_scanner.py:53-61 | different tiers are drawn with different glyphs |
| Signal.Glyph | wifi_scanner.py:53-61 | the glyph of each tier (the intended block characters, see Left out); `GlyphInjective` states that tiers are told apart |
| Signal.ColourOf | wifi_scanner.py:53-61 | the colour escape around each glyph: green, none or red; `ColourBands` states the dBm range of each colour |
| Signal.ColourBands | wifi_scanner.py:53-61 | the glyph is green exactly from -65 dBm up, red exactly below -75 dBm, and uncoloured in between |
| Channel.FreqToChannel | wifi_scanner.py:63-70 | the two formulas split at 3000 MHz, with no range check; `ChannelIsFloor`, `ChannelStep` and `ChannelRoundTrip` carry its contract |
| Channel.ChannelIsFloor | wifi_scanner.py:65-70 | the channel is the floor of (freq - 2407) / 5 below 3000 MHz and of (freq - 5000) / 5 from 3000 MHz, for every integer |
| Channel.ChannelStep | wifi_scanner.py:65-70 | every frequency lies in the 5 MHz step that starts at its channel's centre frequency |
| Channel.ChannelRoundTrip | wifi_scanner.py:63-70 | the centre frequency of a channel maps back to that channel, when it falls on its band's side of 3000 MHz |
| Channel.BandRange | wifi_scanner.py:65 | the round trip holds for 2.4 GHz channels up to 118 and 5 GHz channels from -400 |
| Channel.ChannelExamples | wifi_scanner.py:65-70 | 2412, 2437 and 2472 MHz give channels 1, 6 and 13; 5180 and 5825 MHz give 36 and 165; 2484 gives 15 and 2400 gives -2 |
| Ordering.Insert | wifi_scanner.py:79 | the reference insertion step: one longer than its input; `InsertPermutation`, `InsertDescending` and `InsertWithRssi` state that it adds the network, keeps the order and places it after its equals |
| Ordering.StableSort | wifi_scanner.py:79 | the reference stable descending sort, as long as its input; `StableSortPermutation`, `StableSortDescending`, `StableSortStable` and `SortedEqualsStableSort` carry its contract |
| Ordering.StableSortPermutation | wifi_scanner.py:79 | the sorted list is a permutation of the input |
| Ordering.StableSortDescending | wifi_scanner.py:79 | rssi values never increase along the sorted list |
| Ordering.StableSortStable | wifi_scanner.py:79 | for every rssi value, the networks with that value appear in the same relative order as in the input |
| Ordering.DescendingStableUnique | wifi_scanner.py:79 | two descending lists with the same equal-rssi groups are equal |
| Ordering.SortedEqualsStableSort | wifi_scanner.py:79 | every stable descending ordering of the input equals the reference sort |
| Ordering.InsertByRssi | wifi_scanner.py:79 | one insertion step places the network before the first strictly weaker one, after all its equals |
| Ordering.SortByRssi | wifi_scanner.py:79 | the sort returns the reference sort, which is descending, a permutation of the input and stable |
| Table.DisplaySsid | wifi_scanner.py:88 | a null or empty SSID shows as "[Hidden]"; any other shows as its prefix of length min(20, length); the column never has more than 20 characters |
| Table.ShortSsidShown | wifi_scanner.py:88 | an SSID of 1 to 20 characters is shown in full |
| Table.RowOf | wifi_scanner.py:88-90 | the values printed for one network: its SSID column, tier, rssi and channel; `BuildRows` and `Render` tie each row to its network |
| Table.BuildRows | wifi_scanner.py:86-93 | one row per network, in order; each row's SSID column, tier, rssi and channel come from that same network |
| Table.Render | wifi_scanner.py:76-93 | the table has one row per input network; row i belongs to the i-th network of the stable sort; rssi and tier never increase down the table |
| Table.Run | wifi_scanner.py:72-93 | the exit status is the acquisition outcome's exit code, always 0 or 1; a table is printed exactly on success, and then it holds one row per decoded network, in sorted order |

## Left out

- Running `termux-wifi-scaninfo` (wifi_scanner.py:20-24) is process I/O. Its result is an input: whether the executable was found, the exit status, and the captured stdout and stderr.
- `json.loads` (wifi_scanner.py:29) is a library parser and is not modelled. Its result is an input: `None` when decoding fails, otherwise the decoded list of networks.
- Decoded JSON is modelled only as an array of objects with an integer `rssi`, an integer `frequency` and a string-or-null `ssid`. Other values are not modelled. Some of them crash the source with an exception it does not catch: an object missing the `ssid`, `rssi` or `frequency` key (wifi_scanner.py:79, 88, 90); a top-level JSON `null`, number or boolean, which cannot be iterated, or a non-empty string or object, whose characters or keys cannot be indexed by `'rssi'` (wifi_scanner.py:79); an array element that is not an object; and a truthy SSID that cannot be sliced or padded, such as a number (wifi_scanner.py:88, 93).
- Other decoded values run normally in the source and are simply not modelled. A float `rssi` such as -60.5 is sorted, tiered (Good) and printed. A float `frequency` such as 2412.0 gives channel 1.0. A falsy non-string SSID (`0`, `false`, `[]`) shows as `[Hidden]`. A top-level `{}` or `""` sorts to an empty list, so the header is printed and the exit status is 0.
- Exceptions other than the three the source catches are not modelled. An example is a scan executable that exists but cannot be run. The source does not handle them either.
- Printing is not modelled. This covers the message texts, the ANSI colour and bold escape sequences, the table header and 38-dash separator (wifi_scanner.py:82-83), and the column widths and padding of each row (wifi_scanner.py:93). A row holds the values that are printed. The colour is `Signal.ColourOf` of the tier.
- The glyph literals at wifi_scanner.py:53-59, as the file stands, are the UTF-8 bytes of the block characters decoded as Windows-1252. For example, U+2588 appears as "â–ˆ" (U+00E2 U+2013 U+02C6), so the file as given prints those three-character sequences, not the block. The model uses the intended glyphs instead: the block characters U+2588, U+2586, U+2584 and U+2582, and a blank for the weakest tier. `Signal.GlyphInjective` holds for the literal strings as well as for the intended glyphs.
- `sys.exit` (wifi_scanner.py:28, 34, 43, 48) is modelled as the exit code of the outcome, not as process termination.
- `str.strip()` and `str.isspace()` are modelled code point by code point. This matches Python for strings whose characters are all Unicode scalar values.
