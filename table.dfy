/** The body of `main`: sort the decoded networks and build one table row
    per network. The text layout of the rows is not modelled; a row holds
    the values that are printed. */
module Table {
  import opened Observation
  import opened Signal
  import opened Channel
  import opened Ordering
  import opened Acquisition

  /** What a row prints: the SSID column, the strength tier (shown as its
      glyph), the raw rssi and the channel number. */
  datatype Row = Row(ssid: string, tier: Tier, rssi: int, channel: int)

  /** Placeholder shown for a network whose SSID is null or empty. */
  const Hidden: string := "[Hidden]"

  /** Widest SSID the table shows. */
  const SsidWidth: nat := 20

  /** The SSID column: `ssid[:20]` when the SSID is truthy (present and not
      empty), otherwise the placeholder. */
  function DisplaySsid(ssid: Option<string>): (d: string)
    ensures ssid.None? || ssid.value == [] ==> d == Hidden
    ensures ssid.Some? && ssid.value != [] ==>
      d <= ssid.value && |d| == if |ssid.value| < SsidWidth then |ssid.value| else SsidWidth
    ensures 0 < |d| <= SsidWidth
  {
    if ssid.Some? && ssid.value != [] then
      var name := ssid.value;
      if |name| <= SsidWidth then name else name[..SsidWidth]
    else Hidden
  }

  /** The row printed for one network. */
  function RowOf(n: Network): Row {
    Row(DisplaySsid(n.ssid), RssiToTier(n.rssi), n.rssi, FreqToChannel(n.frequency))
  }

  /** An SSID of at most 20 characters is shown in full. */
  lemma ShortSsidShown(name: string)
    requires 0 < |name| <= SsidWidth
    ensures DisplaySsid(Some(name)) == name
  {
  }

  /** The loop of `main`: one row per network, in the given order, each
      built from that same network's SSID, rssi and frequency. */
  method BuildRows(sorted: seq<Network>) returns (rows: seq<Row>)
    ensures |rows| == |sorted|
    ensures forall i :: 0 <= i < |rows| ==>
      && rows[i].ssid == DisplaySsid(sorted[i].ssid)
      && rows[i].tier == RssiToTier(sorted[i].rssi)
      && rows[i].rssi == sorted[i].rssi
      && rows[i].channel == FreqToChannel(sorted[i].frequency)
  {
    rows := [];
    for i := 0 to |sorted|
      invariant |rows| == i
      invariant forall j :: 0 <= j < i ==> rows[j] == RowOf(sorted[j])
    {
      var net := sorted[i];
      var ssid := DisplaySsid(net.ssid);
      var bars := RssiToTier(net.rssi);
      var channel := FreqToChannel(net.frequency);
      rows := rows + [Row(ssid, bars, net.rssi, channel)];
    }
  }

  /** Sorting then building rows: the table lists the networks strongest
      first, so both the printed rssi and the tier never increase down the
      table, and row `i` belongs to the `i`-th network of the stable sort. */
  method Render(networks: seq<Network>) returns (rows: seq<Row>)
    ensures |rows| == |networks|
    ensures forall i :: 0 <= i < |rows| ==> rows[i] == RowOf(StableSort(networks)[i])
    ensures forall i, j :: 0 <= i < j < |rows| ==> rows[i].rssi >= rows[j].rssi
    ensures forall i, j :: 0 <= i < j < |rows| ==> Rank(rows[i].tier) >= Rank(rows[j].tier)
  {
    var sorted := SortByRssi(networks);
    rows := BuildRows(sorted);
    forall i, j | 0 <= i < j < |rows| ensures Rank(rows[i].tier) >= Rank(rows[j].tier) {
      TierMonotone(rows[i].rssi, rows[j].rssi);
    }
  }

  /** What one run of the program ends with: the exit status and, when the
      table is printed, its rows. */
  datatype Report = Report(exitCode: int, table: Option<seq<Row>>)

  /** `main`: acquire, and on success render the table. `capture` and `json`
      stand for the scan command's run and the decoding of its stdout. */
  method Run(capture: Capture, json: Option<seq<Network>>) returns (report: Report)
    ensures report.exitCode == Acquire(capture, json).ExitCode()
    ensures report.exitCode == 0 || report.exitCode == 1
    ensures report.table.Some? <==> Acquire(capture, json).Ok?
    ensures report.table.Some? ==>
      && json.Some?
      && |report.table.value| == |json.value|
      && forall i :: 0 <= i < |json.value| ==> report.table.value[i] == RowOf(StableSort(json.value)[i])
  {
    var outcome := Acquire(capture, json);
    match outcome
    case Ok(networks) =>
      var rows := Render(networks);
      report := Report(0, Some(rows));
    case _ =>
      report := Report(outcome.ExitCode(), None);
  }
}
