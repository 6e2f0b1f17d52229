/** The one entity the scanner handles: a network observation as decoded from
    the scan command's JSON array, plus the Option type used for its SSID. */
module Observation {

  /** The conventional Some/None datatype. */
  datatype Option<+T> = None | Some(value: T)

  /** One element of the decoded scan result. `ssid` is `None` when the JSON
      field is null; `rssi` is the signal level in dBm and `frequency` the
      centre frequency in MHz, both unbounded integers as in Python. */
  datatype Network = Network(ssid: Option<string>, rssi: int, frequency: int)
}
