/** What the recorders see of the capture device, and the JavaScript
    truthiness tests they apply to what it reports. */
module RecordingDevice {
  import opened Wrappers

  /** A capture started by `Audio.Recording.createAsync`. */
  datatype RecordingHandle = RecordingHandle(id: nat)

  /** The level shown when a status carries no usable metering (`-100`). */
  const SilenceLevel: real := -100.0

  /** `if (uri)`: `getURI()` returns `null` or a string; `null` and the empty
      string are falsy, every other string is truthy. */
  function IsTruthyUri(uri: Option<string>): (r: bool)
    ensures uri.None? ==> !r
    ensures uri == Some("") ==> !r
    ensures uri.Some? && |uri.value| > 0 ==> r
  {
    uri.Some? && uri.value != ""
  }

  /** `if (status.metering)`: an absent metering value and 0 are falsy, every
      other level, negative decibels included, is truthy. */
  function IsTruthyMetering(metering: Option<real>): (r: bool)
    ensures metering.None? ==> !r
    ensures metering == Some(0.0) ==> !r
    ensures metering.Some? && (metering.value < 0.0 || metering.value > 0.0) ==> r
  {
    metering.Some? && metering.value != 0.0
  }

  /** `status.metering || -100`: the metering value when it is truthy, the
      silence level otherwise. */
  function MeteringOr(metering: Option<real>): (level: real)
    ensures IsTruthyMetering(metering) ==> level == metering.value
    ensures !IsTruthyMetering(metering) ==> level == SilenceLevel
    ensures level != 0.0
  {
    if IsTruthyMetering(metering) then metering.value else SilenceLevel
  }
}
