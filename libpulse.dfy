/** Option and Result, for records that may be absent and for the two
    exceptions pulseaudio.hh throws. */
module Results {

  datatype Option<T> = None | Some(value: T)

  datatype Result<T, E> = Success(value: T) | Failure(error: E)
}

/** What pulseaudio.hh sees of libpulse: its constants, the records it hands
    to callbacks, the context states it reports, and the requests a client
    issues. Only the parts the wrapper reads are modelled. */
module Libpulse {
  import opened Results

  /** PA_CHANNELS_MAX: the size of the `values` array of a `pa_cvolume`. */
  const CHANNELS_MAX: nat := 32

  /** PA_VOLUME_NORM: the native volume of 100%. */
  const VOLUME_NORM: nat := 0x10000

  /** A `pa_cvolume`: a channel count and a fixed array of per-channel
      volumes, of which only the first `channels` entries are meaningful. */
  datatype CVolume = CVolume(channels: nat, values: seq<nat>)

  predicate ValidCVolume(v: CVolume)
  {
    v.channels <= CHANNELS_MAX && |v.values| == CHANNELS_MAX
  }

  /** The fields of a `pa_sink_info` record that the wrapper reads. */
  datatype SinkInfo = SinkInfo(
    index: nat,
    name: string,
    description: string,
    volume: CVolume,
    mute: int)

  /** The field of a `pa_server_info` record that the wrapper reads. */
  datatype ServerInfo = ServerInfo(defaultSinkName: string)

  /** One invocation of a sink-info callback: a record, or (with `eol`
      non-zero) the end-of-list marker, which carries no record. */
  datatype SinkListEvent = SinkListEvent(info: Option<SinkInfo>, eol: int)

  /** libpulse delivers a well-formed record whenever `eol` is zero. */
  predicate WellFormed(e: SinkListEvent)
  {
    e.eol == 0 ==> e.info.Some? && ValidCVolume(e.info.value.volume)
  }

  /** `pa_context_state_t`. */
  datatype ContextState =
    | Unconnected
    | Connecting
    | Authorizing
    | SettingName
    | Ready
    | Failed
    | Terminated

  /** The libpulse calls of the wrapper whose arguments or whose presence
      the wrapper decides. */
  datatype Call =
    | NewContext(clientName: string)
    | Connect
    | GetSinkInfoList
    | GetSinkInfoByIndex(index: nat)
    | GetSinkInfoByName(name: string)
    | GetServerInfo
    | SetSinkVolumeByIndex(index: nat, volume: CVolume)
    | SetSinkMuteByIndex(index: nat, mute: bool)
    | Disconnect
    | FreeMainloop

  /** A channel vector holding `v` in each of `n` channels. */
  function Uniform(n: nat, v: nat): (s: seq<nat>)
    ensures |s| == n
    ensures forall k :: 0 <= k < n ==> s[k] == v
  {
    seq(n, _ => v)
  }

  /** `pa_cvolume_set`: writes `v` into the first `channels` entries of a
      channel array and leaves the rest alone. */
  method CVolumeSet(values: array<nat>, channels: nat, v: nat)
    requires channels <= values.Length
    modifies values
    ensures values[..channels] == Uniform(channels, v)
    ensures values[channels..] == old(values[channels..])
  {
    for k := 0 to channels
      invariant values[..k] == Uniform(k, v)
      invariant values[k..] == old(values[k..])
    {
      values[k] := v;
    }
  }
}
