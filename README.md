# pamixer's PulseAudio wrapper, modelled in Dafny

pamixer's `pulseaudio.hh` wraps the libpulse client API in two C++ classes:

- `Pulseaudio`, the connection manager. It connects a context to the audio
  server, and a `state_cb` callback tracks whether the context is connecting,
  connected or failed. It then runs blocking queries: list the sinks, get a
  sink by index or by name, get the default sink. It also sends volume and
  mute requests.
- `Sink`, a snapshot of one sink taken from a `pa_sink_info` record. It holds
  the index, name, description, channel volume vector, a derived volume
  percentage and the mute flag.

The model has four modules:

- `Volume` (volume.dfy) holds the file's own `round`, which rounds half away
  from zero. It also holds the two unit conversions built on it:
  - native volume to percentage, for `Sink::volume_percent`;
  - percentage to native volume, for `set_sink_volume`.

  Both are computed exactly over `real`.
- `Libpulse` (libpulse.dfy) holds the library's side:
  - the constants `PA_CHANNELS_MAX` (32) and `PA_VOLUME_NORM` (0x10000);
  - the `pa_cvolume`, `pa_sink_info` and `pa_server_info` fields the wrapper reads;
  - the context states;
  - the calls the wrapper makes;
  - `pa_cvolume_set`, as a loop over the channel array.

  `Results` (same file) gives `Option` and `Result`.
- `Sinks` (sinks.dfy) holds the `Sink` class, with its fixed channel array and
  its copying constructor, and `sink_list_cb`. `Delivered` gives the records
  among a query's callback invocations, in delivery order.
- `Pulse` (pulse.dfy) holds the `Pulseaudio` class:
  - `state_cb` becomes `StateCallback`;
  - the constructor's connect loop;
  - the `throw` on a failed connection, as `Open` returning a `Result`;
  - the destructor, the queries, and the volume and mute requests.

  The functions `OnContextState`, `ApplyBatch` and `Settle` give the state
  machine as pure functions.

What the server does is a parameter of each operation:

- the context states it reports while the constructor iterates, one batch
  per `pa_mainloop_iterate` call (a batch may be empty or hold several
  reports, and the loop tests the state only between batches);
- the sink-info callback invocations of a query, each a record or the
  end-of-list marker;
- the server-info record, or `None` when its callback never runs.

`pa_cvolume_avg` is a function-valued constant `avg` of the `Pulseaudio`
object. The field `calls` records the libpulse requests the wrapper issues,
in order.

Three behaviours of the code are easy to miss:

- The state callback stays registered after connecting. So a FAILED report
  after READY does move the state from `Connected` to `Error`, and the
  destructor then skips the disconnect. `OnContextState` states this.
  Within one iteration the last decisive report wins:
  `ReadyThenFailedInOneIteration` shows READY then FAILED ending in `Error`.
- `set_sink_volume` rewrites the channel vector of the caller's snapshot.
  It does not recompute the snapshot's `volume_percent`, so that field keeps
  its old value. `SetSinkVolume` leaves the field unchanged.
  `SetVolumeReadsBack` states what a fresh snapshot would report.
- When the constructor throws, no destructor runs for the half-built object.
  `Open` returns no object to destroy in that case.

## Model

| member | source | states |
|---|---|---|
| `Volume.Round` | pulseaudio.hh:39-41 | The result is an integer within one half of `x`. A tie goes up only for positive `x` and down only for negative `x`, so halves round away from zero. |
| `Volume.RoundUnique` | pulseaudio.hh:39-41 | Exactly one integer satisfies that relation, and it is `Round(x)`, in both directions. |
| `Volume.RoundOdd` | pulseaudio.hh:39-41 | `round(-x) == -round(x)`. |
| `Volume.RoundMonotone` | pulseaudio.hh:39-41 | `x <= y` implies `round(x) <= round(y)`. |
| `Volume.RoundIntegral` | pulseaudio.hh:39-41 | An integral value rounds to itself. |
| `Volume.ClampAtZero` | pulseaudio.hh:143 | `fmax(a, 0)` is non-negative, at least `a`, and equal to `a` or 0. |
| `Volume.NativeVolume` | pulseaudio.hh:143 | The native volume is never negative. It is 0 for any percentage at or below 0. For a non-negative percentage `p` it is `p * NORM / 100` rounded half away from zero. |
| `Volume.VolumePercent` | pulseaudio.hh:60 | The percentage is never negative and is `avg * 100 / NORM` rounded half away from zero. |
| `Volume.PercentRoundTrip` | pulseaudio.hh:142-143 | For a percentage `p >= 0` and NORM >= 100, the percentage of the native volume set for `p` is `p` again (conversion of line 60 applied to that of line 143). |
| `Volume.NegativePercentReadsZero` | pulseaudio.hh:143 | A negative percentage gives native volume 0, which reads back as 0%. |
| `Libpulse.CVolumeSet` | pulseaudio.hh:143 | `pa_cvolume_set` writes the single value into each of the first `channels` entries and leaves the rest of the array untouched. |
| `Sinks.Sink.constructor` | pulseaudio.hh:52-63 | The snapshot copies the following from the record: index, name, description, channel count, and exactly the first `channels` volumes. `volume_percent` is the percentage of `pa_cvolume_avg` of the copied volumes. `mute` is true iff the record's `mute` is 1. The channel array is a new one. |
| `Sinks.DeliveredConcat` | pulseaudio.hh:179-185 | The records of two consecutive batches of callback invocations are those of the first batch followed by those of the second. Delivery order is kept. |
| `Sinks.DeliveredStep` | pulseaudio.hh:179-185 | One more callback invocation adds its record, if it carries one, at the back of the records delivered so far. The end marker adds nothing. |
| `Sinks.Delivered` | pulseaudio.hh:179-185 | The records `sink_list_cb` collects during one query, in delivery order. There are never more than there were invocations, and none when every invocation is an end-of-list marker. |
| `Sinks.DeliveredExactlyRecords` | pulseaudio.hh:180-184 | The record of every invocation with `eol == 0` is collected. Every collected record comes from such an invocation, so the end-of-list marker never yields an entry. |
| `Sinks.SinkListCallback` | pulseaudio.hh:179-185 | With `eol != 0` the list is unchanged. Otherwise one new snapshot of the record, with a new channel array of its own, is appended at the back and the earlier entries are kept in order. |
| `Pulse.OnContextState` | pulseaudio.hh:162-176 | READY gives `Connected` and FAILED gives `Error`, whatever the previous state, `Connected` included. The other five context states leave the state unchanged. |
| `Pulse.ApplyBatch` | pulseaudio.hh:90-92 | One main-loop iteration feeds its reports to `state_cb` in order. Without a READY or FAILED report the state is unchanged. With one, the state is no longer `Connecting`. |
| `Pulse.ApplyBatchLastDecisive` | pulseaudio.hh:162-176 | Within one iteration the last READY or FAILED report decides: READY gives `Connected` and FAILED gives `Error`. |
| `Pulse.Settle` | pulseaudio.hh:90-92 | The state the connect loop leaves. A state other than `Connecting` is kept. The result is `Connecting` iff the start was `Connecting` and no iteration delivered a READY or FAILED report, which is when the source's loop never ends. |
| `Pulse.SettleFirstDecisive` | pulseaudio.hh:88-92 | The connect loop's outcome is decided by the first iteration that delivers a READY or FAILED report. Later iterations never run. |
| `Pulse.ReadyThenFailedInOneIteration` | pulseaudio.hh:90-94 | READY followed by FAILED in one iteration ends in `Error`, so the constructor throws. |
| `Pulse.SetVolumeReadsBack` | pulseaudio.hh:142-143 | Suppose `pa_cvolume_avg` of a uniform vector is its common value. Then the uniform vector written for a percentage `p >= 0` has `volume_percent` `p`. |
| `Pulse.CollectSinks` | pulseaudio.hh:104-110 | A query's iterate loop, feeding each invocation to `sink_list_cb`, leaves one new snapshot per delivered record, in delivery order. Each snapshot has a new channel array, and no two snapshots share one. |
| `Pulse.Pulseaudio.StateCallback` | pulseaudio.hh:160-177 | The new state is the `OnContextState` transition of the old state and the reported context state. |
| `Pulse.Pulseaudio.constructor` | pulseaudio.hh:82-92 | The state starts at `Connecting`. Each iteration feeds its whole batch of reports to `state_cb`, and the loop stops after the first iteration that leaves the state other than `Connecting`. The final state is `Settle`'s, `Connected` or `Error`. The calls made are the context creation with the client name, then the connect. |
| `Pulse.Pulseaudio.Open` | pulseaudio.hh:93-95 | `ConnectionError` exactly when the connection settles on `Error`. Otherwise it returns a new object whose state is `Connected`, having made only the context creation and the connect. |
| `Pulse.Pulseaudio.Destroy` | pulseaudio.hh:98-102 | Disconnect is called iff the state is `Connected`. The main loop is freed in every case, after the disconnect. |
| `Pulse.Pulseaudio.GetSinks` | pulseaudio.hh:104-111 | One sink-info-list request is issued. The result holds one snapshot per delivered record, in delivery order, and none for the end marker. Each snapshot owns a new channel array that no other snapshot shares. |
| `Pulse.Pulseaudio.GetSinkByIndex` | pulseaudio.hh:113-121 | One by-index request is issued. The result is `SinkNotFound` iff no record was delivered; otherwise it is a snapshot of the first record, made with a new channel array. |
| `Pulse.Pulseaudio.GetSinkByName` | pulseaudio.hh:123-131 | One by-name request is issued. The result is `SinkNotFound` iff no record was delivered; otherwise it is a snapshot of the first record, made with a new channel array. |
| `Pulse.Pulseaudio.GetDefaultSink` | pulseaudio.hh:133-140 | Exactly two requests are issued: server info, then by-name with the default sink name that `server_info_cb` stored (lines 187-190). That name is the empty string of line 134 when the callback never runs. The result is then that of the by-name lookup, so a found sink is a snapshot with a new channel array. |
| `Pulse.Pulseaudio.SetSinkVolume` | pulseaudio.hh:142-147 | The first `channels` entries of the caller's sink all become `NativeVolume(p, NORM)`, replacing any earlier per-channel skew. The channel count, the other entries and the other fields are kept. The request sent carries the sink's index and the sink's whole `pa_cvolume`, with the new values. |
| `Pulse.Pulseaudio.SetSinkMute` | pulseaudio.hh:149-153 | One set-mute request is sent, with the sink's index and the flag. The snapshot is not touched. |

## Left out

- The libpulse main loop, context and operation handles are left out: `pa_mainloop_*`, `pa_context_new`/`connect`/`disconnect`, `pa_operation_get_state`/`unref`. They are foreign calls. The model replaces them with parameters giving what the server delivers, and with entries in `calls`.
- The `iterate` helper's polling loop (lines 73-77) is left out. Its termination depends on the server. Each query is modelled at the point where the operation is no longer running, with every callback invocation already made.
- Pulse.Pulseaudio.constructor: requires some iteration to deliver a READY or FAILED report. Without one the source iterates forever; `Settle` states that case.
- A context state reported after construction is not fed in by the queries. `StateCallback` may be called at any time, and `OnContextState` covers the transitions out of `Connected`.
- Pulse.Pulseaudio.GetDefaultSink: does not model libpulse calling `server_info_cb` with a NULL record, or with a record whose `default_sink_name` is NULL because the server has no default sink. Line 189 copies either into a `std::string` without a check, which crashes. `ServerInfo.defaultSinkName` is a plain `string`, so the model cannot express that case and treats every delivered name as an ordinary by-name lookup.
- Pulse.Pulseaudio.GetSinks, GetSinkByIndex, GetSinkByName, GetDefaultSink, SetSinkVolume, SetSinkMute: assume libpulse accepts each request. The source passes the returned operation to `iterate` without a NULL check (lines 106, 115, 125, 135, 144, 150). Like the source, they do not require the state to be `Connected`.
- IEEE doubles are not modelled: no `floor`/`ceil`/`fmax` rounding error, no NaN. The arithmetic is exact over `real`.
- Volume.NativeVolume: does not model the overflow of the `(pa_volume_t)` cast for very large percentages. `pa_volume_t` values are `nat`, with no 32-bit bound.
- Sink indices and `uint8_t` channel counts are `nat`. libpulse guarantees `channels <= PA_CHANNELS_MAX`, and `ValidCVolume` states it.
- `pa_cvolume_avg` is a parameter (`avg`) and is not defined here. `SetVolumeReadsBack` assumes only that the average of a uniform vector is its common value.
- `success_cb` (lines 192-193) has no body, so it is left out. The acknowledgement flag of volume and mute requests never reaches the caller.
- The exceptions' message texts are not modelled: the two `PulseError` values stand for them.
- Returning a `Sink` by value is not modelled. The model hands back a reference to the collected snapshot. The contracts state that this object and its channel array are new, and that the snapshots of one query never share a channel array. They do not state that the returned reference is the only one the caller can reach.
- `sink_list_cb` pushes into a list through a raw pointer. In the model it returns the extended sequence instead.
