/** The connection manager of pulseaudio.hh: the `Pulseaudio` class, its
    connection state machine driven by `state_cb`, and the blocking queries
    and volume/mute requests built on the sink-list callback.

    libpulse itself is not modelled. What the server does while the main
    loop iterates is a parameter of each operation: the context states it
    reports while connecting, the callback invocations of a sink query, the
    server-info record. The libpulse calls the wrapper makes are recorded in
    `calls`. */
module Pulse {
  import opened Results
  import opened Libpulse
  import opened Sinks
  import Volume

  /** The wrapper's three-valued `state`. */
  datatype ConnectionState = Connecting | Connected | Error

  datatype PulseError =
    | ConnectionError  // "Connection error"
    | SinkNotFound     // "The sink doesn't exit"

  /** A context state that `state_cb` reacts to. */
  predicate Decisive(c: ContextState)
  {
    c == Ready || c == Failed
  }

  /** Some report of `batch` is READY or FAILED. */
  predicate DecidesIn(batch: seq<ContextState>)
  {
    exists j :: 0 <= j < |batch| && Decisive(batch[j])
  }

  /** The transition `state_cb` makes when libpulse reports context state
      `c`: READY connects and FAILED is an error, whatever the state was;
      the other five context states keep `s`. */
  function OnContextState(s: ConnectionState, c: ContextState): (r: ConnectionState)
    ensures c == Ready ==> r == Connected
    ensures c == Failed ==> r == Error
    ensures !Decisive(c) ==> r == s
  {
    match c
    case Ready => Connected
    case Failed => Error
    case Unconnected | Connecting | Authorizing | SettingName | Terminated => s
  }

  /** The state after `state_cb` has seen every report of `batch`, in order:
      what one `pa_mainloop_iterate` call does to the state. */
  function ApplyBatch(s: ConnectionState, batch: seq<ContextState>): (r: ConnectionState)
    ensures !DecidesIn(batch) ==> r == s
    ensures DecidesIn(batch) ==> r != ConnectionState.Connecting
  {
    if batch == [] then s
    else
      var init := batch[..|batch| - 1];
      assert DecidesIn(batch) && !Decisive(batch[|batch| - 1]) ==> DecidesIn(init) by {
        if DecidesIn(batch) && !Decisive(batch[|batch| - 1]) {
          var j :| 0 <= j < |batch| && Decisive(batch[j]);
          assert batch[j] == init[j];
        }
      }
      assert DecidesIn(init) ==> DecidesIn(batch) by {
        if DecidesIn(init) {
          var j :| 0 <= j < |init| && Decisive(init[j]);
          assert batch[j] == init[j];
        }
      }
      OnContextState(ApplyBatch(s, init), batch[|batch| - 1])
  }

  /** Within one iteration the last READY or FAILED report wins. */
  lemma {:induction false} ApplyBatchLastDecisive(s: ConnectionState, batch: seq<ContextState>, j: nat)
    requires j < |batch| && Decisive(batch[j])
    requires forall i :: j < i < |batch| ==> !Decisive(batch[i])
    ensures ApplyBatch(s, batch) == if batch[j] == Ready then Connected else Error
  {
    if j < |batch| - 1 {
      var init := batch[..|batch| - 1];
      assert init[j] == batch[j];
      ApplyBatchLastDecisive(s, init, j);
    }
  }

  /** The state the constructor's loop leaves: each iteration of the main
      loop hands its batch of context states to `state_cb`, and the state
      is tested again only after the whole batch. */
  function Settle(s: ConnectionState, batches: seq<seq<ContextState>>): (r: ConnectionState)
    ensures s != ConnectionState.Connecting ==> r == s
    ensures r == ConnectionState.Connecting <==>
      s == ConnectionState.Connecting && forall k :: 0 <= k < |batches| ==> !DecidesIn(batches[k])
    decreases |batches|
  {
    if s != ConnectionState.Connecting || batches == [] then s
    else
      var r := Settle(ApplyBatch(s, batches[0]), batches[1..]);
      assert forall k :: 1 <= k < |batches| ==> batches[k] == batches[1..][k - 1];
      r
  }

  /** The outcome of connecting is decided by the first iteration that
      delivers a READY or FAILED report; no later iteration runs. */
  lemma {:induction false} SettleFirstDecisive(batches: seq<seq<ContextState>>, k: nat)
    requires k < |batches| && DecidesIn(batches[k])
    requires forall j :: 0 <= j < k ==> !DecidesIn(batches[j])
    ensures Settle(ConnectionState.Connecting, batches) == ApplyBatch(ConnectionState.Connecting, batches[k])
  {
    if k > 0 {
      assert !DecidesIn(batches[0]);
      SettleFirstDecisive(batches[1..], k - 1);
    }
  }

  /** READY followed by FAILED within one iteration ends in `Error`, so the
      constructor throws, although the state was `Connected` in between. */
  lemma ReadyThenFailedInOneIteration()
    ensures Settle(ConnectionState.Connecting, [[Ready, Failed]]) == Error
  {
    ApplyBatchLastDecisive(ConnectionState.Connecting, [Ready, Failed], 1);
  }

  /** After `set_sink_volume(sink, p)` with `p >= 0`, the average of the
      uniform channel vector, read back as a percentage, is `p` again,
      provided `pa_cvolume_avg` of a uniform vector is its common value. */
  lemma SetVolumeReadsBack(avg: seq<nat> -> nat, channels: nat, percent: nat)
    requires avg(Uniform(channels, Volume.NativeVolume(percent, VOLUME_NORM)))
          == Volume.NativeVolume(percent, VOLUME_NORM)
    ensures Volume.VolumePercent(avg(Uniform(channels, Volume.NativeVolume(percent, VOLUME_NORM))), VOLUME_NORM)
         == percent
  {
    Volume.PercentRoundTrip(percent, VOLUME_NORM);
  }

  /** The iterate loop of a sink query: the callback sees each invocation
      in turn and the list it fills starts empty. Like the C++ copies, the
      snapshots own separate, new channel arrays. */
  method CollectSinks(events: seq<SinkListEvent>, avg: seq<nat> -> nat) returns (sinks: seq<Sink>)
    requires forall k :: 0 <= k < |events| ==> WellFormed(events[k])
    ensures |sinks| == |Delivered(events)|
    ensures forall j :: 0 <= j < |sinks| ==>
      fresh(sinks[j]) && fresh(sinks[j].values) && sinks[j].Snapshots(Delivered(events)[j], avg)
    ensures forall i, j :: 0 <= i < j < |sinks| ==> sinks[i].values != sinks[j].values
  {
    sinks := [];
    for k := 0 to |events|
      invariant |sinks| == |Delivered(events[..k])|
      invariant forall j :: 0 <= j < |sinks| ==>
        fresh(sinks[j]) && fresh(sinks[j].values) && sinks[j].Snapshots(Delivered(events[..k])[j], avg)
      invariant forall i, j :: 0 <= i < j < |sinks| ==> sinks[i].values != sinks[j].values
    {
      ghost var before := sinks;
      DeliveredStep(events, k);
      sinks := SinkListCallback(sinks, events[k].info, events[k].eol, avg);
      if events[k].eol == 0 {
        // The snapshots taken so far keep their place and their state; the
        // new one owns an array none of them had.
        assert sinks == before + [sinks[|before|]];
      }
    }
    assert events[..|events|] == events;
  }

  class Pulseaudio {
    var state: ConnectionState
    /** The libpulse calls made so far, oldest first. */
    var calls: seq<Call>
    /** `pa_cvolume_avg`, whose definition lives in libpulse. */
    const avg: seq<nat> -> nat

    /** `state_cb`, invoked by libpulse whenever the context state changes. */
    method StateCallback(c: ContextState)
      modifies this`state
      ensures state == OnContextState(old(state), c)
    {
      match c
      case Ready =>
        state := Connected;
      case Failed =>
        state := Error;
      case Unconnected | Connecting | Authorizing | SettingName | Terminated =>
    }

    /** The body of `Pulseaudio(client_name)` up to its `throw`: create the
        context, connect, then iterate the main loop while the state is
        `Connecting`; iteration `k` delivers the batch `batches[k]` of
        context states to `state_cb`. The server must eventually report
        READY or FAILED, or the loop never ends. */
    constructor (clientName: string, avg: seq<nat> -> nat, batches: seq<seq<ContextState>>)
      requires exists k :: 0 <= k < |batches| && DecidesIn(batches[k])
      ensures state == Settle(ConnectionState.Connecting, batches)
      ensures state == Connected || state == Error
      ensures calls == [NewContext(clientName), Connect]
      ensures this.avg == avg
    {
      this.avg := avg;
      state := ConnectionState.Connecting;
      calls := [NewContext(clientName), Connect];
      new;
      var k := 0;
      while state == ConnectionState.Connecting
        invariant 0 <= k <= |batches|
        invariant Settle(state, batches[k..]) == Settle(ConnectionState.Connecting, batches)
        invariant state == ConnectionState.Connecting ==> forall j :: 0 <= j < k ==> !DecidesIn(batches[j])
        invariant calls == [NewContext(clientName), Connect] && this.avg == avg
        decreases |batches| - k
      {
        assert k < |batches|;
        assert batches[k..][1..] == batches[k + 1..];
        // One `pa_mainloop_iterate`: every report of the batch reaches state_cb.
        var batch := batches[k];
        ghost var before := state;
        for i := 0 to |batch|
          invariant state == ApplyBatch(before, batch[..i])
          invariant calls == [NewContext(clientName), Connect] && this.avg == avg
        {
          assert batch[..i + 1][..i] == batch[..i];
          StateCallback(batch[i]);
        }
        assert batch[..|batch|] == batch;
        k := k + 1;
      }
    }

    /** `Pulseaudio(client_name)` with its `throw`: a connection error
        exactly when the state settles on `Error`. */
    static method Open(clientName: string, avg: seq<nat> -> nat, batches: seq<seq<ContextState>>)
      returns (r: Result<Pulseaudio, PulseError>)
      requires exists k :: 0 <= k < |batches| && DecidesIn(batches[k])
      ensures r.Failure? <==> Settle(ConnectionState.Connecting, batches) == Error
      ensures r.Failure? ==> r.error == ConnectionError
      ensures r.Success? ==> fresh(r.value) && r.value.state == Connected
      ensures r.Success? ==> r.value.calls == [NewContext(clientName), Connect] && r.value.avg == avg
    {
      var pulse := new Pulseaudio(clientName, avg, batches);
      if pulse.state == Error {
        return Failure(ConnectionError);
      }
      return Success(pulse);
    }

    /** `~Pulseaudio()`: disconnects only a connected context, and always
        frees the main loop. */
    method Destroy()
      modifies this`calls
      ensures calls == old(calls) + (if state == Connected then [Disconnect] else []) + [FreeMainloop]
    {
      if state == Connected {
        calls := calls + [Disconnect];
      }
      calls := calls + [FreeMainloop];
    }

    /** `get_sinks()`: one snapshot per record delivered, in delivery order. */
    method GetSinks(events: seq<SinkListEvent>) returns (sinks: seq<Sink>)
      requires forall k :: 0 <= k < |events| ==> WellFormed(events[k])
      modifies this`calls
      ensures calls == old(calls) + [GetSinkInfoList]
      ensures |sinks| == |Delivered(events)|
      ensures forall j :: 0 <= j < |sinks| ==>
        fresh(sinks[j]) && fresh(sinks[j].values) && sinks[j].Snapshots(Delivered(events)[j], avg)
      ensures forall i, j :: 0 <= i < j < |sinks| ==> sinks[i].values != sinks[j].values
    {
      calls := calls + [GetSinkInfoList];
      sinks := CollectSinks(events, avg);
    }

    /** `get_sink(uint32_t index)`: the first snapshot collected, or
        `SinkNotFound` when the server delivered no record. */
    method GetSinkByIndex(index: nat, events: seq<SinkListEvent>) returns (r: Result<Sink, PulseError>)
      requires forall k :: 0 <= k < |events| ==> WellFormed(events[k])
      modifies this`calls
      ensures calls == old(calls) + [GetSinkInfoByIndex(index)]
      ensures r.Failure? <==> Delivered(events) == []
      ensures r.Failure? ==> r.error == SinkNotFound
      ensures r.Success? ==> fresh(r.value) && fresh(r.value.values)
      ensures r.Success? ==> r.value.Snapshots(Delivered(events)[0], avg)
    {
      calls := calls + [GetSinkInfoByIndex(index)];
      var sinks := CollectSinks(events, avg);
      if sinks == [] {
        return Failure(SinkNotFound);
      }
      return Success(sinks[0]);
    }

    /** `get_sink(std::string name)`: as the lookup by index, with the
        server filtering by name. */
    method GetSinkByName(name: string, events: seq<SinkListEvent>) returns (r: Result<Sink, PulseError>)
      requires forall k :: 0 <= k < |events| ==> WellFormed(events[k])
      modifies this`calls
      ensures calls == old(calls) + [GetSinkInfoByName(name)]
      ensures r.Failure? <==> Delivered(events) == []
      ensures r.Failure? ==> r.error == SinkNotFound
      ensures r.Success? ==> fresh(r.value) && fresh(r.value.values)
      ensures r.Success? ==> r.value.Snapshots(Delivered(events)[0], avg)
    {
      calls := calls + [GetSinkInfoByName(name)];
      var sinks := CollectSinks(events, avg);
      if sinks == [] {
        return Failure(SinkNotFound);
      }
      return Success(sinks[0]);
    }

    /** `get_default_sink()`: a server-info request, whose callback
        (`server_info_cb`) stores the default sink's name, followed by the
        lookup by that name: exactly two requests. `server` is the record
        the callback receives, or `None` when the callback never runs; the
        name then stays the empty string it was initialised to. */
    method GetDefaultSink(server: Option<ServerInfo>, events: seq<SinkListEvent>) returns (r: Result<Sink, PulseError>)
      requires forall k :: 0 <= k < |events| ==> WellFormed(events[k])
      modifies this`calls
      ensures server.Some? ==> calls == old(calls) + [GetServerInfo, GetSinkInfoByName(server.value.defaultSinkName)]
      ensures server.None? ==> calls == old(calls) + [GetServerInfo, GetSinkInfoByName("")]
      ensures r.Failure? <==> Delivered(events) == []
      ensures r.Failure? ==> r.error == SinkNotFound
      ensures r.Success? ==> fresh(r.value) && fresh(r.value.values)
      ensures r.Success? ==> r.value.Snapshots(Delivered(events)[0], avg)
    {
      calls := calls + [GetServerInfo];
      var defaultSinkName := "";
      if server.Some? {
        defaultSinkName := server.value.defaultSinkName;
      }
      r := GetSinkByName(defaultSinkName, events);
    }

    /** `set_sink_volume(sink, new_volume)`: overwrites every channel of the
        caller's snapshot with one native volume and sends the result. The
        snapshot's `volumePercent` is not recomputed. */
    method SetSinkVolume(sink: Sink, newVolume: int)
      requires sink.Valid()
      modifies this`calls, sink.values
      ensures sink.ChannelVolumes() == Uniform(sink.channels, Volume.NativeVolume(newVolume, VOLUME_NORM))
      ensures sink.values[sink.channels..] == old(sink.values[sink.channels..])
      ensures calls == old(calls) + [SetSinkVolumeByIndex(sink.index, CVolume(sink.channels, sink.values[..]))]
    {
      CVolumeSet(sink.values, sink.channels, Volume.NativeVolume(newVolume, VOLUME_NORM));
      calls := calls + [SetSinkVolumeByIndex(sink.index, CVolume(sink.channels, sink.values[..]))];
    }

    /** `set_sink_mute(sink, mute)`: forwards the flag for the sink's index;
        the snapshot is left as it was. */
    method SetSinkMute(sink: Sink, mute: bool)
      modifies this`calls
      ensures calls == old(calls) + [SetSinkMuteByIndex(sink.index, mute)]
    {
      calls := calls + [SetSinkMuteByIndex(sink.index, mute)];
    }
  }
}
