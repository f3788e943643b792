/** The `Sink` snapshot class of pulseaudio.hh, the sink-list callback that
    builds snapshots, and the records a finished sink query has delivered. */
module Sinks {
  import opened Results
  import opened Libpulse
  import Volume

  /** A snapshot of one sink, taken when a query answered. Its `values`
      array is the `pa_cvolume` buffer embedded in the C++ object; only the
      first `channels` entries are meaningful. */
  class Sink {
    var index: nat
    var name: string
    var description: string
    var channels: nat
    const values: array<nat>
    var volumePercent: int
    var mute: bool

    ghost predicate Valid()
      reads this
    {
      values.Length == CHANNELS_MAX && channels <= CHANNELS_MAX
    }

    /** The meaningful part of the channel vector. */
    function ChannelVolumes(): (s: seq<nat>)
      reads this, values
      requires Valid()
      ensures |s| == channels
    {
      values[..channels]
    }

    /** This snapshot is the one the constructor builds from record `i`,
        `avg` standing for `pa_cvolume_avg`. */
    ghost predicate Snapshots(i: SinkInfo, avg: seq<nat> -> nat)
      reads this, values
    {
      && Valid()
      && ValidCVolume(i.volume)
      && index == i.index
      && name == i.name
      && description == i.description
      && channels == i.volume.channels
      && ChannelVolumes() == i.volume.values[..i.volume.channels]
      && volumePercent == Volume.VolumePercent(avg(ChannelVolumes()), VOLUME_NORM)
      && mute == (i.mute == 1)
    }

    /** `Sink(const pa_sink_info*)`: copies the identity fields and the first
        `channels` volumes, and derives the percentage from their average. */
    constructor (i: SinkInfo, avg: seq<nat> -> nat)
      requires ValidCVolume(i.volume)
      ensures Snapshots(i, avg)
      ensures fresh(values)
    {
      index := i.index;
      name := i.name;
      description := i.description;
      channels := i.volume.channels;
      var buffer := new nat[CHANNELS_MAX];
      var n := 0;
      while n < i.volume.channels
        invariant 0 <= n <= i.volume.channels
        invariant buffer[..n] == i.volume.values[..n]
      {
        buffer[n] := i.volume.values[n];
        n := n + 1;
      }
      values := buffer;
      volumePercent := Volume.VolumePercent(avg(buffer[..i.volume.channels]), VOLUME_NORM);
      mute := i.mute == 1;
    }
  }

  /** The records among the callback invocations, in delivery order; the
      end-of-list marker contributes nothing. */
  function Delivered(events: seq<SinkListEvent>): (r: seq<SinkInfo>)
    requires forall k :: 0 <= k < |events| ==> WellFormed(events[k])
    ensures |r| <= |events|
    ensures (forall k :: 0 <= k < |events| ==> events[k].eol != 0) ==> r == []
  {
    if events == [] then []
    else
      var last := events[|events| - 1];
      assert WellFormed(last);
      Delivered(events[..|events| - 1]) + (if last.eol == 0 then [last.info.value] else [])
  }

  /** Records delivered in two batches are the records of the first batch
      followed by those of the second. */
  lemma {:induction false} DeliveredConcat(a: seq<SinkListEvent>, b: seq<SinkListEvent>)
    requires forall k :: 0 <= k < |a| ==> WellFormed(a[k])
    requires forall k :: 0 <= k < |b| ==> WellFormed(b[k])
    ensures forall k :: 0 <= k < |a + b| ==> WellFormed((a + b)[k])
    ensures Delivered(a + b) == Delivered(a) + Delivered(b)
  {
    assert forall k :: 0 <= k < |a + b| ==> WellFormed((a + b)[k]) by {
      forall k | 0 <= k < |a + b| ensures WellFormed((a + b)[k]) {
        if k < |a| { assert (a + b)[k] == a[k]; } else { assert (a + b)[k] == b[k - |a|]; }
      }
    }
    if b != [] {
      var b' := b[..|b| - 1];
      assert (a + b)[..|a + b| - 1] == a + b';
      DeliveredConcat(a, b');
    } else {
      assert a + b == a;
    }
  }

  /** One more invocation adds its record, if it carries one, at the back
      of the records delivered so far. */
  lemma DeliveredStep(events: seq<SinkListEvent>, k: nat)
    requires forall j :: 0 <= j < |events| ==> WellFormed(events[j])
    requires k < |events|
    ensures events[k].eol == 0 ==> events[k].info.Some?
    ensures Delivered(events[..k + 1]) ==
      Delivered(events[..k]) + (if events[k].eol == 0 then [events[k].info.value] else [])
  {
    assert WellFormed(events[k]);
    assert events[..k + 1] == events[..k] + [events[k]];
    DeliveredConcat(events[..k], [events[k]]);
    assert [events[k]][..0] == [];
  }

  /** The records collected are exactly those of the invocations with `eol`
      zero: each of them is collected, and nothing else is, so the
      end-of-list marker never yields an entry. */
  lemma {:induction false} DeliveredExactlyRecords(events: seq<SinkListEvent>)
    requires forall k :: 0 <= k < |events| ==> WellFormed(events[k])
    ensures forall k :: 0 <= k < |events| && events[k].eol == 0 ==>
      events[k].info.Some? && events[k].info.value in Delivered(events)
    ensures forall x :: x in Delivered(events) ==>
      exists k :: 0 <= k < |events| && events[k].eol == 0 && events[k].info == Some(x)
  {
    if events != [] {
      var init := events[..|events| - 1];
      DeliveredExactlyRecords(init);
      forall k | 0 <= k < |events| && events[k].eol == 0
        ensures events[k].info.Some? && events[k].info.value in Delivered(events)
      {
        assert WellFormed(events[k]);
        if k < |init| {
          assert events[k] == init[k];
        }
      }
      forall x | x in Delivered(events)
        ensures exists k :: 0 <= k < |events| && events[k].eol == 0 && events[k].info == Some(x)
      {
        if x in Delivered(init) {
          var k :| 0 <= k < |init| && init[k].eol == 0 && init[k].info == Some(x);
          assert events[k] == init[k];
        } else {
          assert events[|events| - 1].info == Some(x);
        }
      }
    }
  }

  /** `sink_list_cb`: ignores the end-of-list marker and otherwise appends a
      snapshot of the delivered record at the back of the list. */
  method SinkListCallback(sinks: seq<Sink>, i: Option<SinkInfo>, eol: int, avg: seq<nat> -> nat)
    returns (result: seq<Sink>)
    requires WellFormed(SinkListEvent(i, eol))
    ensures eol != 0 ==> result == sinks
    ensures eol == 0 ==> |result| == |sinks| + 1 && result[..|sinks|] == sinks
    ensures eol == 0 ==> fresh(result[|sinks|]) && fresh(result[|sinks|].values)
    ensures eol == 0 ==> result[|sinks|].Snapshots(i.value, avg)
  {
    if eol != 0 {
      return sinks;
    }
    var s := new Sink(i.value, avg);
    result := sinks + [s];
  }
}
