/** The host surface the script talks to (FL Studio's `device`, `transport`
    and `midi` modules), modelled as a recorder: every outbound MIDI message
    and every transport command is appended to a trace. The host's own
    behaviour is not modelled; queries such as `transport.isPlaying()` and
    `playlist.getLiveBlockStatus` are inputs of the operations that use them. */
module HostApi {

  /** The transport commands the script issues. */
  datatype TransportCall =
    | Start
    | Stop
    | Record
    | SetLoopMode
    | FastForward(speed: int)
    | Rewind(speed: int)

  /** Records `device.midiOutMsg(m)` and the `transport.*` calls, in order. */
  class Host {
    var out: seq<int>
    var calls: seq<TransportCall>

    constructor ()
      ensures out == [] && calls == []
    {
      out, calls := [], [];
    }

    /** `device.midiOutMsg`: sends one encoded message to the controller. */
    method MidiOutMsg(m: int)
      modifies this
      ensures out == old(out) + [m]
      ensures calls == old(calls)
    {
      out := out + [m];
    }

    /** One of `transport.start`, `stop`, `record`, `setLoopMode`,
        `fastForward`, `rewind`. */
    method Transport(c: TransportCall)
      modifies this
      ensures calls == old(calls) + [c]
      ensures out == old(out)
    {
      calls := calls + [c];
    }
  }

  /** The event object the host hands to `OnMidiIn` and `OnMidiMsg`; the
      script rewrites `data1`, `data2` and `handled` in place. */
  class MidiEvent {
    var midiChan: int
    var pmeFlags: int
    var midiId: int
    var data1: int
    var data2: int
    var handled: bool

    constructor (midiChan: int, pmeFlags: int, midiId: int, data1: int, data2: int)
      ensures this.midiChan == midiChan && this.pmeFlags == pmeFlags
      ensures this.midiId == midiId && this.data1 == data1 && this.data2 == data2
      ensures !handled
    {
      this.midiChan, this.pmeFlags, this.midiId := midiChan, pmeFlags, midiId;
      this.data1, this.data2, this.handled := data1, data2, false;
    }
  }
}
