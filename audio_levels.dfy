/**
 * The level subscription (web-ui/src/hooks/useAudioLevels.ts): six peak
 * levels, copied from the host's `audioLevels` events, each field that an
 * event leaves out read as 0.
 */
module AudioLevels {
  import opened Common
  import opened JuceParam

  datatype Levels = Levels(inputLevel: real, outputLevel: real, inputLevelL: real, inputLevelR: real, outputLevelL: real, outputLevelR: real)

  const Silent: Levels := Levels(0.0, 0.0, 0.0, 0.0, 0.0, 0.0)

  /** An event's payload: any field may be missing (`undefined` or `null`). */
  datatype Payload = Payload(inputLevel: Option<real>, outputLevel: Option<real>, inputLevelL: Option<real>,
                             inputLevelR: Option<real>, outputLevelL: Option<real>, outputLevelR: Option<real>)

  /** `x ?? 0`. */
  function OrZero(x: Option<real>): (r: real)
    ensures x.Some? ==> r == x.value
    ensures x.None? ==> r == 0.0
  {
    match x
    case Some(v) => v
    case None => 0.0
  }

  function FromPayload(p: Payload): Levels {
    Levels(OrZero(p.inputLevel), OrZero(p.outputLevel), OrZero(p.inputLevelL),
           OrZero(p.inputLevelR), OrZero(p.outputLevelL), OrZero(p.outputLevelR))
  }

  /** The payload that carries every field of `l`. */
  function Carrying(l: Levels): Payload {
    Payload(Some(l.inputLevel), Some(l.outputLevel), Some(l.inputLevelL),
            Some(l.inputLevelR), Some(l.outputLevelL), Some(l.outputLevelR))
  }

  /** A complete payload comes through unchanged; an empty one reads as silence. */
  lemma PayloadRoundTrip(l: Levels)
    ensures FromPayload(Carrying(l)) == l
    ensures FromPayload(Payload(None, None, None, None, None, None)) == Silent
  {
  }

  /**
   * Each field is read on its own: two payloads that agree on a field give
   * the same level for it, whatever their other fields say, and a field
   * present in the payload is copied as is.
   */
  lemma FieldsIndependent(p: Payload, q: Payload)
    ensures p.inputLevel == q.inputLevel ==> FromPayload(p).inputLevel == FromPayload(q).inputLevel
    ensures p.outputLevel == q.outputLevel ==> FromPayload(p).outputLevel == FromPayload(q).outputLevel
    ensures p.inputLevelL == q.inputLevelL ==> FromPayload(p).inputLevelL == FromPayload(q).inputLevelL
    ensures p.inputLevelR == q.inputLevelR ==> FromPayload(p).inputLevelR == FromPayload(q).inputLevelR
    ensures p.outputLevelL == q.outputLevelL ==> FromPayload(p).outputLevelL == FromPayload(q).outputLevelL
    ensures p.outputLevelR == q.outputLevelR ==> FromPayload(p).outputLevelR == FromPayload(q).outputLevelR
    ensures p.inputLevel.Some? ==> FromPayload(p).inputLevel == p.inputLevel.value
    ensures p.outputLevel.Some? ==> FromPayload(p).outputLevel == p.outputLevel.value
    ensures p.inputLevelL.Some? ==> FromPayload(p).inputLevelL == p.inputLevelL.value
    ensures p.inputLevelR.Some? ==> FromPayload(p).inputLevelR == p.inputLevelR.value
    ensures p.outputLevelL.Some? ==> FromPayload(p).outputLevelL == p.outputLevelL.value
    ensures p.outputLevelR.Some? ==> FromPayload(p).outputLevelR == p.outputLevelR.value
  {
  }

  class AudioLevelsHook {
    /** `isInJuceWebView()`, probed once per render. */
    const isConnected: bool
    /** The host's `audioLevels` event listeners. */
    const events: Listeners
    var levels: Levels
    var listenerId: Option<nat>

    constructor (isConnected: bool, events: Listeners)
      ensures this.isConnected == isConnected && this.events == events
      ensures levels == Silent && listenerId == None
    {
      this.isConnected := isConnected;
      this.events := events;
      levels := Silent;
      listenerId := None;
    }

    /** The subscription effect: only inside the host's web view is a listener added. */
    method Mount()
      requires events.Valid()
      modifies this`listenerId, events
      ensures events.Valid()
      ensures !isConnected ==> listenerId == old(listenerId) && events.ids == old(events.ids)
      ensures isConnected ==> listenerId.Some? && listenerId.value !in old(events.ids)
                              && events.ids == old(events.ids) + {listenerId.value}
    {
      if !isConnected {
        return;
      }
      var id := events.Add();
      listenerId := Some(id);
    }

    /** An `audioLevels` event reaching the listener. */
    method OnLevels(data: Payload)
      modifies this`levels
      ensures levels == FromPayload(data)
    {
      levels := Levels(OrZero(data.inputLevel), OrZero(data.outputLevel), OrZero(data.inputLevelL),
                       OrZero(data.inputLevelR), OrZero(data.outputLevelL), OrZero(data.outputLevelR));
    }

    /** The effect's cleanup: the returned remover. */
    method Unmount()
      requires events.Valid()
      modifies events
      ensures events.Valid()
      ensures listenerId.Some? ==> events.ids == old(events.ids) - {listenerId.value}
      ensures listenerId.None? ==> events.ids == old(events.ids)
    {
      if listenerId.Some? {
        events.Remove(listenerId.value);
      }
    }

    /** What the hook returns: the levels and the probe result. */
    function Result(): (r: (Levels, bool))
      reads this
      ensures r.1 == isConnected
    {
      (levels, isConnected)
    }
  }

  /** Outside the host no listener is added, so no event can arrive and the levels stay silent. */
  method OutsideHost(events: Listeners) returns (hook: AudioLevelsHook)
    requires events.Valid()
    modifies events
    ensures hook.levels == Silent && hook.listenerId == None && !hook.isConnected
    ensures events.ids == old(events.ids)
  {
    hook := new AudioLevelsHook(false, events);
    hook.Mount();
  }
}
