/** The registry of live sessions: one wake-up channel per device, and the flush it triggers. */
module Hub {
  import opened Messaging

  /** Senders by device, and the signals waiting in every session's channel. */
  datatype HubState = HubState(sessions: map<nat, nat>, pending: map<nat, nat>)

  datatype Signal = Wake | Closed | Blocked

  function Register(h: HubState, device: nat, session: nat): HubState {
    HubState(h.sessions[device := session], h.pending[session := 0])
  }

  /** Keyed by device alone, whichever session is registered. */
  function Unregister(h: HubState, device: nat): HubState {
    h.(sessions := h.sessions - {device})
  }

  function PendingOf(h: HubState, session: nat): nat {
    if session in h.pending then h.pending[session] else 0
  }

  function Notify(h: HubState, device: nat): HubState {
    if device !in h.sessions then h
    else h.(pending := h.pending[h.sessions[device] := PendingOf(h, h.sessions[device]) + 1])
  }

  predicate Owns(h: HubState, device: nat, session: nat) {
    device in h.sessions && h.sessions[device] == session
  }

  /** `recv`: buffered signals first; closed once they are gone and the sender has been dropped. */
  function Receive(h: HubState, device: nat, session: nat): (HubState, Signal) {
    if PendingOf(h, session) > 0 then (h.(pending := h.pending[session := PendingOf(h, session) - 1]), Wake)
    else if Owns(h, device, session) then (h, Blocked)
    else (h, Closed)
  }

  /** What a session finds on its channel, and what looking costs. */
  lemma ReceiveExact(h: HubState, device: nat, session: nat)
    ensures var (h1, signal) := Receive(h, device, session);
            && h1.sessions == h.sessions
            && (signal == Wake <==> PendingOf(h, session) > 0)
            && (signal == Closed <==>
                  PendingOf(h, session) == 0 && !(device in h.sessions && h.sessions[device] == session))
            && forall t :: PendingOf(h1, t) == PendingOf(h, t) - if signal == Wake && t == session then 1 else 0
  {
  }

  class HubRegistry {
    var sessions: map<nat, nat>
    var pending: map<nat, nat>

    function View(): HubState
      reads this
    {
      HubState(sessions, pending)
    }

    constructor ()
      ensures View() == HubState(map[], map[])
    {
      sessions, pending := map[], map[];
    }

    method RegisterSession(device: nat, session: nat)
      modifies this
      ensures View() == Register(old(View()), device, session)
      ensures sessions == old(sessions)[device := session] && pending == old(pending)[session := 0]
    {
      pending := pending[session := 0];
      sessions := sessions[device := session];
    }

    method UnregisterDevice(device: nat)
      modifies this
      ensures View() == Unregister(old(View()), device)
      ensures sessions == old(sessions) - {device} && pending == old(pending)
    {
      sessions := sessions - {device};
    }

    method NotifyDevice(device: nat)
      modifies this
      ensures View() == Notify(old(View()), device)
      ensures sessions == old(sessions)
      ensures forall t :: PendingOf(View(), t)
                          == PendingOf(old(View()), t) + if Owns(old(View()), device, t) then 1 else 0
    {
      if device in sessions {
        var session := sessions[device];
        pending := pending[session := PendingOf(View(), session) + 1];
      }
    }

    method NotifyAll(devices: seq<nat>)
      modifies this
      ensures View() == NotifyEach(old(View()), devices)
    {
      var i := 0;
      assert devices[0..] == devices;
      while i < |devices|
        invariant 0 <= i <= |devices|
        invariant NotifyEach(old(View()), devices) == NotifyEach(View(), devices[i..])
      {
        NotifyDevice(devices[i]);
        i := i + 1;
      }
    }
  }

  function NotifyEach(h: HubState, devices: seq<nat>): HubState
    decreases |devices|
  {
    if devices == [] then h else NotifyEach(Notify(h, devices[0]), devices[1..])
  }

  function Occurrences(s: seq<nat>, d: nat): nat {
    if s == [] then 0 else Occurrences(s[1..], d) + if s[0] == d then 1 else 0
  }

  /** Notifying a list signals each registered device's session once per occurrence, and nobody else. */
  lemma {:induction false} NotifyEachCounts(h: HubState, devices: seq<nat>, d: nat)
    requires d in h.sessions && forall e | e in h.sessions && e != d :: h.sessions[e] != h.sessions[d]
    ensures NotifyEach(h, devices).sessions == h.sessions
    ensures PendingOf(NotifyEach(h, devices), h.sessions[d]) == PendingOf(h, h.sessions[d]) + Occurrences(devices, d)
    decreases |devices|
  {
    if devices != [] {
      NotifyEachCounts(Notify(h, devices[0]), devices[1..], d);
    }
  }

  /** A socket that accepts `room` more frames and then is gone. */
  class WsSink {
    var sent: seq<Envelope>
    var room: nat

    constructor (room: nat)
      ensures sent == [] && this.room == room
    {
      sent, this.room := [], room;
    }

    method SendFrame(env: Envelope) returns (ok: bool)
      modifies this
      ensures ok == (old(room) > 0)
      ensures ok ==> sent == old(sent) + [env] && room == old(room) - 1
      ensures !ok ==> sent == old(sent) && room == old(room)
    {
      if room == 0 { return false; }
      sent := sent + [env];
      room := room - 1;
      return true;
    }
  }

  /**
  `deliver_pending`: the queue is emptied first; the frames sent are the longest prefix of what was
  pulled that the socket accepts, in order, and the answer says whether that was all of it.
  */
  method DeliverPending(messaging: MessagingService, device: nat, sink: WsSink) returns (ok: bool)
    requires messaging.queue as object != sink
    modifies messaging.queue, sink
    ensures QueueOf(messaging.queue.inner, device) == []
    ensures forall d | d != device :: QueueOf(messaging.queue.inner, d) == QueueOf(old(messaging.queue.inner), d)
    ensures var batch := QueueOf(old(messaging.queue.inner), device);
            var k := if |batch| <= old(sink.room) then |batch| else old(sink.room);
            sink.sent == old(sink.sent) + batch[..k] && sink.room == old(sink.room) - k && ok == (k == |batch|)
  {
    var batch := messaging.Pull(device);
    var i := 0;
    while i < |batch|
      modifies sink
      invariant 0 <= i <= |batch| && i <= old(sink.room)
      invariant sink.sent == old(sink.sent) + batch[..i] && sink.room == old(sink.room) - i
    {
      var sentOk := sink.SendFrame(batch[i]);
      if !sentOk { return false; }
      i := i + 1;
    }
    return true;
  }
}
