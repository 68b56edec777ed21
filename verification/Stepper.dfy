/**
The persisted stepper: every call parses the stored state, takes one ratchet step and prints the
state back. The caller stores the printed state only when the call succeeds.
*/
module Stepper {
  import opened Prelude
  import opened DoubleRatchet
  import opened RatchetCodec
  import opened RatchetSession

  /** A stored state and the bytes produced: a frame or a plaintext. */
  datatype RatchetStep = RatchetStep(state: Bytes, data: Bytes)

  function StepEncrypt(s: ByteSuite, state: Bytes, plaintext: Bytes, rnd: Key32): Result<RatchetStep, RatchetError> {
    var r :- Parse(state);
    var (r1, res) := EncryptBytes(s, r, rnd, plaintext);
    var frame :- res;
    Ok(RatchetStep(Print(r1), frame))
  }

  function StepDecrypt(s: ByteSuite, state: Bytes, frame: Bytes): Result<RatchetStep, RatchetError> {
    var r :- Parse(state);
    var (r1, res) := DecryptBytes(s, r, frame);
    var plaintext :- res;
    Ok(RatchetStep(Print(r1), plaintext))
  }

  method RatchetEncrypt(s: ByteSuite, state: Bytes, plaintext: Bytes, rnd: Key32)
    returns (r: Result<RatchetStep, RatchetError>)
    ensures r == StepEncrypt(s, state, plaintext, rnd)
  {
    var parsed := FromBytes(s, state);
    if parsed.Err? { return Err(parsed.error); }
    var rt := parsed.value;
    var ct := rt.Encrypt(plaintext, rnd);
    if ct.Err? { return Err(ct.error); }
    var blob := rt.ToBytes();
    return Ok(RatchetStep(blob, ct.value));
  }

  method RatchetDecrypt(s: ByteSuite, state: Bytes, frame: Bytes) returns (r: Result<RatchetStep, RatchetError>)
    ensures r == StepDecrypt(s, state, frame)
  {
    var parsed := FromBytes(s, state);
    if parsed.Err? { return Err(parsed.error); }
    var rt := parsed.value;
    var pt := rt.Decrypt(frame);
    if pt.Err? { return Err(pt.error); }
    var blob := rt.ToBytes();
    return Ok(RatchetStep(blob, pt.value));
  }

  // ---------------------------------------------------------------------------
  // Runs
  // ---------------------------------------------------------------------------

  datatype Call = CallEncrypt(plaintext: Bytes, rnd: Key32) | CallDecrypt(frame: Bytes)

  type Outcome = Result<Bytes, RatchetError>

  /** One call on the stored state. */
  function Persisted(s: ByteSuite, blob: Bytes, call: Call): (Bytes, Outcome) {
    var step := match call
      case CallEncrypt(m, rnd) => StepEncrypt(s, blob, m, rnd)
      case CallDecrypt(f) => StepDecrypt(s, blob, f);
    match step
    case Ok(v) => (v.state, Ok(v.data))
    case Err(e) => (blob, Err(e))
  }

  /** The same call on a ratchet that stays in memory. */
  function InMemory(s: ByteSuite, r: ByteRatchet, call: Call): (ByteRatchet, Outcome) {
    match call
    case CallEncrypt(m, rnd) => EncryptBytes(s, r, rnd, m)
    case CallDecrypt(f) => DecryptBytes(s, r, f)
  }

  function RunPersisted(s: ByteSuite, blob: Bytes, calls: seq<Call>): (Bytes, seq<Outcome>)
    decreases |calls|
  {
    if calls == [] then (blob, []) else
    var (blob1, out) := Persisted(s, blob, calls[0]);
    var (blob2, outs) := RunPersisted(s, blob1, calls[1..]);
    (blob2, [out] + outs)
  }

  function RunInMemory(s: ByteSuite, r: ByteRatchet, calls: seq<Call>): (ByteRatchet, seq<Outcome>)
    decreases |calls|
  {
    if calls == [] then (r, []) else
    var (r1, out) := InMemory(s, r, calls[0]);
    var (r2, outs) := RunInMemory(s, r1, calls[1..]);
    (r2, [out] + outs)
  }

  /** The calls of a persisted run that succeed, in order. */
  function Succeeding(s: ByteSuite, blob: Bytes, calls: seq<Call>): seq<Call>
    decreases |calls|
  {
    if calls == [] then [] else
    var (blob1, out) := Persisted(s, blob, calls[0]);
    (if out.Ok? then [calls[0]] else []) + Succeeding(s, blob1, calls[1..])
  }

  function Successes(outs: seq<Outcome>): seq<Bytes> {
    if outs == [] then []
    else (if outs[0].Ok? then [outs[0].value] else []) + Successes(outs[1..])
  }

  lemma CallRefines(s: ByteSuite, r: ByteRatchet, call: Call)
    ensures var (blob, out) := Persisted(s, Print(r), call);
            var (r1, out1) := InMemory(s, r, call);
            out == out1 && blob == Print(if out.Ok? then r1 else r)
  {
    RoundTrip(r, []);
    assert Print(r) + [] == Print(r);
  }

  /**
  Refinement over whole runs: storing the state around every call gives the outcomes and the final
  state of an in-memory ratchet that executes only the calls that succeed, and those all succeed there.
  */
  lemma {:induction false} PersistedRefinesInMemory(s: ByteSuite, r: ByteRatchet, calls: seq<Call>)
    ensures var (blob, outs) := RunPersisted(s, Print(r), calls);
            var (r1, outs1) := RunInMemory(s, r, Succeeding(s, Print(r), calls));
            blob == Print(r1) && Successes(outs) == Successes(outs1) && |Successes(outs1)| == |outs1|
    decreases |calls|
  {
    if calls != [] {
      CallRefines(s, r, calls[0]);
      var (r1, out) := InMemory(s, r, calls[0]);
      if out.Ok? {
        PersistedRefinesInMemory(s, r1, calls[1..]);
        assert Succeeding(s, Print(r), calls)[1..] == Succeeding(s, Print(r1), calls[1..]);
      } else {
        PersistedRefinesInMemory(s, r, calls[1..]);
        assert Succeeding(s, Print(r), calls) == Succeeding(s, Print(r), calls[1..]);
      }
    }
  }

  lemma {:induction false} RunPersistedAppend(s: ByteSuite, blob: Bytes, xs: seq<Call>, ys: seq<Call>)
    ensures var (b1, o1) := RunPersisted(s, blob, xs);
            var (b2, o2) := RunPersisted(s, b1, ys);
            RunPersisted(s, blob, xs + ys) == (b2, o1 + o2)
    decreases |xs|
  {
    if xs == [] {
      assert xs + ys == ys;
      assert [] + RunPersisted(s, blob, ys).1 == RunPersisted(s, blob, ys).1;
    } else {
      var (blob1, out) := Persisted(s, blob, xs[0]);
      RunPersistedAppend(s, blob1, xs[1..], ys);
      assert (xs + ys)[1..] == xs[1..] + ys;
      var (b1, o1) := RunPersisted(s, blob1, xs[1..]);
      var (b2, o2) := RunPersisted(s, b1, ys);
      assert RunPersisted(s, blob, xs + ys).1 == [out] + (o1 + o2) == ([out] + o1) + o2;
    }
  }

  lemma {:induction false} RunPersistedLength(s: ByteSuite, blob: Bytes, calls: seq<Call>)
    ensures |RunPersisted(s, blob, calls).1| == |calls|
    decreases |calls|
  {
    if calls != [] {
      RunPersistedLength(s, Persisted(s, blob, calls[0]).0, calls[1..]);
    }
  }

  /**
  Inserting a call that fails, such as a forged frame carrying a new DH key, anywhere in a run changes
  neither the stored state nor the outcome of any other call.
  */
  lemma FailedCallLeavesNoTrace(s: ByteSuite, blob: Bytes, before: seq<Call>, bad: Call, after: seq<Call>)
    requires Persisted(s, RunPersisted(s, blob, before).0, bad).1.Err?
    ensures var (stored, outs) := RunPersisted(s, blob, before + after);
            && |outs| == |before| + |after|
            && RunPersisted(s, blob, before + [bad] + after)
               == (stored, outs[..|before|] + [Persisted(s, RunPersisted(s, blob, before).0, bad).1] + outs[|before|..])
  {
    var (b1, o1) := RunPersisted(s, blob, before);
    var (b2, o2) := RunPersisted(s, b1, after);
    var err := Persisted(s, b1, bad).1;
    RunPersistedLength(s, blob, before);
    RunPersistedLength(s, b1, after);
    RunPersistedAppend(s, blob, before, after);
    FailedCallFirst(s, b1, bad, after);
    RunPersistedAppend(s, blob, before, [bad] + after);
    assert before + [bad] + after == before + ([bad] + after);
    assert (o1 + o2)[..|before|] == o1 && (o1 + o2)[|before|..] == o2;
    assert o1 + ([err] + o2) == o1 + [err] + o2;
  }

  lemma FailedCallFirst(s: ByteSuite, blob: Bytes, bad: Call, after: seq<Call>)
    requires Persisted(s, blob, bad).1.Err?
    ensures var (stored, outs) := RunPersisted(s, blob, after);
            RunPersisted(s, blob, [bad] + after) == (stored, [Persisted(s, blob, bad).1] + outs)
  {
    assert ([bad] + after)[1..] == after;
  }
}
