/**
The persisted form of a ratchet:
root | own DH secret | remote flag [+ key] | sending flag [+ key] | receiving flag [+ key] |
sending counter | receiving counter (both little-endian).
*/
module RatchetCodec {
  import opened Prelude
  import opened Cursors
  import opened Suites
  import opened DoubleRatchet

  type ByteSuite = Suite<Key32, Key32, Key32, Bytes>
  type ByteRatchet = Ratchet<Key32, Key32, Key32>

  function Print(r: ByteRatchet): Bytes {
    r.root + r.self + PrintOption(r.remote) + PrintOption(r.send) + PrintOption(r.recv)
    + LittleEndian(r.sendN) + LittleEndian(r.recvN)
  }

  function OptionSize(o: Option<Key32>): nat {
    if o.Some? then 33 else 1
  }

  /** An option at offset `at`: a flag and the key, or a flag of zero alone. */
  predicate OptionAt(p: Bytes, at: nat, o: Option<Key32>) {
    && at + OptionSize(o) <= |p|
    && p[at] == (if o.Some? then 1 else 0)
    && (o.Some? ==> p[at + 1..at + 33] == o.value)
  }

  /** Where the fields are: two keys first, then the three options one after the other, the counters last. */
  lemma PrintLayout(r: ByteRatchet)
    ensures var p := Print(r);
            var send := 64 + OptionSize(r.remote);
            var recv := send + OptionSize(r.send);
            var counters := recv + OptionSize(r.recv);
            && |p| == counters + 8
            && p[..32] == r.root && p[32..64] == r.self
            && OptionAt(p, 64, r.remote) && OptionAt(p, send, r.send) && OptionAt(p, recv, r.recv)
            && p[counters..counters + 4] == LittleEndian(r.sendN) && p[counters + 4..] == LittleEndian(r.recvN)
  {
    var tail := LittleEndian(r.sendN) + LittleEndian(r.recvN);
    var keys := r.root + r.self;
    var remote := keys + PrintOption(r.remote);
    var send := remote + PrintOption(r.send);
    Reassociate(remote, PrintOption(r.send), PrintOption(r.recv), tail);
    Reassociate(send, PrintOption(r.recv), LittleEndian(r.sendN), LittleEndian(r.recvN));
    PrintedOptionAt(keys, r.remote, PrintOption(r.send) + (PrintOption(r.recv) + tail));
    PrintedOptionAt(remote, r.send, PrintOption(r.recv) + tail);
    PrintedOptionAt(send, r.recv, tail);
    EndsAt(r.root, r.self, PrintOption(r.remote) + (PrintOption(r.send) + (PrintOption(r.recv) + tail)));
    Reassociate(keys, PrintOption(r.remote), PrintOption(r.send), PrintOption(r.recv) + tail);
    CountersAt(send + PrintOption(r.recv), LittleEndian(r.sendN), LittleEndian(r.recvN));
  }

  lemma Reassociate(a: Bytes, b: Bytes, c: Bytes, d: Bytes)
    ensures a + b + c + d == a + (b + (c + d)) == a + b + (c + d)
  {
  }

  lemma EndsAt(root: Key32, self: Key32, rest: Bytes)
    ensures (root + self + rest)[..32] == root && (root + self + rest)[32..64] == self
  {
  }

  lemma CountersAt(before: Bytes, sent: Bytes, received: Bytes)
    requires |sent| == |received| == 4
    ensures var p := before + sent + received;
            p[|before|..|before| + 4] == sent && p[|before| + 4..] == received
  {
  }

  lemma PrintedOptionAt(before: Bytes, o: Option<Key32>, after: Bytes)
    ensures OptionAt(before + PrintOption(o) + after, |before|, o)
  {
    var p := before + PrintOption(o) + after;
    assert p[|before|] == PrintOption(o)[0];
    if o.Some? {
      assert p[|before| + 1..|before| + 33] == PrintOption(o)[1..];
    }
  }

  function ParseFields(d: Bytes): Result<(ByteRatchet, Bytes), Truncated> {
    var (root, d1) :- TakeKey(d);
    var (self, d2) :- TakeKey(d1);
    var (remote, d3) :- TakeOption(d2);
    var (send, d4) :- TakeOption(d3);
    var (recv, d5) :- TakeOption(d4);
    var (sendN, d6) :- TakeU32(d5);
    var (recvN, d7) :- TakeU32(d6);
    Ok((Ratchet(root, self, remote, send, recv, sendN, recvN), d7))
  }

  /** Bytes after the last field are ignored, as the source ignores them. */
  function Parse(d: Bytes): Result<ByteRatchet, RatchetError> {
    match ParseFields(d)
    case Ok((r, _)) => Ok(r)
    case Err(_) => Err(TruncatedState)
  }

  /** Every state, whatever its options and counters, survives printing and parsing. */
  lemma RoundTrip(r: ByteRatchet, rest: Bytes)
    ensures ParseFields(Print(r) + rest) == Ok((r, rest))
    ensures Parse(Print(r) + rest) == Ok(r)
  {
    var d6 := LittleEndian(r.recvN) + rest;
    var d5 := LittleEndian(r.sendN) + d6;
    var d4 := PrintOption(r.recv) + d5;
    var d3 := PrintOption(r.send) + d4;
    var d2 := PrintOption(r.remote) + d3;
    assert Print(r) + rest == r.root + (r.self + d2);
    TakePrinted(r.root, r.self + d2);
    TakePrinted(r.self, d2);
    TakeOptionPrinted(r.remote, d3);
    TakeOptionPrinted(r.send, d4);
    TakeOptionPrinted(r.recv, d5);
    TakeU32Printed(r.sendN, d6);
    TakeU32Printed(r.recvN, rest);
  }

  lemma ParseExtends(d: Bytes, more: Bytes)
    requires Parse(d).Ok?
    ensures Parse(d + more) == Parse(d)
    ensures |Print(Parse(d).value)| <= |d|
  {
    var (root, d1) := TakeKey(d).value;
    var (self, d2) := TakeKey(d1).value;
    var (remote, d3) := TakeOption(d2).value;
    var (send, d4) := TakeOption(d3).value;
    var (recv, d5) := TakeOption(d4).value;
    TakeExtends(d, more, 32);
    TakeExtends(d1, more, 32);
    TakeOptionExtends(d2, more);
    TakeOptionExtends(d3, more);
    TakeOptionExtends(d4, more);
    TakeExtends(d5, more, 4);
    TakeExtends(d5[4..], more, 4);
  }

  /** Where an option at `at` ends: after its flag, and after the key that a flag of one announces. */
  function OptionEnd(d: Bytes, at: nat): nat {
    if at < |d| && d[at] == 1 then at + 33 else at + 1
  }

  /** An option read at `at`: any flag but one announces nothing. */
  predicate OptionRead(d: Bytes, at: nat, o: Option<Key32>)
    requires OptionEnd(d, at) <= |d|
  {
    if d[at] == 1 then o == Some(d[at + 1..at + 33]) else o == None
  }

  /** Four bytes at `at`, lowest first. */
  function NumberAt(d: Bytes, at: nat): nat
    requires at + 4 <= |d|
  {
    d[at] as int + 0x100 * (d[at + 1] as int) + 0x1_0000 * (d[at + 2] as int) + 0x100_0000 * (d[at + 3] as int)
  }

  lemma TakeOptionEnds(d: Bytes, at: nat)
    requires at <= |d|
    ensures TakeOption(d[at..]).Ok? <==> OptionEnd(d, at) <= |d|
    ensures OptionEnd(d, at) <= |d| ==>
              TakeOption(d[at..]).value.1 == d[OptionEnd(d, at)..] && OptionRead(d, at, TakeOption(d[at..]).value.0)
  {
    if OptionEnd(d, at) <= |d| {
      assert d[at..][..1][0] == d[at] && d[at..][1..] == d[at + 1..];
      if d[at] == 1 {
        assert d[at + 1..][..32] == d[at + 1..at + 33] && d[at + 1..][32..] == d[at + 33..];
      }
    }
  }

  lemma TakeNumber(d: Bytes, at: nat)
    requires at <= |d|
    ensures TakeU32(d[at..]).Ok? <==> at + 4 <= |d|
    ensures at + 4 <= |d| ==> TakeU32(d[at..]).value == (NumberAt(d, at), d[at + 4..])
  {
    if at + 4 <= |d| {
      assert d[at..][..4] == d[at..at + 4] && d[at..][4..] == d[at + 4..];
    }
  }

  /**
  Which blobs are read, and as what, for every string of bytes: two keys, three options that begin where the
  one before them ends, two counters. Anything may follow, and nothing else is asked of the bytes.
  */
  lemma ParsesIff(d: Bytes)
    ensures var send := OptionEnd(d, 64);
            var recv := OptionEnd(d, send);
            var counters := OptionEnd(d, recv);
            && (Parse(d).Ok? <==> counters + 8 <= |d|)
            && (Parse(d).Err? ==> Parse(d) == Err(TruncatedState))
            && (counters + 8 <= |d| ==>
                  var r := Parse(d).value;
                  && r.root == d[..32] && r.self == d[32..64]
                  && OptionRead(d, 64, r.remote) && OptionRead(d, send, r.send) && OptionRead(d, recv, r.recv)
                  && r.sendN == NumberAt(d, counters) && r.recvN == NumberAt(d, counters + 4))
  {
    if |d| < 64 { return; }
    assert d[32..][..32] == d[32..64] && d[32..][32..] == d[64..];
    TakeOptionEnds(d, 64);
    var send := OptionEnd(d, 64);
    if send > |d| { return; }
    TakeOptionEnds(d, send);
    var recv := OptionEnd(d, send);
    if recv > |d| { return; }
    TakeOptionEnds(d, recv);
    var counters := OptionEnd(d, recv);
    if counters > |d| { return; }
    TakeNumber(d, counters);
    if counters + 4 <= |d| { TakeNumber(d, counters + 4); }
  }

  lemma PrefixGivesWhole(p: Bytes, n: nat)
    requires n <= |p| && Parse(p[..n]).Ok?
    ensures Parse(p) == Parse(p[..n]) && |Print(Parse(p).value)| <= n
  {
    CutJoins(p, n);
    ParseExtends(p[..n], p[n..]);
  }

  /** No strict prefix of a printed state is accepted. */
  lemma StrictPrefixRejected(r: ByteRatchet, n: nat)
    requires n < |Print(r)|
    ensures Parse(Print(r)[..n]) == Err(TruncatedState)
  {
    var p := Print(r);
    CutJoins(p, n);
    RoundTrip(r, []);
    if Parse(p[..n]).Ok? { PrefixGivesWhole(p, n); }
  }

  /** Distinct states never print to the same blob, nor to blobs one of which extends the other. */
  lemma PrintPrefixFree(r: ByteRatchet, q: ByteRatchet)
    requires Print(r) <= Print(q)
    ensures r == q
  {
    RoundTrip(r, Print(q)[|Print(r)|..]);
    RoundTrip(q, []);
    assert Print(r) + Print(q)[|Print(r)|..] == Print(q) + [];
  }
}
