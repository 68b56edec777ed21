/** Reading fixed-width fields off the front of a byte blob. */
module Cursors {
  import opened Prelude

  datatype Truncated = Truncated

  /** The first `n` bytes and what follows them. */
  function Take(d: Bytes, n: nat): Result<(Bytes, Bytes), Truncated> {
    if n <= |d| then Ok((d[..n], d[n..])) else Err(Truncated)
  }

  function TakeKey(d: Bytes): Result<(Key32, Bytes), Truncated> {
    var (k, rest) :- Take(d, 32);
    Ok((k, rest))
  }

  function TakeU32(d: Bytes): Result<(u32, Bytes), Truncated> {
    var (b, rest) :- Take(d, 4);
    Ok((FromLittleEndian(b), rest))
  }

  /** A flag byte; 1 announces a key, any other value announces nothing. */
  function TakeOption(d: Bytes): Result<(Option<Key32>, Bytes), Truncated> {
    var (flag, rest) :- Take(d, 1);
    if flag[0] == 1 then
      var (k, rest1) :- TakeKey(rest);
      Ok((Some(k), rest1))
    else
      Ok((None, rest))
  }

  function PrintOption(o: Option<Key32>): Bytes {
    match o
    case Some(k) => [1] + k
    case None => [0]
  }

  lemma TakePrinted(x: Bytes, rest: Bytes)
    ensures Take(x + rest, |x|) == Ok((x, rest))
  {
    assert (x + rest)[..|x|] == x && (x + rest)[|x|..] == rest;
  }

  lemma TakeU32Printed(n: u32, rest: Bytes)
    ensures TakeU32(LittleEndian(n) + rest) == Ok((n, rest))
  {
    TakePrinted(LittleEndian(n), rest);
    LittleEndianRoundTrip(n);
  }

  lemma TakeOptionPrinted(o: Option<Key32>, rest: Bytes)
    ensures TakeOption(PrintOption(o) + rest) == Ok((o, rest))
  {
    match o
    case Some(k) =>
      assert PrintOption(o) + rest == [1] + (k + rest);
      TakePrinted([1], k + rest);
      TakePrinted(k, rest);
    case None => TakePrinted([0], rest);
  }

  /** A field that was read stays readable, with the same value, when bytes are added at the end. */
  lemma TakeExtends(d: Bytes, more: Bytes, n: nat)
    requires n <= |d|
    ensures Take(d + more, n) == Ok((d[..n], d[n..] + more))
  {
    assert (d + more)[..n] == d[..n] && (d + more)[n..] == d[n..] + more;
  }

  lemma TakeOptionExtends(d: Bytes, more: Bytes)
    requires TakeOption(d).Ok?
    ensures var (o, rest) := TakeOption(d).value;
            TakeOption(d + more) == Ok((o, rest + more)) && |d| == |PrintOption(o)| + |rest|
  {
    TakeExtends(d, more, 1);
    if d[0] == 1 {
      TakeExtends(d[1..], more, 32);
    }
  }

  /** `take`: the next `n` bytes at cursor `p`. */
  method TakeAt(data: Bytes, p: nat, n: nat) returns (r: Result<Bytes, Truncated>, q: nat)
    requires p <= |data|
    ensures q <= |data|
    ensures match Take(data[p..], n)
            case Ok((x, rest)) => r == Ok(x) && data[q..] == rest
            case Err(_) => r == Err(Truncated)
  {
    if p + n > |data| {
      return Err(Truncated), p;
    }
    assert data[p..][..n] == data[p..p + n] && data[p..][n..] == data[p + n..];
    return Ok(data[p..p + n]), p + n;
  }

  method TakeOptionAt(data: Bytes, p: nat) returns (r: Result<Option<Key32>, Truncated>, q: nat)
    requires p <= |data|
    ensures q <= |data|
    ensures match TakeOption(data[p..])
            case Ok((x, rest)) => r == Ok(x) && data[q..] == rest
            case Err(_) => r == Err(Truncated)
  {
    var flag, p1 := TakeAt(data, p, 1);
    if flag.Err? {
      return Err(Truncated), p;
    }
    if flag.value[0] == 1 {
      var k, p2 := TakeAt(data, p1, 32);
      if k.Err? {
        return Err(Truncated), p;
      }
      return Ok(Some(k.value)), p2;
    }
    return Ok(None), p1;
  }

  /** A blob cut anywhere, put together again. */
  lemma CutJoins(p: Bytes, n: nat)
    requires n <= |p|
    ensures p[..n] + p[n..] == p == p + []
  {
  }
}
