/**
 * What exact parsing gives every message, and the printers and parsers of bhumi-proto that
 * are loops over a buffer, proved against the functions of `Wire`.
 */
module Messages {
  import opened Types
  import opened Wire

  /** The parser accepts exactly the extensions of printed messages within their bounds. */
  ghost predicate Exact<M(!new)>(printer: M -> Bytes, bounded: M -> bool, parse: Bytes -> Result<M>) {
    forall d: Bytes, m: M :: parse(d) == Ok(m) <==> bounded(m) && printer(m) <= d
  }

  /** A message survives the round trip if and only if its fields fit their widths. */
  lemma RoundTripIff<M(!new)>(printer: M -> Bytes, bounded: M -> bool, parse: Bytes -> Result<M>, m: M)
    requires Exact(printer, bounded, parse)
    ensures parse(printer(m)) == Ok(m) <==> bounded(m)
  {
    assert printer(m) <= printer(m);
  }

  /** No printed message begins another: a message's end is known from its bytes alone. */
  lemma PrefixFree<M(!new)>(printer: M -> Bytes, bounded: M -> bool, parse: Bytes -> Result<M>, m1: M, m2: M)
    requires Exact(printer, bounded, parse)
    requires bounded(m1) && bounded(m2) && printer(m1) <= printer(m2)
    ensures m1 == m2
  {
    assert parse(printer(m2)) == Ok(m1);
    assert parse(printer(m2)) == Ok(m2);
  }

  /** Bytes after a message do not change how it parses. */
  lemma TrailingBytes<M(!new)>(printer: M -> Bytes, bounded: M -> bool, parse: Bytes -> Result<M>, d: Bytes,
                        more: Bytes)
    requires Exact(printer, bounded, parse) && parse(d).Ok?
    ensures parse(d + more) == parse(d)
  {
    var m := parse(d).value;
    assert printer(m) <= d <= d + more;
  }

  /**
   * A message survives the round trip if and only if its fields fit their widths; no printed
   * message begins another one; and bytes after a message never change how it parses.
   */
  ghost predicate WellParsed<M(!new)>(printer: M -> Bytes, bounded: M -> bool, parse: Bytes -> Result<M>) {
    && (forall m :: parse(printer(m)) == Ok(m) <==> bounded(m))
    && (forall m1, m2 :: bounded(m1) && bounded(m2) && printer(m1) <= printer(m2) ==> m1 == m2)
    && (forall d, more :: parse(d).Ok? ==> parse(d + more) == parse(d))
  }

  lemma ExactWellParsed<M(!new)>(printer: M -> Bytes, bounded: M -> bool, parse: Bytes -> Result<M>)
    requires Exact(printer, bounded, parse)
    ensures WellParsed(printer, bounded, parse)
  {
    forall m { RoundTripIff(printer, bounded, parse, m); }
    forall m1, m2 | bounded(m1) && bounded(m2) && printer(m1) <= printer(m2) { PrefixFree(printer, bounded, parse, m1, m2); }
    forall d, more | parse(d).Ok? { TrailingBytes(printer, bounded, parse, d, more); }
  }

  lemma EveryRelayMessageExact()
    ensures Exact((m: Hello) => m.ToBytes(), (m: Hello) => true, Hello.FromBytes)
    ensures Exact((m: IAm) => m.ToBytes(), (m: IAm) => m.Bounded(), IAm.FromBytes)
    ensures Exact((m: Send) => m.ToBytes(), (m: Send) => m.Bounded(), Send.FromBytes)
    ensures Exact((m: UpdateCommits) => m.ToBytes(), (m: UpdateCommits) => m.Bounded(), UpdateCommits.FromBytes)
    ensures Exact((m: Deliver) => m.ToBytes(), (m: Deliver) => m.Bounded(), Deliver.FromBytes)
    ensures Exact((m: Ack) => m.ToBytes(), (m: Ack) => m.Bounded(), Ack.FromBytes)
    ensures Exact((m: SendResult) => m.ToBytes(), (m: SendResult) => m.Bounded(), SendResult.FromBytes)
  {
    forall d, m { HelloExact(d, m); }
    forall d, m { IAmExact(d, m); }
    forall d, m { SendExact(d, m); }
    forall d, m { UpdateCommitsExact(d, m); }
    forall d, m { DeliverExact(d, m); }
    forall d, m { AckExact(d, m); }
    forall d, m { SendResultExact(d, m); }
  }

  lemma EveryDeviceMessageExact()
    ensures Exact((m: HandshakeInit) => m.ToBytes(), (m: HandshakeInit) => m.Bounded(), HandshakeInit.FromBytes)
    ensures Exact((m: HandshakeComplete) => m.ToBytes(), (m: HandshakeComplete) => m.Bounded(), HandshakeComplete.FromBytes)
    ensures Exact((m: DeviceMessage) => m.ToBytes(), (m: DeviceMessage) => m.Bounded(), DeviceMessage.FromBytes)
    ensures Exact((m: DeviceMessageResponse) => m.ToBytes(), (m: DeviceMessageResponse) => m.Bounded(),
                  DeviceMessageResponse.FromBytes)
  {
    forall d, m { HandshakeInitExact(d, m); }
    forall d, m { HandshakeCompleteExact(d, m); }
    forall d, m { DeviceMessageExact(d, m); }
    forall d, m { DeviceMessageResponseExact(d, m); }
  }

  /** Round trips, prefix-freeness and indifference to trailing bytes, for all seven relay messages. */
  lemma EveryRelayMessageWellParsed()
    ensures WellParsed((m: Hello) => m.ToBytes(), (m: Hello) => true, Hello.FromBytes)
    ensures WellParsed((m: IAm) => m.ToBytes(), (m: IAm) => m.Bounded(), IAm.FromBytes)
    ensures WellParsed((m: Send) => m.ToBytes(), (m: Send) => m.Bounded(), Send.FromBytes)
    ensures WellParsed((m: UpdateCommits) => m.ToBytes(), (m: UpdateCommits) => m.Bounded(), UpdateCommits.FromBytes)
    ensures WellParsed((m: Deliver) => m.ToBytes(), (m: Deliver) => m.Bounded(), Deliver.FromBytes)
    ensures WellParsed((m: Ack) => m.ToBytes(), (m: Ack) => m.Bounded(), Ack.FromBytes)
    ensures WellParsed((m: SendResult) => m.ToBytes(), (m: SendResult) => m.Bounded(), SendResult.FromBytes)
  {
    EveryRelayMessageExact();
    ExactWellParsed((m: Hello) => m.ToBytes(), (m: Hello) => true, Hello.FromBytes);
    ExactWellParsed((m: IAm) => m.ToBytes(), (m: IAm) => m.Bounded(), IAm.FromBytes);
    ExactWellParsed((m: Send) => m.ToBytes(), (m: Send) => m.Bounded(), Send.FromBytes);
    ExactWellParsed((m: UpdateCommits) => m.ToBytes(), (m: UpdateCommits) => m.Bounded(), UpdateCommits.FromBytes);
    ExactWellParsed((m: Deliver) => m.ToBytes(), (m: Deliver) => m.Bounded(), Deliver.FromBytes);
    ExactWellParsed((m: Ack) => m.ToBytes(), (m: Ack) => m.Bounded(), Ack.FromBytes);
    ExactWellParsed((m: SendResult) => m.ToBytes(), (m: SendResult) => m.Bounded(), SendResult.FromBytes);
  }

  /** And for all four device messages. */
  lemma EveryDeviceMessageWellParsed()
    ensures WellParsed((m: HandshakeInit) => m.ToBytes(), (m: HandshakeInit) => m.Bounded(), HandshakeInit.FromBytes)
    ensures WellParsed((m: HandshakeComplete) => m.ToBytes(), (m: HandshakeComplete) => m.Bounded(),
                  HandshakeComplete.FromBytes)
    ensures WellParsed((m: DeviceMessage) => m.ToBytes(), (m: DeviceMessage) => m.Bounded(), DeviceMessage.FromBytes)
    ensures WellParsed((m: DeviceMessageResponse) => m.ToBytes(), (m: DeviceMessageResponse) => m.Bounded(),
                  DeviceMessageResponse.FromBytes)
  {
    EveryDeviceMessageExact();
    ExactWellParsed((m: HandshakeInit) => m.ToBytes(), (m: HandshakeInit) => m.Bounded(), HandshakeInit.FromBytes);
    ExactWellParsed((m: HandshakeComplete) => m.ToBytes(), (m: HandshakeComplete) => m.Bounded(), HandshakeComplete.FromBytes);
    ExactWellParsed((m: DeviceMessage) => m.ToBytes(), (m: DeviceMessage) => m.Bounded(), DeviceMessage.FromBytes);
    ExactWellParsed((m: DeviceMessageResponse) => m.ToBytes(), (m: DeviceMessageResponse) => m.Bounded(),
                    DeviceMessageResponse.FromBytes);
  }

  // ---------------------------------------------------------------------------
  // Loops over lists
  // ---------------------------------------------------------------------------

  method AppendCommits(buf: Bytes, commits: seq<Bytes32>) returns (r: Bytes)
    ensures r == buf + CommitBytes(commits)
  {
    r := buf;
    for i := 0 to |commits|
      invariant r + CommitBytes(commits[i..]) == buf + CommitBytes(commits)
    {
      assert commits[i..][1..] == commits[i + 1..];
      assert r + CommitBytes(commits[i..]) == (r + commits[i]) + CommitBytes(commits[i + 1..]);
      r := r + commits[i];
    }
  }

  method IAmToBytes(m: IAm) returns (buf: Bytes)
    ensures buf == m.ToBytes()
  {
    hide BE16, BE32, CommitBytes, OneResponseBytes;
    buf := m.id52 + m.signature + BE16(|m.commits| % U16_SIZE);
    buf := AppendCommits(buf, m.commits);
    buf := buf + BE16(|m.recent| % U16_SIZE);
    ghost var head := buf;
    for i := 0 to |m.recent|
      invariant buf + ResponseBytes(m.recent[i..]) == head + ResponseBytes(m.recent)
    {
      assert m.recent[i..][1..] == m.recent[i + 1..];
      var r := OneResponseBytes(m.recent[i]);
      assert buf + ResponseBytes(m.recent[i..]) == (buf + r) + ResponseBytes(m.recent[i + 1..]);
      buf := buf + r;
    }
    FlattenSix(m.id52, m.signature, BE16(|m.commits| % U16_SIZE), CommitBytes(m.commits),
               BE16(|m.recent| % U16_SIZE), ResponseBytes(m.recent));
  }

  lemma FlattenSix(a: Bytes, b: Bytes, c: Bytes, e: Bytes, f: Bytes, g: Bytes)
    ensures a + (b + (c + (e + (f + g)))) == ((((a + b) + c) + e) + f) + g
  {
    assert a + (b + (c + (e + (f + g)))) == (a + b) + (c + (e + (f + g)));
    assert (a + b) + (c + (e + (f + g))) == ((a + b) + c) + (e + (f + g));
    assert ((a + b) + c) + (e + (f + g)) == (((a + b) + c) + e) + (f + g);
  }

  method UpdateCommitsToBytes(m: UpdateCommits) returns (buf: Bytes)
    ensures buf == m.ToBytes()
  {
    buf := AppendCommits(BE16(|m.commits| % U16_SIZE), m.commits);
  }

  method ReadCommits(d: Bytes, pos: nat, count: nat) returns (commits: seq<Bytes32>)
    requires pos + 32 * count <= |d|
    ensures commits == CommitsAt(d, pos, count)
  {
    commits := [];
    for i := 0 to count
      invariant commits == CommitsAt(d, pos, i)
    {
      var start := pos + 32 * i;
      commits := commits + [d[start..start + 32]];
    }
  }

  method UpdateCommitsFromBytes(d: Bytes) returns (r: Result<UpdateCommits>)
    ensures r == UpdateCommits.FromBytes(d)
  {
    if |d| < 2 {
      return Err(TooShort);
    }
    var count: nat := U16At(d, 0);
    if |d| < 2 + 32 * count {
      return Err(Truncated);
    }
    var commits := ReadCommits(d, 2, count);
    return Ok(UpdateCommits(commits));
  }

  method ReadResponses(d: Bytes, start: nat, count: nat) returns (r: Result<seq<RecentResponse>>)
    requires start <= |d|
    ensures r == ResponsesAt(d, start, count)
  {
    hide U32At;
    var recent: seq<RecentResponse> := [];
    var pos: nat := start;
    PrependNothing(ResponsesAt(d, start, count));
    for i := 0 to count
      invariant pos <= |d|
      invariant ResponsesAt(d, start, count) == Prepend(recent, ResponsesAt(d, pos, count - i))
    {
      if |d| < pos + 36 {
        return Err(Truncated);
      }
      var len := U32At(d, pos + 32);
      if |d| < pos + 36 + len {
        return Err(Truncated);
      }
      var response := RecentResponse(d[pos..pos + 32], d[pos + 36..pos + 36 + len]);
      PrependTwice(recent, [response], ResponsesAt(d, pos + 36 + len, count - i - 1));
      recent := recent + [response];
      pos := pos + 36 + len;
    }
    assert recent + [] == recent;
    return Ok(recent);
  }

  method IAmFromBytes(d: Bytes) returns (r: Result<IAm>)
    ensures r == IAm.FromBytes(d)
  {
    if |d| < 98 {
      return Err(TooShort);
    }
    var count: nat := U16At(d, 96);
    var commitsEnd := 98 + 32 * count;
    if |d| < commitsEnd + 2 {
      return Err(Truncated);
    }
    var commits := ReadCommits(d, 98, count);
    var recent := ReadResponses(d, commitsEnd + 2, U16At(d, commitsEnd));
    if recent.Err? {
      return Err(recent.error);
    }
    return Ok(IAm(d[0..32], d[32..96], commits, recent.value));
  }

  lemma PrependNothing<T>(r: Result<seq<T>>)
    ensures Prepend([], r) == r
  {
    if r.Ok? {
      assert [] + r.value == r.value;
    }
  }

  lemma PrependTwice<T>(a: seq<T>, b: seq<T>, r: Result<seq<T>>)
    ensures Prepend(a, Prepend(b, r)) == Prepend(a + b, r)
  {
    if r.Ok? {
      assert a + (b + r.value) == (a + b) + r.value;
    }
  }
}
