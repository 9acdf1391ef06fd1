/**
 * The wire format of bhumi-proto: every message's printer and parser, as functions on
 * byte strings. Lengths are 64-bit `usize` values in the program and never overflow here;
 * the narrowing casts to u16 and u32 in the printers are written out.
 */
module Wire {
  import opened Types

  const MSG_I_AM: u16 := 0x0002
  const MSG_SEND: u16 := 0x0003
  const MSG_ACK: u16 := 0x0005
  const MSG_UPDATE_COMMITS: u16 := 0x0008

  const SEND_OK: byte := 0
  const SEND_ERR_NOT_CONNECTED: byte := 1
  const SEND_ERR_INVALID_PREIMAGE: byte := 2
  const SEND_ERR_TIMEOUT: byte := 3
  const SEND_ERR_DISCONNECTED: byte := 4

  const DEV_HANDSHAKE_INIT: byte := 0x01
  const DEV_HANDSHAKE_COMPLETE: byte := 0x02
  const DEV_MESSAGE: byte := 0x10
  const DEV_MESSAGE_RESPONSE: byte := 0x11

  const HANDSHAKE_ACCEPTED: byte := 0
  const HANDSHAKE_REJECTED: byte := 1

  const U16_SIZE := 0x1_0000
  const U32_SIZE := 0x1_0000_0000

  datatype WireError = TooShort | Truncated | WrongTag | BadUtf8 | FrameTooLarge | UnexpectedEof

  datatype Result<+T> = Ok(value: T) | Err(error: WireError)

  // ---------------------------------------------------------------------------
  // Big-endian integers
  // ---------------------------------------------------------------------------

  function BE16(n: u16): (b: Bytes)
    ensures |b| == 2
  {
    [n / 0x100, n % 0x100]
  }

  function BE32(n: u32): (b: Bytes)
    ensures |b| == 4
  {
    BE16(n / U16_SIZE) + BE16(n % U16_SIZE)
  }

  function U16At(d: Bytes, i: nat): u16
    requires i + 2 <= |d|
  {
    0x100 * (d[i] as int) + d[i + 1]
  }

  function U32At(d: Bytes, i: nat): u32
    requires i + 4 <= |d|
  {
    U16_SIZE * (U16At(d, i) as int) + U16At(d, i + 2)
  }

  // ---------------------------------------------------------------------------
  // Fields at a position
  // ---------------------------------------------------------------------------

  /** The bytes `f` stand in `d` from position `i` on. */
  predicate At(d: Bytes, i: nat, f: Bytes) {
    i + |f| <= |d| && d[i..i + |f|] == f
  }

  /** A concatenation stands at a position exactly when its parts do, one after the other. */
  lemma AtConcat(d: Bytes, i: nat, a: Bytes, b: Bytes)
    ensures At(d, i, a + b) <==> At(d, i, a) && At(d, i + |a|, b)
  {
    if i + |a + b| <= |d| {
      var s := d[i..i + |a + b|];
      assert s[..|a|] == d[i..i + |a|];
      assert s[|a|..] == d[i + |a|..i + |a| + |b|];
      assert s == s[..|a|] + s[|a|..];
      assert (a + b)[..|a|] == a && (a + b)[|a|..] == b;
    }
  }

  lemma PrefixSplit(a: Bytes, b: Bytes, d: Bytes)
    ensures a + b <= d <==> a <= d && b <= d[|a|..]
  {
    AtConcat(d, 0, a, b);
    if |a + b| <= |d| {
      assert d[|a|..][..|b|] == d[|a|..|a| + |b|];
    }
  }

  /** The same for a whole message laid out as three to six fields. */
  lemma Layout3(d: Bytes, i: nat, a: Bytes, b: Bytes, c: Bytes)
    ensures At(d, i, a + (b + c)) <==> At(d, i, a) && At(d, i + |a|, b) && At(d, i + |a| + |b|, c)
  {
    AtConcat(d, i, a, b + c);
    AtConcat(d, i + |a|, b, c);
  }

  lemma Layout4(d: Bytes, i: nat, a: Bytes, b: Bytes, c: Bytes, e: Bytes)
    ensures At(d, i, a + (b + (c + e)))
       <==> At(d, i, a) && At(d, i + |a|, b) && At(d, i + |a| + |b|, c) && At(d, i + |a| + |b| + |c|, e)
  {
    AtConcat(d, i, a, b + (c + e));
    Layout3(d, i + |a|, b, c, e);
  }

  lemma Layout5(d: Bytes, i: nat, a: Bytes, b: Bytes, c: Bytes, e: Bytes, f: Bytes)
    ensures At(d, i, a + (b + (c + (e + f))))
       <==> && At(d, i, a) && At(d, i + |a|, b) && At(d, i + |a| + |b|, c) && At(d, i + |a| + |b| + |c|, e)
            && At(d, i + |a| + |b| + |c| + |e|, f)
  {
    AtConcat(d, i, a, b + (c + (e + f)));
    Layout4(d, i + |a|, b, c, e, f);
  }

  lemma Layout6(d: Bytes, i: nat, a: Bytes, b: Bytes, c: Bytes, e: Bytes, f: Bytes, g: Bytes)
    ensures At(d, i, a + (b + (c + (e + (f + g)))))
       <==> && At(d, i, a) && At(d, i + |a|, b) && At(d, i + |a| + |b|, c) && At(d, i + |a| + |b| + |c|, e)
            && At(d, i + |a| + |b| + |c| + |e|, f) && At(d, i + |a| + |b| + |c| + |e| + |f|, g)
  {
    AtConcat(d, i, a, b + (c + (e + (f + g))));
    Layout5(d, i + |a|, b, c, e, f, g);
  }

  /** Reading a big-endian field and printing it are inverse, in both directions. */
  lemma AtBE16(d: Bytes, i: nat, n: u16)
    ensures At(d, i, BE16(n)) <==> i + 2 <= |d| && U16At(d, i) == n
  {
    if i + 2 <= |d| {
      var s := d[i..i + 2];
      assert s == [d[i], d[i + 1]];
      if s == BE16(n) {
        assert d[i] == s[0] && d[i + 1] == s[1];
      }
    }
  }

  lemma AtBE32(d: Bytes, i: nat, n: u32)
    ensures At(d, i, BE32(n)) <==> i + 4 <= |d| && U32At(d, i) == n
  {
    AtConcat(d, i, BE16(n / U16_SIZE), BE16(n % U16_SIZE));
    AtBE16(d, i, n / U16_SIZE);
    AtBE16(d, i + 2, n % U16_SIZE);
  }

  lemma AtByte(d: Bytes, i: nat, n: byte)
    ensures At(d, i, [n]) <==> i < |d| && d[i] == n
  {
    if i < |d| {
      assert d[i..i + 1] == [d[i]];
    }
  }

  // ---------------------------------------------------------------------------
  // Text
  // ---------------------------------------------------------------------------

  predicate Continuation(s: Bytes, i: nat, lo: byte, hi: byte) {
    i < |s| && lo <= s[i] <= hi
  }

  /** Well-formed UTF-8 from position `i` on, by the byte ranges of section 4 of RFC 3629. */
  predicate ValidUtf8From(s: Bytes, i: nat)
    decreases |s| - i
  {
    if i >= |s| then true
    else if s[i] < 0x80 then ValidUtf8From(s, i + 1)
    else if 0xC2 <= s[i] <= 0xDF then
      Continuation(s, i + 1, 0x80, 0xBF) && ValidUtf8From(s, i + 2)
    else if 0xE0 <= s[i] <= 0xEF then
      && Continuation(s, i + 1, if s[i] == 0xE0 then 0xA0 else 0x80, if s[i] == 0xED then 0x9F else 0xBF)
      && Continuation(s, i + 2, 0x80, 0xBF)
      && ValidUtf8From(s, i + 3)
    else if 0xF0 <= s[i] <= 0xF4 then
      && Continuation(s, i + 1, if s[i] == 0xF0 then 0x90 else 0x80, if s[i] == 0xF4 then 0x8F else 0xBF)
      && Continuation(s, i + 2, 0x80, 0xBF)
      && Continuation(s, i + 3, 0x80, 0xBF)
      && ValidUtf8From(s, i + 4)
    else false
  }

  predicate ValidUtf8(s: Bytes) {
    ValidUtf8From(s, 0)
  }

  /** A Rust `String`, held as its UTF-8 bytes. */
  type Text = s: Bytes | ValidUtf8(s) witness []

  // ---------------------------------------------------------------------------
  // HELLO
  // ---------------------------------------------------------------------------

  datatype Hello = Hello(version: byte, nonce: u32, maxPayloadSize: u32) {
    /** Where each field stands in a byte string that begins with this message. */
    predicate LaidOut(d: Bytes) {
      && 9 <= |d| && d[0] == version
      && U32At(d, 1) == nonce && U32At(d, 5) == maxPayloadSize
    }

    function ToBytes(): Bytes {
      [version] + (BE32(nonce) + BE32(maxPayloadSize))
    }

    static function FromBytes(d: Bytes): Result<Hello> {
      if |d| < 9 then Err(TooShort)
      else Ok(Hello(d[0], U32At(d, 1), U32At(d, 5)))
    }
  }

  lemma HelloExact(d: Bytes, m: Hello)
    ensures Hello.FromBytes(d) == Ok(m) <==> m.ToBytes() <= d
  {
    hide BE16, BE32, U16At, U32At;
    assert m.ToBytes() <= d <==> m.LaidOut(d) by {
      assert m.ToBytes() <= d <==> At(d, 0, m.ToBytes());
      Layout3(d, 0, [m.version], BE32(m.nonce), BE32(m.maxPayloadSize));
      AtByte(d, 0, m.version);
      AtBE32(d, 1, m.nonce);
      AtBE32(d, 5, m.maxPayloadSize);
    }
  }

  // ---------------------------------------------------------------------------
  // I_AM: identity, signature, counted commits, counted recent responses
  // ---------------------------------------------------------------------------

  datatype RecentResponse = RecentResponse(preimage: Bytes32, response: Bytes)

  function CommitBytes(commits: seq<Bytes32>): (b: Bytes)
    ensures |b| == 32 * |commits|
  {
    if commits == [] then [] else commits[0] + CommitBytes(commits[1..])
  }

  function OneResponseBytes(r: RecentResponse): (b: Bytes)
    ensures |b| == 36 + |r.response|
  {
    r.preimage + (BE32(|r.response| % U32_SIZE) + r.response)
  }

  function ResponseBytes(rs: seq<RecentResponse>): Bytes {
    if rs == [] then [] else OneResponseBytes(rs[0]) + ResponseBytes(rs[1..])
  }

  /** The `n` commits that stand in `d` from `pos` on. */
  function CommitsAt(d: Bytes, pos: nat, n: nat): (commits: seq<Bytes32>)
    requires pos + 32 * n <= |d|
    ensures |commits| == n
  {
    seq(n, i requires 0 <= i < n => d[pos + 32 * i..pos + 32 * i + 32])
  }

  function Prepend<T>(done: seq<T>, rest: Result<seq<T>>): Result<seq<T>> {
    if rest.Ok? then Ok(done + rest.value) else rest
  }

  /** The `n` recent responses that stand in `d` from `pos` on. */
  function ResponsesAt(d: Bytes, pos: nat, n: nat): Result<seq<RecentResponse>>
    requires pos <= |d|
    decreases n
  {
    if n == 0 then Ok([])
    else if |d| < pos + 36 then Err(Truncated)
    else
      var len := U32At(d, pos + 32);
      if |d| < pos + 36 + len then Err(Truncated)
      else
        Prepend([RecentResponse(d[pos..pos + 32], d[pos + 36..pos + 36 + len])],
                ResponsesAt(d, pos + 36 + len, n - 1))
  }

  predicate ResponsesBounded(rs: seq<RecentResponse>) {
    forall i :: 0 <= i < |rs| ==> |rs[i].response| < U32_SIZE
  }

  datatype IAm = IAm(id52: Bytes32, signature: Bytes64, commits: seq<Bytes32>, recent: seq<RecentResponse>) {
    predicate Bounded() {
      |commits| < U16_SIZE && |recent| < U16_SIZE && ResponsesBounded(recent)
    }

    /** Where each field stands in a byte string that begins with this message. */
    predicate LaidOut(d: Bytes) {
      && 98 <= |d| && d[0..32] == id52 && d[32..96] == signature
      && U16At(d, 96) == |commits| % U16_SIZE
      && 100 + 32 * |commits| <= |d| && CommitsAt(d, 98, |commits|) == commits
      && U16At(d, 98 + 32 * |commits|) == |recent| % U16_SIZE
      && At(d, 100 + 32 * |commits|, ResponseBytes(recent))
    }

    function ToBytes(): Bytes {
      id52 + (signature + (BE16(|commits| % U16_SIZE) + (CommitBytes(commits)
        + (BE16(|recent| % U16_SIZE) + ResponseBytes(recent)))))
    }

    static function FromBytes(d: Bytes): Result<IAm> {
      if |d| < 98 then Err(TooShort) else
      var commitsEnd := 98 + 32 * U16At(d, 96);
      if |d| < commitsEnd + 2 then Err(Truncated) else
      var rs := ResponsesAt(d, commitsEnd + 2, U16At(d, commitsEnd));
      if rs.Err? then Err(rs.error) else
      Ok(IAm(d[0..32], d[32..96], CommitsAt(d, 98, U16At(d, 96)), rs.value))
    }
  }

  lemma {:induction false} CommitsExact(d: Bytes, pos: nat, commits: seq<Bytes32>)
    ensures At(d, pos, CommitBytes(commits))
       <==> pos + 32 * |commits| <= |d| && CommitsAt(d, pos, |commits|) == commits
    decreases |commits|
  {
    if commits != [] {
      var rest := commits[1..];
      AtConcat(d, pos, commits[0], CommitBytes(rest));
      CommitsExact(d, pos + 32, rest);
      if pos + 32 * |commits| <= |d| {
        var all := CommitsAt(d, pos, |commits|);
        assert all[0] == d[pos..pos + 32];
        assert all[1..] == CommitsAt(d, pos + 32, |rest|);
        assert all == [all[0]] + all[1..] && commits == [commits[0]] + rest;
      }
    }
  }

  predicate ResponseLaidOut(d: Bytes, pos: nat, r: RecentResponse) {
    && pos + 36 + |r.response| <= |d| && d[pos..pos + 32] == r.preimage
    && U32At(d, pos + 32) == |r.response| && d[pos + 36..pos + 36 + |r.response|] == r.response
  }

  lemma OneResponseExact(d: Bytes, pos: nat, r: RecentResponse)
    requires |r.response| < U32_SIZE
    ensures At(d, pos, OneResponseBytes(r)) <==> ResponseLaidOut(d, pos, r)
  {
    hide BE16, BE32, U16At, U32At;
    Layout3(d, pos, r.preimage, BE32(|r.response|), r.response);
    AtBE32(d, pos + 32, |r.response|);
  }

  lemma {:induction false} ResponsesSound(d: Bytes, pos: nat, n: nat)
    requires pos <= |d| && ResponsesAt(d, pos, n).Ok?
    ensures var rs := ResponsesAt(d, pos, n).value;
            |rs| == n && ResponsesBounded(rs) && At(d, pos, ResponseBytes(rs))
    decreases n
  {
    if n > 0 {
      var end := pos + 36 + U32At(d, pos + 32);
      var r := RecentResponse(d[pos..pos + 32], d[pos + 36..end]);
      var rest := ResponsesAt(d, end, n - 1).value;
      ResponsesSound(d, end, n - 1);
      OneResponseExact(d, pos, r);
      AtConcat(d, pos, OneResponseBytes(r), ResponseBytes(rest));
      assert ([r] + rest)[1..] == rest;
    }
  }

  lemma {:induction false} ResponsesComplete(d: Bytes, pos: nat, rs: seq<RecentResponse>)
    requires pos <= |d| && ResponsesBounded(rs) && At(d, pos, ResponseBytes(rs))
    ensures ResponsesAt(d, pos, |rs|) == Ok(rs)
    decreases |rs|
  {
    hide BE16, BE32, U16At, U32At, At, OneResponseBytes;
    if rs != [] {
      var r, rest := rs[0], rs[1..];
      AtConcat(d, pos, OneResponseBytes(r), ResponseBytes(rest));
      OneResponseExact(d, pos, r);
      ResponsesComplete(d, pos + 36 + |r.response|, rest);
      assert rs == [r] + rest;
    }
  }

  lemma IAmPrinted(d: Bytes, m: IAm)
    ensures m.ToBytes() <= d <==> m.LaidOut(d)
  {
    hide BE16, BE32, U16At, U32At, CommitBytes, CommitsAt;
    assert m.ToBytes() <= d <==> At(d, 0, m.ToBytes());
    var c, r := |m.commits| % U16_SIZE, |m.recent| % U16_SIZE;
    Layout6(d, 0, m.id52, m.signature, BE16(c), CommitBytes(m.commits), BE16(r), ResponseBytes(m.recent));
    AtBE16(d, 96, c);
    AtBE16(d, 98 + 32 * |m.commits|, r);
    CommitsExact(d, 98, m.commits);
  }

  lemma IAmSound(d: Bytes, m: IAm)
    requires IAm.FromBytes(d) == Ok(m)
    ensures m.Bounded() && m.LaidOut(d)
  {
    hide BE16, BE32, U16At, U32At, CommitsAt, ResponsesAt, ResponseBytes;
    var end := 98 + 32 * U16At(d, 96);
    ResponsesSound(d, end + 2, U16At(d, end));
  }

  lemma IAmComplete(d: Bytes, m: IAm)
    requires m.Bounded() && m.LaidOut(d)
    ensures IAm.FromBytes(d) == Ok(m)
  {
    hide BE16, BE32, U16At, U32At, CommitsAt, ResponsesAt, ResponseBytes;
    var end := 98 + 32 * |m.commits|;
    assert |m.commits| == U16At(d, 96) && |m.recent| == U16At(d, end);
    ResponsesComplete(d, end + 2, m.recent);
  }

  lemma IAmExact(d: Bytes, m: IAm)
    ensures IAm.FromBytes(d) == Ok(m) <==> m.Bounded() && m.ToBytes() <= d
  {
    IAmPrinted(d, m);
    if IAm.FromBytes(d) == Ok(m) {
      IAmSound(d, m);
    }
    if m.Bounded() && m.LaidOut(d) {
      IAmComplete(d, m);
    }
  }

  // ---------------------------------------------------------------------------
  // SEND: recipient, preimage, counted payload
  // ---------------------------------------------------------------------------

  datatype Send = Send(toId: Bytes32, preimage: Bytes32, payload: Bytes) {
    predicate Bounded() {
      |payload| < U32_SIZE
    }

    /** Where each field stands in a byte string that begins with this message. */
    predicate LaidOut(d: Bytes) {
      && 68 <= |d| && d[0..32] == toId && d[32..64] == preimage
      && U32At(d, 64) == |payload| % U32_SIZE && At(d, 68, payload)
    }

    function ToBytes(): Bytes {
      toId + (preimage + (BE32(|payload| % U32_SIZE) + payload))
    }

    static function FromBytes(d: Bytes): Result<Send> {
      if |d| < 68 then Err(TooShort) else
      var len := U32At(d, 64);
      if |d| < 68 + len then Err(Truncated) else
      Ok(Send(d[0..32], d[32..64], d[68..68 + len]))
    }
  }

  lemma SendExact(d: Bytes, m: Send)
    ensures Send.FromBytes(d) == Ok(m) <==> m.Bounded() && m.ToBytes() <= d
  {
    hide BE16, BE32, U16At, U32At;
    assert m.ToBytes() <= d <==> m.LaidOut(d) by {
      assert m.ToBytes() <= d <==> At(d, 0, m.ToBytes());
      Layout4(d, 0, m.toId, m.preimage, BE32(|m.payload| % U32_SIZE), m.payload);
      AtBE32(d, 64, |m.payload| % U32_SIZE);
    }
  }

  // ---------------------------------------------------------------------------
  // UPDATE_COMMITS
  // ---------------------------------------------------------------------------

  datatype UpdateCommits = UpdateCommits(commits: seq<Bytes32>) {
    predicate Bounded() {
      |commits| < U16_SIZE
    }

    /** Where each field stands in a byte string that begins with this message. */
    predicate LaidOut(d: Bytes) {
      && 2 <= |d| && U16At(d, 0) == |commits| % U16_SIZE
      && At(d, 2, CommitBytes(commits))
    }

    function ToBytes(): Bytes {
      BE16(|commits| % U16_SIZE) + CommitBytes(commits)
    }

    static function FromBytes(d: Bytes): Result<UpdateCommits> {
      if |d| < 2 then Err(TooShort) else
      if |d| < 2 + 32 * U16At(d, 0) then Err(Truncated) else
      Ok(UpdateCommits(CommitsAt(d, 2, U16At(d, 0))))
    }
  }

  lemma UpdateCommitsExact(d: Bytes, m: UpdateCommits)
    ensures UpdateCommits.FromBytes(d) == Ok(m) <==> m.Bounded() && m.ToBytes() <= d
  {
    hide BE16, BE32, U16At, U32At, CommitBytes, CommitsAt;
    assert m.ToBytes() <= d <==> m.LaidOut(d) by {
      assert m.ToBytes() <= d <==> At(d, 0, m.ToBytes());
      AtConcat(d, 0, BE16(|m.commits| % U16_SIZE), CommitBytes(m.commits));
      AtBE16(d, 0, |m.commits| % U16_SIZE);
    }
    CommitsExact(d, 2, m.commits);
  }

  // ---------------------------------------------------------------------------
  // DELIVER
  // ---------------------------------------------------------------------------

  datatype Deliver = Deliver(msgId: u32, preimage: Bytes32, payload: Bytes) {
    predicate Bounded() {
      |payload| < U32_SIZE
    }

    /** Where each field stands in a byte string that begins with this message. */
    predicate LaidOut(d: Bytes) {
      && 40 <= |d| && U32At(d, 0) == msgId && d[4..36] == preimage
      && U32At(d, 36) == |payload| % U32_SIZE && At(d, 40, payload)
    }

    function ToBytes(): Bytes {
      BE32(msgId) + (preimage + (BE32(|payload| % U32_SIZE) + payload))
    }

    static function FromBytes(d: Bytes): Result<Deliver> {
      if |d| < 40 then Err(TooShort) else
      var len := U32At(d, 36);
      if |d| < 40 + len then Err(Truncated) else
      Ok(Deliver(U32At(d, 0), d[4..36], d[40..40 + len]))
    }
  }

  lemma DeliverExact(d: Bytes, m: Deliver)
    ensures Deliver.FromBytes(d) == Ok(m) <==> m.Bounded() && m.ToBytes() <= d
  {
    hide BE16, BE32, U16At, U32At;
    assert m.ToBytes() <= d <==> m.LaidOut(d) by {
      assert m.ToBytes() <= d <==> At(d, 0, m.ToBytes());
      Layout4(d, 0, BE32(m.msgId), m.preimage, BE32(|m.payload| % U32_SIZE), m.payload);
      AtBE32(d, 0, m.msgId);
      AtBE32(d, 36, |m.payload| % U32_SIZE);
    }
  }

  // ---------------------------------------------------------------------------
  // ACK
  // ---------------------------------------------------------------------------

  datatype Ack = Ack(msgId: u32, payload: Bytes) {
    predicate Bounded() {
      |payload| < U32_SIZE
    }

    /** Where each field stands in a byte string that begins with this message. */
    predicate LaidOut(d: Bytes) {
      && 8 <= |d| && U32At(d, 0) == msgId
      && U32At(d, 4) == |payload| % U32_SIZE && At(d, 8, payload)
    }

    function ToBytes(): Bytes {
      BE32(msgId) + (BE32(|payload| % U32_SIZE) + payload)
    }

    static function FromBytes(d: Bytes): Result<Ack> {
      if |d| < 8 then Err(TooShort) else
      var len := U32At(d, 4);
      if |d| < 8 + len then Err(Truncated) else
      Ok(Ack(U32At(d, 0), d[8..8 + len]))
    }
  }

  lemma AckExact(d: Bytes, m: Ack)
    ensures Ack.FromBytes(d) == Ok(m) <==> m.Bounded() && m.ToBytes() <= d
  {
    hide BE16, BE32, U16At, U32At;
    assert m.ToBytes() <= d <==> m.LaidOut(d) by {
      assert m.ToBytes() <= d <==> At(d, 0, m.ToBytes());
      Layout3(d, 0, BE32(m.msgId), BE32(|m.payload| % U32_SIZE), m.payload);
      AtBE32(d, 0, m.msgId);
      AtBE32(d, 4, |m.payload| % U32_SIZE);
    }
  }

  // ---------------------------------------------------------------------------
  // SEND_RESULT
  // ---------------------------------------------------------------------------

  datatype SendResult = SendResult(status: byte, payload: Bytes) {
    predicate Bounded() {
      |payload| < U32_SIZE
    }

    /** Where each field stands in a byte string that begins with this message. */
    predicate LaidOut(d: Bytes) {
      && 5 <= |d| && d[0] == status
      && U32At(d, 1) == |payload| % U32_SIZE && At(d, 5, payload)
    }

    function ToBytes(): Bytes {
      [status] + (BE32(|payload| % U32_SIZE) + payload)
    }

    static function FromBytes(d: Bytes): Result<SendResult> {
      if |d| < 5 then Err(TooShort) else
      var len := U32At(d, 1);
      if |d| < 5 + len then Err(Truncated) else
      Ok(SendResult(d[0], d[5..5 + len]))
    }
  }

  lemma SendResultExact(d: Bytes, m: SendResult)
    ensures SendResult.FromBytes(d) == Ok(m) <==> m.Bounded() && m.ToBytes() <= d
  {
    hide BE16, BE32, U16At, U32At;
    assert m.ToBytes() <= d <==> m.LaidOut(d) by {
      assert m.ToBytes() <= d <==> At(d, 0, m.ToBytes());
      Layout3(d, 0, [m.status], BE32(|m.payload| % U32_SIZE), m.payload);
      AtByte(d, 0, m.status);
      AtBE32(d, 1, |m.payload| % U32_SIZE);
    }
  }

  // ---------------------------------------------------------------------------
  // HANDSHAKE_INIT and HANDSHAKE_COMPLETE
  // ---------------------------------------------------------------------------

  datatype HandshakeInit = HandshakeInit(senderId: Bytes32, preimageForPeer: Bytes32, relayUrl: Text) {
    predicate Bounded() {
      |relayUrl| < U16_SIZE
    }

    /** Where each field stands in a byte string that begins with this message. */
    predicate LaidOut(d: Bytes) {
      && 67 <= |d| && d[0] == DEV_HANDSHAKE_INIT && d[1..33] == senderId && d[33..65] == preimageForPeer
      && U16At(d, 65) == |relayUrl| % U16_SIZE && At(d, 67, relayUrl)
    }

    function ToBytes(): Bytes {
      [DEV_HANDSHAKE_INIT] + (senderId + (preimageForPeer + (BE16(|relayUrl| % U16_SIZE) + relayUrl)))
    }

    static function FromBytes(d: Bytes): Result<HandshakeInit> {
      if |d| < 67 then Err(TooShort) else
      if d[0] != DEV_HANDSHAKE_INIT then Err(WrongTag) else
      var len := U16At(d, 65);
      if |d| < 67 + len then Err(Truncated) else
      if !ValidUtf8(d[67..67 + len]) then Err(BadUtf8) else
      Ok(HandshakeInit(d[1..33], d[33..65], d[67..67 + len]))
    }
  }

  lemma HandshakeInitExact(d: Bytes, m: HandshakeInit)
    ensures HandshakeInit.FromBytes(d) == Ok(m) <==> m.Bounded() && m.ToBytes() <= d
  {
    hide BE16, BE32, U16At, U32At, ValidUtf8;
    assert m.ToBytes() <= d <==> m.LaidOut(d) by {
      assert m.ToBytes() <= d <==> At(d, 0, m.ToBytes());
      var len := |m.relayUrl| % U16_SIZE;
      Layout5(d, 0, [DEV_HANDSHAKE_INIT], m.senderId, m.preimageForPeer, BE16(len), m.relayUrl);
      AtByte(d, 0, DEV_HANDSHAKE_INIT);
      AtBE16(d, 65, len);
    }
  }

  datatype HandshakeComplete = HandshakeComplete(status: byte, preimageForPeer: Bytes32, relayUrl: Text) {
    predicate Bounded() {
      |relayUrl| < U16_SIZE
    }

    /** Where each field stands in a byte string that begins with this message. */
    predicate LaidOut(d: Bytes) {
      && 36 <= |d| && d[0] == DEV_HANDSHAKE_COMPLETE && d[1] == status && d[2..34] == preimageForPeer
      && U16At(d, 34) == |relayUrl| % U16_SIZE && At(d, 36, relayUrl)
    }

    function ToBytes(): Bytes {
      [DEV_HANDSHAKE_COMPLETE] + ([status] + (preimageForPeer + (BE16(|relayUrl| % U16_SIZE) + relayUrl)))
    }

    static function FromBytes(d: Bytes): Result<HandshakeComplete> {
      if |d| < 36 then Err(TooShort) else
      if d[0] != DEV_HANDSHAKE_COMPLETE then Err(WrongTag) else
      var len := U16At(d, 34);
      if |d| < 36 + len then Err(Truncated) else
      if !ValidUtf8(d[36..36 + len]) then Err(BadUtf8) else
      Ok(HandshakeComplete(d[1], d[2..34], d[36..36 + len]))
    }
  }

  lemma HandshakeCompleteExact(d: Bytes, m: HandshakeComplete)
    ensures HandshakeComplete.FromBytes(d) == Ok(m) <==> m.Bounded() && m.ToBytes() <= d
  {
    hide BE16, BE32, U16At, U32At, ValidUtf8;
    assert m.ToBytes() <= d <==> m.LaidOut(d) by {
      assert m.ToBytes() <= d <==> At(d, 0, m.ToBytes());
      var len := |m.relayUrl| % U16_SIZE;
      Layout5(d, 0, [DEV_HANDSHAKE_COMPLETE], [m.status], m.preimageForPeer, BE16(len), m.relayUrl);
      AtByte(d, 0, DEV_HANDSHAKE_COMPLETE);
      AtByte(d, 1, m.status);
      AtBE16(d, 34, len);
    }
  }

  // ---------------------------------------------------------------------------
  // MESSAGE and MESSAGE_RESPONSE: a counted URL, then counted content
  // ---------------------------------------------------------------------------

  /** The common tail of both messages: URL length, URL, content length, content. */
  function UrlContentBytes(url: Bytes, content: Bytes): Bytes {
    BE16(|url| % U16_SIZE) + (url + (BE32(|content| % U32_SIZE) + content))
  }

  predicate UrlContentLaidOut(d: Bytes, pos: nat, url: Bytes, content: Bytes) {
    && pos + 2 <= |d| && U16At(d, pos) == |url| % U16_SIZE
    && At(d, pos + 2, url)
    && pos + 6 + |url| <= |d| && U32At(d, pos + 2 + |url|) == |content| % U32_SIZE
    && At(d, pos + 6 + |url|, content)
  }

  lemma UrlContentExact(d: Bytes, pos: nat, url: Bytes, content: Bytes)
    ensures At(d, pos, UrlContentBytes(url, content)) <==> UrlContentLaidOut(d, pos, url, content)
  {
    hide BE16, BE32, U16At, U32At, ValidUtf8;
    var u, c := |url| % U16_SIZE, |content| % U32_SIZE;
    Layout4(d, pos, BE16(u), url, BE32(c), content);
    AtBE16(d, pos, u);
    AtBE32(d, pos + 2 + |url|, c);
  }

  datatype DeviceMessage = DeviceMessage(contentType: byte, relayUrl: Text, content: Bytes) {
    predicate Bounded() {
      |relayUrl| < U16_SIZE && |content| < U32_SIZE
    }

    /** Where each field stands in a byte string that begins with this message. */
    predicate LaidOut(d: Bytes) {
      && 4 <= |d| && d[0] == DEV_MESSAGE && d[1] == contentType
      && UrlContentLaidOut(d, 2, relayUrl, content)
    }

    function ToBytes(): Bytes {
      [DEV_MESSAGE] + ([contentType] + UrlContentBytes(relayUrl, content))
    }

    static function FromBytes(d: Bytes): Result<DeviceMessage> {
      if |d| < 4 then Err(TooShort) else
      if d[0] != DEV_MESSAGE then Err(WrongTag) else
      var urlLen := U16At(d, 2);
      if |d| < 4 + urlLen + 4 then Err(Truncated) else
      if !ValidUtf8(d[4..4 + urlLen]) then Err(BadUtf8) else
      var start := 4 + urlLen;
      var len := U32At(d, start);
      if |d| < start + 4 + len then Err(Truncated) else
      Ok(DeviceMessage(d[1], d[4..4 + urlLen], d[start + 4..start + 4 + len]))
    }
  }

  lemma DeviceMessagePrinted(d: Bytes, m: DeviceMessage)
    ensures m.ToBytes() <= d <==> m.LaidOut(d)
  {
    hide BE16, BE32, U16At, U32At, ValidUtf8;
    assert m.ToBytes() <= d <==> At(d, 0, m.ToBytes());
    Layout3(d, 0, [DEV_MESSAGE], [m.contentType], UrlContentBytes(m.relayUrl, m.content));
    AtByte(d, 0, DEV_MESSAGE);
    AtByte(d, 1, m.contentType);
    UrlContentExact(d, 2, m.relayUrl, m.content);
  }

  lemma DeviceMessageParsed(d: Bytes, m: DeviceMessage)
    ensures DeviceMessage.FromBytes(d) == Ok(m) <==> m.Bounded() && m.LaidOut(d)
  {
    hide BE16, BE32, U16At, U32At, ValidUtf8;
  }

  lemma DeviceMessageExact(d: Bytes, m: DeviceMessage)
    ensures DeviceMessage.FromBytes(d) == Ok(m) <==> m.Bounded() && m.ToBytes() <= d
  {
    DeviceMessagePrinted(d, m);
    DeviceMessageParsed(d, m);
  }

  datatype DeviceMessageResponse =
    DeviceMessageResponse(status: byte, nextPreimage: Bytes32, relayUrl: Text, content: Bytes)
  {
    predicate Bounded() {
      |relayUrl| < U16_SIZE && |content| < U32_SIZE
    }

    /** Where each field stands in a byte string that begins with this message. */
    predicate LaidOut(d: Bytes) {
      && 36 <= |d| && d[0] == DEV_MESSAGE_RESPONSE && d[1] == status && d[2..34] == nextPreimage
      && UrlContentLaidOut(d, 34, relayUrl, content)
    }

    function ToBytes(): Bytes {
      [DEV_MESSAGE_RESPONSE] + ([status] + (nextPreimage + UrlContentBytes(relayUrl, content)))
    }

    static function FromBytes(d: Bytes): Result<DeviceMessageResponse> {
      if |d| < 36 then Err(TooShort) else
      if d[0] != DEV_MESSAGE_RESPONSE then Err(WrongTag) else
      var urlLen := U16At(d, 34);
      if |d| < 36 + urlLen + 4 then Err(Truncated) else
      if !ValidUtf8(d[36..36 + urlLen]) then Err(BadUtf8) else
      var start := 36 + urlLen;
      var len := U32At(d, start);
      if |d| < start + 4 + len then Err(Truncated) else
      Ok(DeviceMessageResponse(d[1], d[2..34], d[36..36 + urlLen], d[start + 4..start + 4 + len]))
    }
  }

  lemma DeviceMessageResponsePrinted(d: Bytes, m: DeviceMessageResponse)
    ensures m.ToBytes() <= d <==> m.LaidOut(d)
  {
    hide BE16, BE32, U16At, U32At, ValidUtf8;
    assert m.ToBytes() <= d <==> At(d, 0, m.ToBytes());
    Layout4(d, 0, [DEV_MESSAGE_RESPONSE], [m.status], m.nextPreimage, UrlContentBytes(m.relayUrl, m.content));
    AtByte(d, 0, DEV_MESSAGE_RESPONSE);
    AtByte(d, 1, m.status);
    UrlContentExact(d, 34, m.relayUrl, m.content);
  }

  lemma DeviceMessageResponseParsed(d: Bytes, m: DeviceMessageResponse)
    ensures DeviceMessageResponse.FromBytes(d) == Ok(m) <==> m.Bounded() && m.LaidOut(d)
  {
    hide BE16, BE32, U16At, U32At, ValidUtf8;
  }

  lemma DeviceMessageResponseExact(d: Bytes, m: DeviceMessageResponse)
    ensures DeviceMessageResponse.FromBytes(d) == Ok(m) <==> m.Bounded() && m.ToBytes() <= d
  {
    DeviceMessageResponsePrinted(d, m);
    DeviceMessageResponseParsed(d, m);
  }
}
