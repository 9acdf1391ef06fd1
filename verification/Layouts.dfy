/**
 * Where the fields of every message stand, counted in bytes, and how numbers are written: what another
 * implementation of the protocol has to know.
 */
module Layouts {
  import opened Types
  import opened Wire
  import opened Frames

  /** The order of equally long byte strings: the first byte that differs decides. */
  predicate Before(a: Bytes, b: Bytes) {
    exists i :: 0 <= i < |a| && i < |b| && a[..i] == b[..i] && a[i] < b[i]
  }

  /** Numbers are written with the most significant byte first: their order is that of their bytes. */
  lemma BigEndian16(x: u16, y: u16)
    ensures x < y <==> Before(BE16(x), BE16(y))
  {
    var a, b := BE16(x), BE16(y);
    assert a[..0] == b[..0];
    assert a[..1] == [a[0]] && b[..1] == [b[0]];
    if x < y {
      assert a[0] < b[0] || (a[0] == b[0] && a[1] < b[1]);
      var i := if a[0] < b[0] then 0 else 1;
      assert a[..i] == b[..i] && a[i] < b[i];
    }
  }

  lemma BigEndian32(x: u32, y: u32)
    ensures x < y <==> Before(BE32(x), BE32(y))
  {
    var a, b := BE32(x), BE32(y);
    var h1, h2, l1, l2 := BE16(x / U16_SIZE), BE16(y / U16_SIZE), BE16(x % U16_SIZE), BE16(y % U16_SIZE);
    assert a == h1 + l1 && b == h2 + l2;
    BigEndian16(x / U16_SIZE, y / U16_SIZE);
    BigEndian16(x % U16_SIZE, y % U16_SIZE);
    Joined(h1, l1, h2, l2);
    hide BE16, BE32;
    if x / U16_SIZE == y / U16_SIZE {
      NotBefore(h1);
    } else if y / U16_SIZE < x / U16_SIZE {
      BigEndian16(y / U16_SIZE, x / U16_SIZE);
    }
  }

  lemma NotBefore(a: Bytes)
    ensures !Before(a, a)
  {}

  /** High parts decide first, and low parts if those are equal. */
  lemma Joined(h1: Bytes, l1: Bytes, h2: Bytes, l2: Bytes)
    requires |h1| == |h2| && |l1| == |l2|
    ensures Before(h1 + l1, h2 + l2) <==> Before(h1, h2) || (h1 == h2 && Before(l1, l2))
  {
    var a, b := h1 + l1, h2 + l2;
    if i :| 0 <= i < |a| && i < |b| && a[..i] == b[..i] && a[i] < b[i] {
      if i < |h1| {
        assert h1[..i] == a[..i] && h2[..i] == b[..i];
      } else {
        assert h1 == a[..i][..|h1|] && h2 == b[..i][..|h1|];
        assert l1[..i - |h1|] == a[..i][|h1|..] && l2[..i - |h1|] == b[..i][|h1|..];
        assert l1[i - |h1|] < l2[i - |h1|];
      }
    }
    if i :| 0 <= i < |h1| && i < |h2| && h1[..i] == h2[..i] && h1[i] < h2[i] {
      assert a[..i] == h1[..i] && b[..i] == h2[..i] && a[i] < b[i];
    }
    if h1 == h2 && Before(l1, l2) {
      var i :| 0 <= i < |l1| && i < |l2| && l1[..i] == l2[..i] && l1[i] < l2[i];
      assert a[..|h1| + i] == h1 + l1[..i] && b[..|h1| + i] == h2 + l2[..i] && a[|h1| + i] < b[|h1| + i];
    }
  }

  // ---------------------------------------------------------------------------
  // Frames and messages
  // ---------------------------------------------------------------------------

  /** A number stands at position `i`. */
  predicate Number16(d: Bytes, i: nat, n: nat) {
    i + 2 <= |d| && n < 0x1_0000 && d[i..i + 2] == BE16(n)
  }

  predicate Number32(d: Bytes, i: nat, n: nat) {
    i + 4 <= |d| && n < 0x1_0000_0000 && d[i..i + 4] == BE32(n)
  }

  lemma FrameLayout(f: Frame)
    requires |f.payload| < 0x1_0000_0000
    ensures var d := f.ToBytes();
            |d| == 6 + |f.payload| && Number16(d, 0, f.msgType) && Number32(d, 2, |f.payload|) && d[6..] == f.payload
  {
    hide BE16, BE32;
  }

  lemma HelloLayout(m: Hello)
    ensures var d := m.ToBytes();
            |d| == 9 && d[0] == m.version && Number32(d, 1, m.nonce) && Number32(d, 5, m.maxPayloadSize)
  {
    hide BE32;
  }

  lemma SendLayout(m: Send)
    requires m.Bounded()
    ensures var d := m.ToBytes();
            && |d| == 68 + |m.payload| && d[..32] == m.toId && d[32..64] == m.preimage
            && Number32(d, 64, |m.payload|) && d[68..] == m.payload
  {
    hide BE32;
  }

  lemma DeliverLayout(m: Deliver)
    requires m.Bounded()
    ensures var d := m.ToBytes();
            && |d| == 40 + |m.payload| && Number32(d, 0, m.msgId) && d[4..36] == m.preimage
            && Number32(d, 36, |m.payload|) && d[40..] == m.payload
  {
    hide BE32;
  }

  lemma AckLayout(m: Ack)
    requires m.Bounded()
    ensures var d := m.ToBytes();
            |d| == 8 + |m.payload| && Number32(d, 0, m.msgId) && Number32(d, 4, |m.payload|) && d[8..] == m.payload
  {
    hide BE32;
  }

  lemma SendResultLayout(m: SendResult)
    requires m.Bounded()
    ensures var d := m.ToBytes();
            |d| == 5 + |m.payload| && d[0] == m.status && Number32(d, 1, |m.payload|) && d[5..] == m.payload
  {
    hide BE32;
  }

  /** Items of 32 bytes, one after the other. */
  lemma {:induction false} CommitsLayout(commits: seq<Bytes32>, i: nat)
    requires i < |commits|
    ensures CommitBytes(commits)[32 * i..32 * (i + 1)] == commits[i]
    decreases i
  {
    var d := CommitBytes(commits);
    assert d == commits[0] + CommitBytes(commits[1..]);
    if i > 0 {
      CommitsLayout(commits[1..], i - 1);
      assert d[32 * i..32 * (i + 1)] == CommitBytes(commits[1..])[32 * (i - 1)..32 * i];
    }
  }

  lemma UpdateCommitsLayout(m: UpdateCommits, i: nat)
    requires m.Bounded()
    ensures var d := m.ToBytes();
            && |d| == 2 + 32 * |m.commits| && Number16(d, 0, |m.commits|)
            && (i < |m.commits| ==> d[2 + 32 * i..34 + 32 * i] == m.commits[i])
  {
    if i < |m.commits| {
      CommitsLayout(m.commits, i);
    }
    hide BE16, CommitBytes;
    assert m.ToBytes()[2..] == CommitBytes(m.commits);
  }

  /** A list of responses: preimage, length and text of the first, then the others. */
  lemma ResponsesLayout(rs: seq<RecentResponse>)
    requires rs != [] && |rs[0].response| < 0x1_0000_0000
    ensures var d, n := ResponseBytes(rs), |rs[0].response|;
            && |d| >= 36 + n && d[..32] == rs[0].preimage && Number32(d, 32, n) && d[36..36 + n] == rs[0].response
            && d[36 + n..] == ResponseBytes(rs[1..])
  {
    hide BE32;
    assert ResponseBytes(rs) == OneResponseBytes(rs[0]) + ResponseBytes(rs[1..]);
  }

  lemma IAmLayout(m: IAm)
    requires m.Bounded()
    ensures var d, n := m.ToBytes(), |m.commits|;
            && |d| >= 100 + 32 * n && d[..32] == m.id52 && d[32..96] == m.signature
            && Number16(d, 96, n) && d[98..98 + 32 * n] == CommitBytes(m.commits)
            && Number16(d, 98 + 32 * n, |m.recent|) && d[100 + 32 * n..] == ResponseBytes(m.recent)
  {
    hide BE16, CommitBytes, ResponseBytes;
  }

  lemma HandshakeInitLayout(m: HandshakeInit)
    requires m.Bounded()
    ensures var d := m.ToBytes();
            && |d| == 67 + |m.relayUrl| && d[0] == 0x01 && d[1..33] == m.senderId && d[33..65] == m.preimageForPeer
            && Number16(d, 65, |m.relayUrl|) && d[67..] == m.relayUrl
  {
    hide BE16;
  }

  lemma HandshakeCompleteLayout(m: HandshakeComplete)
    requires m.Bounded()
    ensures var d := m.ToBytes();
            && |d| == 36 + |m.relayUrl| && d[0] == 0x02 && d[1] == m.status && d[2..34] == m.preimageForPeer
            && Number16(d, 34, |m.relayUrl|) && d[36..] == m.relayUrl
  {
    hide BE16;
  }

  lemma DeviceMessageLayout(m: DeviceMessage)
    requires m.Bounded()
    ensures var d, n := m.ToBytes(), |m.relayUrl|;
            && |d| == 8 + n + |m.content| && d[0] == 0x10 && d[1] == m.contentType
            && Number16(d, 2, n) && d[4..4 + n] == m.relayUrl
            && Number32(d, 4 + n, |m.content|) && d[8 + n..] == m.content
  {
    hide BE16, BE32;
  }

  lemma DeviceMessageResponseLayout(m: DeviceMessageResponse)
    requires m.Bounded()
    ensures var d, n := m.ToBytes(), |m.relayUrl|;
            && |d| == 40 + n + |m.content| && d[0] == 0x11 && d[1] == m.status && d[2..34] == m.nextPreimage
            && Number16(d, 34, n) && d[36..36 + n] == m.relayUrl
            && Number32(d, 36 + n, |m.content|) && d[40 + n..] == m.content
  {
    hide BE16, BE32;
  }

  /** The numbers of the messages that a relay handles, of its results, and of an answer to a handshake. */
  lemma Numbers()
    ensures MSG_I_AM == 2 && MSG_SEND == 3 && MSG_ACK == 5 && MSG_UPDATE_COMMITS == 8
    ensures SEND_OK == 0 && SEND_ERR_NOT_CONNECTED == 1 && SEND_ERR_INVALID_PREIMAGE == 2
    ensures SEND_ERR_TIMEOUT == 3 && SEND_ERR_DISCONNECTED == 4
    ensures HANDSHAKE_ACCEPTED == 0 && HANDSHAKE_REJECTED == 1 && MAX_FRAME == 1024 * 1024
  {}
}
