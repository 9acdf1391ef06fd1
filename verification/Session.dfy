/**
 * A session of the relay: one connection, the identity it has proved, and what each of its
 * frames does to the router. Whether a signature is good is a parameter. A commit on the
 * wire is a byte string; `read` names the commit it is the digest of.
 */
module Sessions {
  import opened Types
  import opened Wire
  import opened Frames
  import opened Router
  import Device

  /** Checks a signature: key, signed text, signature. A string that is no key at all has no good signature. */
  type Verifier = (Bytes32, Bytes, Bytes64) -> bool

  /**
   * What is left to do after a frame: write a SEND_RESULT, put a message into a device's
   * channel and wait for its answer, or complete the one-shot of an answered send.
   */
  datatype Work =
    | Nothing
    | Result(status: byte, payload: Bytes)
    | Hand(channel: nat, msgId: u32, preimage: Preimage, payload: Bytes)
    | Complete(call: nat, response: Bytes)

  /** Anything but `Proceed` ends the session. */
  datatype Reply = Proceed(work: Work) | Malformed(error: WireError) | BadSignature

  /** What a frame finds: the time, the delivery channels that are closed, and a name for the call of a SEND. */
  datatype Moment = Moment(now: nat, closed: set<nat>, call: nat)

  datatype Binding = Binding(tables: Tables, id52: Option<Id>)

  function SignedText(nonce: u32, id52: Bytes32): Bytes {
    BE32(nonce) + id52
  }

  function Each<A, B>(f: A -> B, s: seq<A>): (r: seq<B>)
    ensures |r| == |s| && forall i :: 0 <= i < |r| ==> r[i] == f(s[i])
  {
    seq(|s|, i requires 0 <= i < |s| => f(s[i]))
  }

  function Responses(recent: seq<RecentResponse>): Recent {
    Each((r: RecentResponse) => (Preimage(r.preimage), r.response), recent)
  }

  /** The fixed circumstances of a session. */
  datatype Setting = Setting(nonce: u32, channel: nat, verify: Verifier, read: Bytes32 -> Commit)

  predicate Proven(s: Setting, m: IAm) {
    s.verify(m.id52, SignedText(s.nonce, m.id52), m.signature)
  }

  function OnIAm(s: Setting, b: Binding, m: IAm, now: nat): (Binding, Reply) {
    if !Proven(s, m) then (b, BadSignature)
    else
      var tables := if b.id52.Some? then b.tables.Unregister(b.id52.value) else b.tables;
      (Binding(tables.Register(Id(m.id52), Each(s.read, m.commits), Responses(m.recent), s.channel, now), Some(Id(m.id52))),
       Proceed(Nothing))
  }

  function OnUpdate(s: Setting, b: Binding, m: UpdateCommits): Binding {
    if b.id52.None? then b else b.(tables := b.tables.AddCommits(b.id52.value, Each(s.read, m.commits)))
  }

  /** The lock-guarded blocks of `route_message` up to the point where it hands its message over. */
  function OnSend(b: Binding, m: Send, t: Moment): (Binding, Work) {
    var (looked, hit) := b.tables.TakeCached(Preimage(m.preimage), t.now);
    if hit.Some? then (b.(tables := looked), Result(SEND_OK, hit.value))
    else
      var (tables, admission) := looked.Admit(Id(m.toId), Sha256(Preimage(m.preimage)), t.closed);
      match admission
      case NotConnected => (b.(tables := tables), Result(SEND_ERR_NOT_CONNECTED, []))
      case InvalidPreimage => (b.(tables := tables), Result(SEND_ERR_INVALID_PREIMAGE, []))
      case Admitted(msgId, channel) =>
        (b.(tables := tables.InsertPending(msgId, Preimage(m.preimage), t.call)),
         Hand(channel, msgId, Preimage(m.preimage), m.payload))
  }

  function OnAck(b: Binding, m: Ack, t: Moment): (Binding, Work) {
    var (tables, entry) := b.tables.TakePending(m.msgId);
    if entry.None? then (b.(tables := tables), Nothing)
    else (b.(tables := tables.StoreResponse(entry.value.preimage, m.payload, t.now)), Complete(entry.value.call, m.payload))
  }

  function OnFrame(s: Setting, b: Binding, f: Frame, t: Moment): (Binding, Reply) {
    if f.msgType == MSG_I_AM then
      match IAm.FromBytes(f.payload)
      case Ok(m) => OnIAm(s, b, m, t.now)
      case Err(e) => (b, Malformed(e))
    else if f.msgType == MSG_SEND then
      match Send.FromBytes(f.payload)
      case Ok(m) => (OnSend(b, m, t).0, Proceed(OnSend(b, m, t).1))
      case Err(e) => (b, Malformed(e))
    else if f.msgType == MSG_ACK then
      match Ack.FromBytes(f.payload)
      case Ok(m) => (OnAck(b, m, t).0, Proceed(OnAck(b, m, t).1))
      case Err(e) => (b, Malformed(e))
    else if f.msgType == MSG_UPDATE_COMMITS then
      match UpdateCommits.FromBytes(f.payload)
      case Ok(m) => (OnUpdate(s, b, m), Proceed(Nothing))
      case Err(e) => (b, Malformed(e))
    else (b, Proceed(Nothing))
  }

  class Session {
    const router: Router
    const setting: Setting
    var id52: Option<Id>

    function Value(): Binding
      reads this, router
    {
      Binding(router.Value(), id52)
    }

    constructor (router: Router, setting: Setting)
      ensures this.router == router && this.setting == setting && id52 == None
    {
      this.router := router;
      this.setting := setting;
      id52 := None;
    }

    /** Gives up the old identity before taking the new one. */
    method HandleIAm(m: IAm, now: nat) returns (r: Reply)
      modifies this, router
      ensures (Value(), r) == OnIAm(setting, old(Value()), m, now)
    {
      if !setting.verify(m.id52, SignedText(setting.nonce, m.id52), m.signature) {
        return BadSignature;
      }
      if id52.Some? {
        router.Unregister(id52.value);
      }
      id52 := Some(Id(m.id52));
      router.Register(Id(m.id52), Each(setting.read, m.commits), Responses(m.recent), setting.channel, now);
      return Proceed(Nothing);
    }

    method HandleUpdateCommits(m: UpdateCommits)
      modifies router
      ensures Value() == OnUpdate(setting, old(Value()), m)
    {
      if id52.Some? {
        router.AddCommits(id52.value, Each(setting.read, m.commits));
      }
    }

    method HandleSend(m: Send, t: Moment) returns (work: Work)
      modifies router
      ensures (Value(), work) == OnSend(old(Value()), m, t)
    {
      var preimage := Preimage(m.preimage);
      var hit := router.TakeCached(preimage, t.now);
      if hit.Some? {
        return Result(SEND_OK, hit.value);
      }
      var admission := router.Admit(Id(m.toId), preimage, t.closed);
      match admission {
        case NotConnected => work := Result(SEND_ERR_NOT_CONNECTED, []);
        case InvalidPreimage => work := Result(SEND_ERR_INVALID_PREIMAGE, []);
        case Admitted(msgId, channel) =>
          router.InsertPending(msgId, preimage, t.call);
          work := Hand(channel, msgId, preimage, m.payload);
      }
    }

    /** Nobody asks whether the message of this id was delivered to this session. */
    method HandleAck(m: Ack, t: Moment) returns (work: Work)
      modifies router
      ensures (Value(), work) == OnAck(old(Value()), m, t)
    {
      var entry := router.TakePending(m.msgId);
      if entry.None? {
        return Nothing;
      }
      router.StoreResponse(entry.value.preimage, m.payload, t.now);
      return Complete(entry.value.call, m.payload);
    }

    method HandleFrame(f: Frame, t: Moment) returns (r: Reply)
      modifies this, router
      ensures (Value(), r) == OnFrame(setting, old(Value()), f, t)
    {
      hide IAm.FromBytes, Send.FromBytes, Ack.FromBytes, UpdateCommits.FromBytes, OnIAm, OnSend, OnAck, OnUpdate;
      if f.msgType == MSG_I_AM {
        var m := IAm.FromBytes(f.payload);
        if m.Err? {
          return Malformed(m.error);
        }
        r := HandleIAm(m.value, t.now);
      } else if f.msgType == MSG_SEND {
        var m := Send.FromBytes(f.payload);
        if m.Err? {
          return Malformed(m.error);
        }
        var work := HandleSend(m.value, t);
        r := Proceed(work);
      } else if f.msgType == MSG_ACK {
        var m := Ack.FromBytes(f.payload);
        if m.Err? {
          return Malformed(m.error);
        }
        var work := HandleAck(m.value, t);
        r := Proceed(work);
      } else if f.msgType == MSG_UPDATE_COMMITS {
        var m := UpdateCommits.FromBytes(f.payload);
        if m.Err? {
          return Malformed(m.error);
        }
        HandleUpdateCommits(m.value);
        r := Proceed(Nothing);
      } else {
        r := Proceed(Nothing);
      }
    }
  }

  // ---------------------------------------------------------------------------
  // What an I_AM must prove, and what it does
  // ---------------------------------------------------------------------------

  /** The text that the owner of `id52` signs in a session with this nonce: the nonce in four bytes, then the id. */
  predicate Challenge(text: Bytes, nonce: u32, id52: Bytes32) {
    |text| == 36 && U32At(text, 0) == nonce && text[4..] == id52
  }

  lemma TheChallenge(nonce: u32, id52: Bytes32, text: Bytes)
    ensures Challenge(text, nonce, id52) <==> text == SignedText(nonce, id52)
  {
    hide BE32, U32At;
    AtBE32(text, 0, nonce);
    AtConcat(text, 0, BE32(nonce), id52);
    if Challenge(text, nonce, id52) {
      assert text[0..4] == BE32(nonce) && text == text[0..4] + text[4..];
    }
    if text == SignedText(nonce, id52) {
      assert text[4..] == id52 && text[0..4] == BE32(nonce);
    }
  }

  /** An I_AM is accepted exactly if its signature is good over the challenge of this session. */
  lemma ProvenExactly(s: Setting, m: IAm)
    ensures Proven(s, m) <==>
            exists text :: Challenge(text, s.nonce, m.id52) && s.verify(m.id52, text, m.signature)
  {
    hide Challenge;
    forall text { TheChallenge(s.nonce, m.id52, text); }
    assert Challenge(SignedText(s.nonce, m.id52), s.nonce, m.id52);
  }

  /** A signature that is good over one text only opens no session with another nonce. */
  lemma NoReplay(s1: Setting, s2: Setting, b1: Binding, b2: Binding, m: IAm, now1: nat, now2: nat)
    requires s2.verify == s1.verify && s2.nonce != s1.nonce
    requires forall t1, t2 :: s1.verify(m.id52, t1, m.signature) && s1.verify(m.id52, t2, m.signature) ==> t1 == t2
    requires OnIAm(s1, b1, m, now1).1.Proceed?
    ensures OnIAm(s2, b2, m, now2) == (b2, BadSignature)
  {
    ProvenExactly(s1, m);
    ProvenExactly(s2, m);
    hide Proven, SignedText, U32At;
  }

  /**
   * An accepted I_AM gives its identity an entry with exactly the commits it lists and this session's channel,
   * takes the entry of the session's old identity away, and leaves other entries, waiting sends and the
   * next id alone.
   */
  lemma IAmRegisters(s: Setting, b: Binding, m: IAm, now: nat, id: Id)
    requires OnIAm(s, b, m, now).1.Proceed?
    ensures OnIAm(s, b, m, now).1 == Proceed(Nothing)
    ensures var b' := OnIAm(s, b, m, now).0; var t, t' := b.tables, b'.tables;
            && b'.id52 == Some(Id(m.id52)) && t'.pending == t.pending && t'.nextId == t.nextId
            && (id == Id(m.id52) ==>
                  && id in t'.devices && t'.devices[id].channel == s.channel
                  && forall c :: c in t'.devices[id].commits <==>
                       exists i :: 0 <= i < |m.commits| && c == s.read(m.commits[i]))
            && (id != Id(m.id52) ==>
                  && (id in t'.devices <==> id in t.devices && b.id52 != Some(id))
                  && (id in t'.devices ==> t'.devices[id] == t.devices[id]))
  {
    hide SignedText, Load, Responses;
  }

  lemma {:induction false} LoadsNone(cache: map<Preimage, CachedResponse>, recent: Recent, expiresAt: nat, p: Preimage)
    requires forall r :: r in recent ==> r.0 != p
    ensures var cache' := Load(cache, recent, expiresAt);
            (p in cache' <==> p in cache) && (p in cache ==> cache'[p] == cache[p])
    decreases |recent|
  {
    if recent != [] {
      LoadsNone(cache[recent[0].0 := CachedResponse(recent[0].1, expiresAt)], recent[1..], expiresAt, p);
    }
  }

  /** Of several responses with one preimage, the last stays. */
  lemma {:induction false} LoadsLast(cache: map<Preimage, CachedResponse>, recent: Recent, expiresAt: nat, p: Preimage, i: nat)
    requires i < |recent| && recent[i].0 == p && forall j :: i < j < |recent| ==> recent[j].0 != p
    ensures var cache' := Load(cache, recent, expiresAt);
            p in cache' && cache'[p] == CachedResponse(recent[i].1, expiresAt)
    decreases |recent|
  {
    var rest, cache1 := recent[1..], cache[recent[0].0 := CachedResponse(recent[0].1, expiresAt)];
    assert forall j :: 0 <= j < |rest| ==> rest[j] == recent[j + 1];
    if i == 0 {
      LoadsNone(cache1, rest, expiresAt, p);
    } else {
      LoadsLast(cache1, rest, expiresAt, p, i - 1);
    }
  }

  /** The last of the responses with this preimage. */
  predicate LastOf(recent: seq<RecentResponse>, p: Preimage, i: nat) {
    i < |recent| && recent[i].preimage == p.bytes && forall j :: i < j < |recent| ==> recent[j].preimage != p.bytes
  }

  /**
   * Each response that an accepted I_AM brings answers a send with its preimage for the next five minutes, the
   * last one if there are several; other preimages are answered as before.
   */
  lemma IAmLoads(s: Setting, b: Binding, m: IAm, now: nat, p: Preimage, later: nat)
    requires OnIAm(s, b, m, now).1.Proceed?
    ensures var t, t' := b.tables, OnIAm(s, b, m, now).0.tables;
            && (forall i: nat :: LastOf(m.recent, p, i) ==>
                  t'.TakeCached(p, later).1 ==
                    if later < now + 5 * 60 * 1_000_000_000 then Some(m.recent[i].response) else None)
            && ((forall i :: 0 <= i < |m.recent| ==> m.recent[i].preimage != p.bytes) ==>
                  t'.TakeCached(p, later).1 == t.TakeCached(p, later).1)
  {
    var recent := Responses(m.recent);
    assert forall i :: 0 <= i < |m.recent| ==> recent[i] == (Preimage(m.recent[i].preimage), m.recent[i].response);
    hide SignedText, Load, Responses, SetOf, Each;
    forall i: nat | LastOf(m.recent, p, i)
      ensures OnIAm(s, b, m, now).0.tables.TakeCached(p, later).1 ==
                if later < now + 5 * 60 * 1_000_000_000 then Some(m.recent[i].response) else None
    {
      LoadsLast(b.tables.cache, recent, now + CACHE_TTL, p, i);
    }
    if forall i :: 0 <= i < |m.recent| ==> m.recent[i].preimage != p.bytes {
      LoadsNone(b.tables.cache, recent, now + CACHE_TTL, p);
    }
  }

  // ---------------------------------------------------------------------------
  // Which frames end a session
  // ---------------------------------------------------------------------------

  /**
   * A session goes on exactly after a well-formed frame of the types 2, 3, 5 and 8, an I_AM's being
   * signed as it must, and after any frame of another type; a frame that ends it changes nothing.
   */
  lemma GoesOnExactly(s: Setting, b: Binding, f: Frame, t: Moment)
    ensures OnFrame(s, b, f, t).1.Proceed? <==>
            match f.msgType
            case 2 => IAm.FromBytes(f.payload).Ok? && Proven(s, IAm.FromBytes(f.payload).value)
            case 3 => Send.FromBytes(f.payload).Ok?
            case 5 => Ack.FromBytes(f.payload).Ok?
            case 8 => UpdateCommits.FromBytes(f.payload).Ok?
            case _ => true
    ensures !OnFrame(s, b, f, t).1.Proceed? ==> OnFrame(s, b, f, t).0 == b
  {
    hide IAm.FromBytes, Send.FromBytes, Ack.FromBytes, UpdateCommits.FromBytes, Proven, OnSend, OnAck, OnUpdate;
  }

  // ---------------------------------------------------------------------------
  // How many commits a node can register
  // ---------------------------------------------------------------------------

  const MAX_COMMITS := 32764

  lemma IAmSize(m: IAm)
    requires m.recent == []
    ensures |m.ToBytes()| == 100 + 32 * |m.commits|
  {
    hide BE16, CommitBytes;
  }

  /** These bytes read as a frame that makes the session's entry for `id` list exactly these commits. */
  predicate Lists(s: Setting, b: Binding, d: Bytes, t: Moment, id: Id, commits: set<Commit>) {
    match Frame.FromBytes(d)
    case Err(_) => false
    case Ok(f) =>
      var (b', reply) := OnFrame(s, b, f, t);
      && reply == Proceed(Nothing) && b'.id52 == Some(id)
      && id in b'.tables.devices && b'.tables.devices[id] == DeviceEntry(commits, s.channel)
  }

  /**
   * The I_AM frame of a node, with a good signature, makes the relay accept exactly the images of
   * the node's live preimages if and only if these are at most 32764; otherwise the frame is
   * refused. Its payload is assumed to have a length that fits the frame's 32-bit field.
   */
  lemma RegistrationBound(s: Setting, b: Binding, r: Device.Records, id: Id, signature: Bytes64, commits: seq<Commit>,
                          digest: Commit -> Bytes32, rest: Bytes, t: Moment)
    requires forall c :: c in commits <==> c.preimage in r.Live()
    requires forall c :: s.read(digest(c)) == c
    requires exists text :: Challenge(text, s.nonce, id.bytes) && s.verify(id.bytes, text, signature)
    requires 100 + 32 * |commits| < U32_SIZE
    ensures var d := Frame(MSG_I_AM, IAm(id.bytes, signature, Each(digest, commits), []).ToBytes()).ToBytes() + rest;
            && (Lists(s, b, d, t, id, SetOf(commits)) <==> |commits| <= MAX_COMMITS)
            && (|commits| > MAX_COMMITS ==> Frame.FromBytes(d) == Err(FrameTooLarge))
            && forall p :: Sha256(p) in SetOf(commits) <==> p in r.Live()
  {
    var m := IAm(id.bytes, signature, Each(digest, commits), []);
    var f := Frame(MSG_I_AM, m.ToBytes());
    var d := f.ToBytes() + rest;
    IAmSize(m);
    ProvenExactly(s, m);
    hide IAm.ToBytes, IAm.FromBytes, BE16, BE32, U16At, U32At, Device.Records.Live;
    if |commits| <= MAX_COMMITS {
      FrameExact(d, f);
      IAmExact(m.ToBytes(), m);
      assert Each(s.read, m.commits) == commits;
    } else {
      TooLarge(d, f, rest);
    }
  }

  lemma TooLarge(d: Bytes, f: Frame, rest: Bytes)
    requires d == f.ToBytes() + rest && MAX_FRAME < |f.payload| < U32_SIZE
    ensures Frame.FromBytes(d) == Err(FrameTooLarge)
  {
    hide BE16, BE32, U16At, U32At;
    AtConcat(d, 0, f.ToBytes(), rest);
    Layout3(d, 0, BE16(f.msgType), BE32(|f.payload|), f.payload);
    AtBE32(d, 2, |f.payload|);
  }
}
