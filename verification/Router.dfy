/**
 * The relay's router: four maps and a counter, each behind its own lock. Every
 * lock-guarded block of the program is one method here, proved equal to one function on the
 * value of the tables; the interleavings of these blocks are the business of `Relay`.
 *
 * A delivery channel is named by a number, and so is a one-shot response channel, by the
 * call that waits on it. The clock is a parameter, in nanoseconds.
 */
module Router {
  import opened Types
  import Wire

  const CACHE_TTL: nat := 300_000_000_000

  datatype CachedResponse = CachedResponse(response: Bytes, expiresAt: nat)

  datatype DeviceEntry = DeviceEntry(commits: set<Commit>, channel: nat)

  datatype PendingSend = PendingSend(preimage: Preimage, call: nat)

  datatype Admission = NotConnected | InvalidPreimage | Admitted(msgId: u32, channel: nat)

  type Recent = seq<(Preimage, Bytes)>

  function SetOf(commits: seq<Commit>): set<Commit> {
    set c | c in commits
  }

  function NextId(id: u32): u32 {
    (id + 1) % Wire.U32_SIZE
  }

  function Load(cache: map<Preimage, CachedResponse>, recent: Recent, expiresAt: nat): map<Preimage, CachedResponse>
    decreases |recent|
  {
    if recent == [] then cache
    else Load(cache[recent[0].0 := CachedResponse(recent[0].1, expiresAt)], recent[1..], expiresAt)
  }

  datatype Tables = Tables(
    devices: map<Id, DeviceEntry>,
    cache: map<Preimage, CachedResponse>,
    pending: map<u32, PendingSend>,
    nextId: u32)
  {
    function Register(id: Id, commits: seq<Commit>, recent: Recent, channel: nat, now: nat): Tables {
      this.(devices := devices[id := DeviceEntry(SetOf(commits), channel)],
            cache := Load(cache, recent, now + CACHE_TTL))
    }

    function Unregister(id: Id): Tables {
      this.(devices := devices - {id})
    }

    function AddCommits(id: Id, commits: seq<Commit>): Tables {
      if id !in devices then this
      else this.(devices := devices[id := devices[id].(commits := devices[id].commits + SetOf(commits))])
    }

    function TakePending(msgId: u32): (Tables, Option<PendingSend>) {
      (this.(pending := pending - {msgId}),
       if msgId in pending then Some(pending[msgId]) else None)
    }

    function StoreResponse(preimage: Preimage, response: Bytes, now: nat): Tables {
      this.(cache := cache[preimage := CachedResponse(response, now + CACHE_TTL)])
    }

    /** A cached response is removed whether or not it is still fresh. */
    function TakeCached(preimage: Preimage, now: nat): (Tables, Option<Bytes>) {
      (this.(cache := cache - {preimage}),
       if preimage in cache && cache[preimage].expiresAt > now then Some(cache[preimage].response) else None)
    }

    function Admit(to: Id, commit: Commit, closed: set<nat>): (Tables, Admission) {
      if to !in devices then (this, NotConnected)
      else if devices[to].channel in closed then (this.(devices := devices - {to}), NotConnected)
      else if commit !in devices[to].commits then (this, InvalidPreimage)
      else
        (this.(devices := devices[to := devices[to].(commits := devices[to].commits - {commit})],
               nextId := NextId(nextId)),
         Admitted(nextId, devices[to].channel))
    }

    function InsertPending(msgId: u32, preimage: Preimage, call: nat): Tables {
      this.(pending := pending[msgId := PendingSend(preimage, call)])
    }

    function DropPending(msgId: u32): Tables {
      this.(pending := pending - {msgId})
    }

    function Cleanup(now: nat): Tables {
      this.(cache := map p | p in cache && cache[p].expiresAt > now :: cache[p])
    }
  }

  class Router {
    var devices: map<Id, DeviceEntry>
    var responseCache: map<Preimage, CachedResponse>
    var pending: map<u32, PendingSend>
    var nextMsgId: u32

    function Value(): Tables
      reads this
    {
      Tables(devices, responseCache, pending, nextMsgId)
    }

    constructor ()
      ensures Value() == Tables(map[], map[], map[], 1)
    {
      devices, responseCache, pending, nextMsgId := map[], map[], map[], 1;
    }

    /** Holds the device lock throughout, and the cache lock while loading. */
    method Register(id: Id, commits: seq<Commit>, recent: Recent, channel: nat, now: nat)
      modifies this
      ensures Value() == old(Value()).Register(id, commits, recent, channel, now)
    {
      devices := devices[id := DeviceEntry(SetOf(commits), channel)];
      ghost var loaded := Load(responseCache, recent, now + CACHE_TTL);
      for i := 0 to |recent|
        invariant devices == old(devices)[id := DeviceEntry(SetOf(commits), channel)]
        invariant pending == old(pending) && nextMsgId == old(nextMsgId)
        invariant Load(responseCache, recent[i..], now + CACHE_TTL) == loaded
      {
        assert recent[i..][1..] == recent[i + 1..];
        responseCache := responseCache[recent[i].0 := CachedResponse(recent[i].1, now + CACHE_TTL)];
      }
    }

    method Unregister(id: Id)
      modifies this
      ensures Value() == old(Value()).Unregister(id)
    {
      devices := devices - {id};
    }

    method AddCommits(id: Id, commits: seq<Commit>)
      modifies this
      ensures Value() == old(Value()).AddCommits(id, commits)
    {
      if id in devices {
        var entry := devices[id];
        for i := 0 to |commits|
          invariant entry == old(devices)[id].(commits := old(devices)[id].commits + SetOf(commits[..i]))
        {
          assert commits[..i + 1] == commits[..i] + [commits[i]];
          entry := entry.(commits := entry.commits + {commits[i]});
        }
        assert commits[..|commits|] == commits;
        devices := devices[id := entry];
      }
    }

    method TakePending(msgId: u32) returns (entry: Option<PendingSend>)
      modifies this
      ensures (Value(), entry) == old(Value()).TakePending(msgId)
    {
      entry := if msgId in pending then Some(pending[msgId]) else None;
      pending := pending - {msgId};
    }

    method StoreResponse(preimage: Preimage, response: Bytes, now: nat)
      modifies this
      ensures Value() == old(Value()).StoreResponse(preimage, response, now)
    {
      responseCache := responseCache[preimage := CachedResponse(response, now + CACHE_TTL)];
    }

    method TakeCached(preimage: Preimage, now: nat) returns (hit: Option<Bytes>)
      modifies this
      ensures (Value(), hit) == old(Value()).TakeCached(preimage, now)
    {
      hit := None;
      assert preimage !in responseCache ==> responseCache - {preimage} == responseCache;
      if preimage in responseCache {
        var cached := responseCache[preimage];
        responseCache := responseCache - {preimage};
        if cached.expiresAt > now {
          hit := Some(cached.response);
        }
      }
    }

    /** Holds the device lock throughout, and the counter's lock while taking an id. */
    method Admit(to: Id, preimage: Preimage, closed: set<nat>) returns (admission: Admission)
      modifies this
      ensures (Value(), admission) == old(Value()).Admit(to, Sha256(preimage), closed)
    {
      var commit := Sha256(preimage);
      if to !in devices {
        return NotConnected;
      }
      var device := devices[to];
      if device.channel in closed {
        devices := devices - {to};
        return NotConnected;
      }
      if commit !in device.commits {
        return InvalidPreimage;
      }
      devices := devices[to := device.(commits := device.commits - {commit})];
      var current := nextMsgId;
      nextMsgId := NextId(nextMsgId);
      return Admitted(current, device.channel);
    }

    method InsertPending(msgId: u32, preimage: Preimage, call: nat)
      modifies this
      ensures Value() == old(Value()).InsertPending(msgId, preimage, call)
    {
      pending := pending[msgId := PendingSend(preimage, call)];
    }

    method DropPending(msgId: u32)
      modifies this
      ensures Value() == old(Value()).DropPending(msgId)
    {
      pending := pending - {msgId};
    }

    method CleanupCache(now: nat)
      modifies this
      ensures Value() == old(Value()).Cleanup(now)
    {
      responseCache := map p | p in responseCache && responseCache[p].expiresAt > now :: responseCache[p];
    }
  }
}
