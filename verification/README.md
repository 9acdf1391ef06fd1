# Bhumi: the preimage-capability protocol, modelled and proved

Bhumi connects nodes through a relay. A device lists with the relay the SHA-256 images
("commits") of secret 32-byte preimages that it has handed out; a sender who shows such a
preimage may send one message. The device answers, and its answer ends with a fresh
preimage for the sender's next message. The relay caches the answer, so that a sender who
lost it can send again with the same preimage. Devices and clients are paired by invite
tokens.

This project models that protocol in Dafny and proves what it is meant to guarantee, over
every run; `dafny verify dfyconfig.toml` checks it. It has five layers.

- **Wire format** (`Wire`, `Utf8`, `Frames`, `Messages`, `Layouts`). Printers and parsers of all messages as functions,
  the buffer loops of the program as methods proved against them, frames on a byte stream, where each
  field stands, counted in bytes, and which byte strings are texts.
- **Relay** (`Router`, `Relay`, `Sessions`, `Identities`, `Locks`). `Router` is the class with its four
  maps and its counter; every lock-guarded block is a method proved equal to a function on
  the value of the tables. `Relay` is the concurrent machine made of these blocks: any number of
  `route_message` and `handle_ack` runs, each with its program counter, interleaved with
  registrations, cleanups, the clock and the ends of sessions. `Rendezvous`, `Provenance`, `Capacity`,
  `Outcomes` and `ResponseCache` prove what holds in every run of it, `Schedules` what can happen in it.
  `Identities` adds any number of sessions, each with its identity.
- **Node** (`Device`, `Nodes`, `Answers`, `History`). `DeviceState` and `Node` are classes that update their
  fields like the program does. `Answers` tells what peers and the relay see of it. `History` is a node over its whole life, driven by arbitrary messages.
  `Ownership` and `Authority` prove what holds in every run of it, even with a relay that lies.
- **Composition** (`System`, `Replies`, `Sync`, `Links`, `Generations`, `Recovery`, `Finality`, `Retries`,
  `Listing`, `Staleness`, `Refusal`). One
  client, one relay and one device, with connections that carry whole frames in order and
  break at any moment, retries, timeouts, reconnects, cache expiry, and frames of dead
  connections that still arrive.
- **Pairing** (`Pairing`). Calls of `pair` by one node with another's token, among arbitrary other
  activity of both nodes and of anybody who has a token of either; a pairing that ends in agreement is a
  starting state of the composition.

## Assumptions

- SHA-256 is injective: a commit is represented by the preimage it is the image of.
- Random bytes are new: a node never draws a preimage that it has drawn before, and a call of `pair` none that
  somebody has already told the other node in its name.
- `pair` has its node to itself, as the program's exclusive borrow of the node ensures: calls with one peer
  come one after the other.
- Signature checking is a parameter, and so are JSON parsing and serialisation. Where the end of a
  response matters, the parser is assumed to accept a valid text followed by more bytes exactly
  when these are all JSON white space.
- The clock is monotone. It counts nanoseconds, and the cache's time to live is 300 s.
- A timer of `route_message` may fire at any moment of the wait.
- Message ids are 32-bit and wrap around. What depends on their being unique is proved while at
  most 2^32 of them have been given out (`m.serials <= Wire.U32_SIZE`, or `Few` in the composition).
- Lengths are 64-bit and do not overflow; the narrowing casts to `u16` and `u32` are written out.

## Results worth knowing

- A client is never more than one message behind its device, never goes back, and a message that
  reaches the device is never turned away as unknown (`Generations`).
- If a client is behind, the response it needs is still somewhere, unless one of seven kinds of step
  has lost it (`Recovery.Loss`). A loss is final: from then on the client stays behind, and the device
  handles no command of its any more (`Finality`). While the relay caches the response, a send that is
  looked up in time and whose result is awaited brings the client up to date, exactly when the new
  preimage is not 32 bytes of white space (`Retries`).
- The commit of a preimage that a client learns from a response is listed before the response is there.
  The first send with it can be refused as invalid all the same, if the relay handles an I_AM last that
  the device said before it issued the preimage. For any send under the live preimage, this and an earlier
  admission since the last listing are the only ways (`Staleness.SendExactly`). `Refusal.FirstSendRefused`
  gives a refused first send from every starting state, and `Staleness.NeverRefused` excludes it if no I_AM
  of a connection that was left is handled.
- `pair` can return successfully without agreement. Each of these is enough, from every starting state:
  another handshake redeems the token first, and its HANDSHAKE_COMPLETE comes out of the relay's cache, which
  looks at the preimage only (`Pairing.SharedTokenDisagrees`); somebody redeems another invite of the same
  inviter in the acceptor's name, since `sender_id52` is not authenticated (`Pairing.SpoofedSenderDisagrees`);
  another session acknowledges the handshake, since the relay does not check who does
  (`Pairing.ForgedReplyDisagrees`); the call repeats an earlier one whose handshake had redeemed the token
  (`Pairing.CalledTwiceDisagrees`); the inviter itself pairs with the acceptor meanwhile
  (`Pairing.ReversedDisagrees`). `Pairing.PairingAgreement` gives the exact condition, and
  `Pairing.UnsharedTokenAgrees` the guarantee if none of these five happens.
- The status of a send tells its sender what became of the message: with 1, 2 and 4 it never reached the device's
  channel, with 3 it did (`Outcomes`).
- An invite that a command creates is not listed with the relay until the node connects again: the frames that
  answer a command list the renewed preimage only (`Answers.KnownAnswered`), those that answer a handshake all that
  it makes live (`Answers.HandshakeAnswered`).
- A session that has not signed for an identity cannot create, redirect or extend the identity's entry,
  but any session that shows a listed preimage uses up its commit, and one that sends to an entry whose
  channel is closed removes the entry (`Identities.UnprovedSession`).
- The `Ok(Err(_))` arm of `route_message` is dead code until message ids repeat
  (`Rendezvous.ClosedArmUnreachable`).
- Where the documents under `docs/` and the code differ, the model follows the code: DELIVER carries the
  preimage; a binding is not forgotten on disconnect, since a session ends without running its cleanup,
  and stale entries are noticed by their closed channel; a node sends no recent responses with its I_AM;
  the acceptor of an invite does not list `my_preimage` before it runs and says I_AM.

## Model

| member | source | states |
|---|---|---|
| Wire.HelloExact | bhumi-proto/src/lib.rs:51-70 | HELLO parses to a message exactly when the message's printed bytes begin the input |
| Wire.IAmExact | bhumi-proto/src/lib.rs:97-166 | I_AM parses to a message exactly when its lists and responses fit their count and length fields and its printed bytes begin the input; nested variable-length lists included |
| Wire.SendExact | bhumi-proto/src/lib.rs:178-204 | the same for SEND |
| Wire.UpdateCommitsExact | bhumi-proto/src/lib.rs:213-243 | the same for UPDATE_COMMITS |
| Wire.DeliverExact | bhumi-proto/src/lib.rs:254-280 | the same for DELIVER |
| Wire.AckExact | bhumi-proto/src/lib.rs:290-314 | the same for ACK |
| Wire.SendResultExact | bhumi-proto/src/lib.rs:332-357 | the same for SEND_RESULT |
| Wire.HandshakeInitExact | bhumi-proto/src/lib.rs:371-404 | the same for HANDSHAKE_INIT, whose URL must be UTF-8 |
| Wire.HandshakeCompleteExact | bhumi-proto/src/lib.rs:415-448 | the same for HANDSHAKE_COMPLETE |
| Wire.DeviceMessageExact | bhumi-proto/src/lib.rs:470-516 | the same for MESSAGE |
| Wire.DeviceMessageResponseExact | bhumi-proto/src/lib.rs:528-576 | the same for MESSAGE_RESPONSE |
| Messages.EveryRelayMessageExact | bhumi-proto/src/lib.rs:51-357 | one exactness statement for all seven relay messages |
| Messages.EveryDeviceMessageExact | bhumi-proto/src/lib.rs:371-576 | and for all four device messages |
| Messages.EveryRelayMessageWellParsed | bhumi-proto/src/lib.rs:51-357 | each of the seven survives the round trip if and only if its fields fit their widths, no printed message begins another one of its type, and bytes after a message never change how it parses |
| Messages.EveryDeviceMessageWellParsed | bhumi-proto/src/lib.rs:371-576 | the same for the four device messages |
| Utf8.ValidExactly | bhumi-proto/src/lib.rs:399-400 | the byte strings taken for texts are exactly the UTF-8 encodings of sequences of Unicode scalar values |
| Layouts.BigEndian16 | bhumi-proto/src/lib.rs:58-60 | numbers are written most significant byte first: the order of two numbers is that of their bytes |
| Layouts.BigEndian32 | bhumi-proto/src/lib.rs:58-60 | the same for numbers of four bytes |
| Layouts.FrameLayout | bhumi-proto/src/lib.rs:628-634 | the type in bytes 0 and 1, the length in bytes 2 to 5, then the payload |
| Layouts.HelloLayout | bhumi-proto/src/lib.rs:51-58 | the byte positions of all fields of HELLO |
| Layouts.UpdateCommitsLayout | bhumi-proto/src/lib.rs:213-221 | the byte positions of count and commits in UPDATE_COMMITS |
| Layouts.DeliverLayout | bhumi-proto/src/lib.rs:254-262 | the byte positions of all fields of DELIVER |
| Layouts.AckLayout | bhumi-proto/src/lib.rs:290-297 | the byte positions of all fields of ACK |
| Layouts.SendResultLayout | bhumi-proto/src/lib.rs:332-339 | the byte positions of all fields of SEND_RESULT |
| Layouts.DeviceMessageLayout | bhumi-proto/src/lib.rs:470-484 | tag 16 and the byte positions of all fields of MESSAGE |
| Layouts.DeviceMessageResponseLayout | bhumi-proto/src/lib.rs:528-544 | tag 17 and the byte positions of all fields of MESSAGE_RESPONSE |
| Layouts.IAmLayout | bhumi-proto/src/lib.rs:97-121 | the byte positions of all fields of I_AM |
| Layouts.SendLayout | bhumi-proto/src/lib.rs:178-185 | the byte positions of all fields of SEND |
| Layouts.HandshakeInitLayout | bhumi-proto/src/lib.rs:371-380 | tag 1 and the byte positions of all fields of HANDSHAKE_INIT |
| Layouts.HandshakeCompleteLayout | bhumi-proto/src/lib.rs:415-424 | tag 2 and the byte positions of all fields of HANDSHAKE_COMPLETE |
| Layouts.Numbers | bhumi-proto/src/lib.rs:8-32 | the numbers of frame types, statuses and answers, and the greatest frame |
| Messages.IAmToBytes | bhumi-proto/src/lib.rs:97-121 | the printer's buffer loops append exactly the printed I_AM |
| Messages.IAmFromBytes | bhumi-proto/src/lib.rs:123-166 | the parser's loops, with their running position, give exactly the parsed I_AM or its first error, and never index out of range |
| Messages.UpdateCommitsToBytes | bhumi-proto/src/lib.rs:213-221 | the printer's loop appends exactly the printed UPDATE_COMMITS |
| Messages.UpdateCommitsFromBytes | bhumi-proto/src/lib.rs:223-243 | the parser's loop gives exactly the parsed UPDATE_COMMITS or its first error |
| Frames.FrameExact | bhumi-proto/src/lib.rs:628-653 | a frame is read exactly when its payload is at most 1 MiB and its printed bytes begin the input |
| Frames.StreamRoundTrip | bhumi-proto/src/lib.rs:628-653 | reading the concatenation of any written frames returns exactly these frames, then the end of the stream |
| Frames.TruncatedStream | bhumi-proto/src/lib.rs:637-653 | any prefix of such a stream reads as the frames wholly inside it, then the end of the stream, never another frame or error |
| Frames.ReadAllSound | bhumi-proto/src/lib.rs:637-653 | on any bytes whatever, the frames read are within bounds and their printed stream begins the input |
| Frames.Writer.WriteFrame | bhumi-proto/src/lib.rs:628-634 | writing appends the printed frame |
| Frames.Reader.ReadFrame | bhumi-proto/src/lib.rs:637-653 | reading yields what the remaining bytes parse to and moves past exactly that frame |
| Frames.Reader.ReadFrames | bhumi-proto/src/lib.rs:637-653 | reading until an error, with the remaining bytes as measure, yields exactly the frames of the stream |
| Router.Router.constructor | bhumi-relay/src/router.rs:53-62 | empty tables, and 1 as the first message id |
| Router.Router.Register | bhumi-relay/src/router.rs:64-95 | replaces the device's entry and loads the recent responses in order, each with a new expiry |
| Router.Router.Unregister | bhumi-relay/src/router.rs:98-105 | removes the entry by id, whoever owns it |
| Router.Router.AddCommits | bhumi-relay/src/router.rs:108-115 | adds the commits if the device has an entry |
| Router.Router.TakePending | bhumi-relay/src/router.rs:118-123 | first block of `handle_ack` |
| Router.Router.StoreResponse | bhumi-relay/src/router.rs:125-133 | second block of `handle_ack` |
| Router.Router.TakeCached | bhumi-relay/src/router.rs:147-159 | cache check: removes the entry in any case, a hit only if it is fresh |
| Router.Router.Admit | bhumi-relay/src/router.rs:161-215 | admission: no entry, closed channel (and the entry goes), commit not listed, or commit used up and a message id taken |
| Router.Router.InsertPending | bhumi-relay/src/router.rs:217-224 | the pending entry under the new id |
| Router.Router.DropPending | bhumi-relay/src/router.rs:229-237 | its removal when the message could not be enqueued |
| Router.Router.CleanupCache | bhumi-relay/src/router.rs:265-269 | keeps exactly the entries that have not expired |
| Relay.CallsPersist | bhumi-relay/src/router.rs:141-262 | what a `route_message` run is about never changes, and only its own admission gives it a ticket |
| Relay.PcFrame | bhumi-relay/src/router.rs:141-262 | program counters move only by the run's own steps, and never back from the wait |
| Rendezvous.Step | bhumi-relay/src/router.rs:117-261 | every step keeps the custody of one-shot senders: each sender that is alive is in `pending` under its own id and preimage or in one `handle_ack` run |
| Rendezvous.ExactlyOnePlace | bhumi-relay/src/router.rs:117-261 | in every reachable state the sender of each call that has made its channel is in exactly one place: `pending`, one `handle_ack` run, or used up |
| Rendezvous.ClosedArmUnreachable | bhumi-relay/src/router.rs:247-253 | before ids repeat, a waiting call never finds its channel closed |
| Rendezvous.CompletedOnce | bhumi-relay/src/router.rs:136-137 | no step changes a response that a call has got |
| Rendezvous.DuplicateAckIgnored | bhumi-relay/src/router.rs:118-138 | an acknowledgement of a call that is answered, or being answered, changes nothing but its own run |
| Rendezvous.LateAckFillsCache | bhumi-relay/src/router.rs:118-138 | after a timeout the first acknowledgement still fills the cache, under the call's own preimage |
| Outcomes.HandedOverExactly | bhumi-relay/src/router.rs:226-261 | in every run, a send's message has gone into the device's channel exactly if the send waits, or was admitted and has returned with another status than 4 |
| Outcomes.ResultsExplained | bhumi-relay/src/router.rs:141-261 | in every run, a result is a response, status 1 or 2 without an admission, or 3 or 4 after one, and failures carry no payload |
| Outcomes.ReturnsBy | bhumi-relay/src/router.rs:141-261 | which step ends a send with which status: 0 a cached or received response, 1 and 2 the admission, 3 the timer, 4 a closed channel or one-shot |
| Outcomes.QueuesBounded | bhumi-relay/src/session.rs:35-36 | in every run no channel holds more than 32 messages |
| Outcomes.ClosedForGood | bhumi-relay/src/session.rs:30-63 | in every run a closed channel stays closed and holds nothing |
| Capacity.CapacityConserved | bhumi-relay/src/router.rs:64-215 | over every run, sends admitted by a commit, plus one if it is valid now, are at most the register and add_commits calls that listed it |
| Capacity.OneDeliveryPerListing | bhumi-relay/src/router.rs:64-237 | over every run, messages delivered under a commit are at most the calls that listed it, however many sends race |
| Capacity.ListedExactly | bhumi-relay/src/router.rs:64-215 | over every run, an entry lists exactly the commits that a registration, or an add_commits that found the entry, has put into it, and that no registration without it, unregistration, or admission that used it or found the channel closed has taken out since |
| Provenance.SuccessBelongs | bhumi-relay/src/router.rs:85-246 | every successful result for a preimage, fresh or cached, was acknowledged for an id given to a send with that preimage, or loaded for it |
| Provenance.SuccessFromDevice | bhumi-relay/src/session.rs:168-172 | a corollary: it comes from the session that the message was delivered to, if no other session acknowledges messages with that preimage and none loads responses for it |
| Schedules.AnyoneMayAnswer | bhumi-relay/src/session.rs:168-172 | otherwise not: in every reachable state any session can give a waiting send any result, by acknowledging its id first |
| Schedules.CacheAnswersBoth | bhumi-relay/src/router.rs:147-159 | a reachable state in which two sends with one preimage have the same result and only one of them was delivered |
| ResponseCache.IdempotentRetry | bhumi-relay/src/router.rs:125-159 | in every run, the first send with a preimage after its acknowledgement was cached returns that response if it looks within five minutes, and otherwise has to be admitted; the look changes no device, commit, pending send or id |
| ResponseCache.AlikeStep | bhumi-relay/src/router.rs:147-159 | of two relays equal up to expired cache entries, each can do what the other can, and they stay so |
| ResponseCache.CleanupUnobservable | bhumi-relay/src/router.rs:264-269 | cleanups inserted into or left out of a run change neither what is possible nor any result, delivery, pending send or id |
| ResponseCache.CleanupExactly | bhumi-relay/src/router.rs:264-269 | a cleanup keeps exactly the entries that a look-up at that moment would return |
| Sessions.Session.HandleIAm | bhumi-relay/src/session.rs:94-136 | without a good signature nothing changes; otherwise the old identity is unregistered before the new one is registered |
| Sessions.ProvenExactly | bhumi-relay/src/session.rs:99-113 | an I_AM is accepted exactly if its signature is good for its key over a text of 36 bytes, the first four of which read as the session's nonce and the rest as the id |
| Sessions.NoReplay | bhumi-relay/src/session.rs:99-113 | an I_AM with a signature that is good over one text only, accepted in one session, is refused in every session with another nonce |
| Sessions.IAmRegisters | bhumi-relay/src/session.rs:121-136 | an accepted I_AM gives its identity exactly the commits it lists and this channel, removes the entry of the session's old identity, and leaves the others, waiting sends and the next id alone |
| Sessions.IAmLoads | bhumi-relay/src/router.rs:84-94 | each response it brings answers a send for five minutes, the last one if there are several for one preimage; others are answered as before |
| Sessions.GoesOnExactly | bhumi-relay/src/session.rs:65-92 | a session goes on exactly after well-formed frames of the types 2, 3, 5 and 8, with a good signature on type 2, and after any other type; the frame that ends it changes nothing |
| Sessions.Session.HandleUpdateCommits | bhumi-relay/src/session.rs:174-183 | commits go to the session's own identity only |
| Sessions.Session.HandleSend | bhumi-relay/src/router.rs:141-224 | cache check, admission and pending entry for the named identity in turn, and what is then left to do: a result, or a message to hand over |
| Sessions.Session.HandleAck | bhumi-relay/src/session.rs:168-172 | the entry of the named id is taken and its response cached, whoever acknowledges |
| Sessions.Session.HandleFrame | bhumi-relay/src/session.rs:65-92 | which frame does what to identity and tables, and that a malformed one ends the session with the tables unchanged |
| Identities.UnprovedSession | bhumi-relay/src/session.rs:65-183 | in every run of any number of sessions, one that has not signed for an identity never creates or redirects its entry or adds commits to it, and changes it if and only if it admits a send that shows a listed preimage or finds the entry's channel closed |
| Identities.ChangedBySession | bhumi-relay/src/session.rs:65-183 | nothing but the step of some session changes an entry |
| Identities.FrameInBlocks | bhumi-relay/src/session.rs:65-92 | what a session does with a frame is the sequence of steps of that machine that its type calls for, and what it leaves to be done is what is left of the run begun |
| Identities.SendInBlocks | bhumi-relay/src/session.rs:138-165 | a SEND is the steps of a `route_message` call of its own for the device, preimage and payload it names; it comes to a result exactly if that call has returned just this, and to handing a message over exactly if the call is about to, with just this id, channel, preimage and payload |
| Identities.HandOver | bhumi-relay/src/router.rs:226-228 | handing over puts that id with the SEND's own preimage and payload at the end of the channel |
| Identities.AckInBlocks | bhumi-relay/src/session.rs:168-172 | an ACK is the steps of a `handle_ack` run; it completes a call with a response exactly if its id was pending for that call and the response is its payload, and does nothing exactly if the id was not pending |
| Identities.CompleteWith | bhumi-relay/src/router.rs:136-137 | completing puts that response into the call's one-shot |
| Identities.AlwaysOneIdentity | bhumi-relay/src/session.rs:121-136 | in every run of any number of sessions, at most one entry leads to a session: that of its current identity |
| Sessions.RegistrationBound | bhumi-proto/src/lib.rs:97-166 | a node's signed I_AM frame makes the relay list exactly the images of its live preimages if and only if these are at most 32764; beyond that the frame is refused as too large |
| Locks.ProgramInOrder | bhumi-relay/src/router.rs:64-269 | every operation, in every branch, takes locks in one order and drops what it takes |
| Locks.NoDeadlock | bhumi-relay/src/router.rs:64-269 | in every reachable state where a task waits for a lock, a task that holds one can take a step |
| Device.DeviceState.CreateInvite | bhumi-node/src/state.rs:215-229 | stores the invite under its preimage and returns it with its commit |
| Device.DeviceState.AcceptInvite | bhumi-node/src/state.rs:232-248 | stores the pending record, replacing an older one for that id |
| Device.DeviceState.CompleteHandshakeAsInviter | bhumi-node/src/state.rs:252-278 | moves the invite to a peer with the invite's role and one new issued preimage, or changes nothing |
| Device.DeviceState.CompleteHandshakeAsAcceptor | bhumi-node/src/state.rs:281-305 | moves the pending record to a peer, or changes nothing |
| Answers.InviteBecomesPeer | bhumi-node/src/state.rs:215-278 | an invite that is created and redeemed becomes a peer with the name and role it was created with, what the handshake brought and one new preimage, once |
| Answers.AcceptedBecomesPeer | bhumi-node/src/state.rs:232-305 | an accepted invite becomes, on completion, a peer with the name it was accepted by, the preimage made for it and what the answer brought, once |
| Device.DeviceState.GetAllCommits | bhumi-node/src/state.rs:308-329 | lists exactly the images of live preimages; if each has one owner, without repetition and as many as invites, pending records and peers |
| Device.DeviceState.LookupPreimage | bhumi-node/src/state.rs:332-349 | an answer that some order of walking the peers gives |
| Device.LookupUnique | bhumi-node/src/state.rs:332-349 | if each live preimage has one owner, the answer does not depend on that order |
| Device.DeviceState.ConsumeAndRenewPreimage | bhumi-node/src/state.rs:352-366 | removes the used preimage and appends a new one |
| Answers.RenewKeepsOthers | bhumi-node/src/state.rs:352-366 | whatever else the peer was issued stays, as often as it was there; the used preimage is gone and the new one last |
| Device.DeviceState.UpdatePeerPreimage | bhumi-node/src/state.rs:374-379 | sets what the node sends with next |
| Nodes.Node.DispatchCommand | bhumi-node/src/node.rs:378-455 | which commands need an owner, and what each does to the invites |
| Nodes.OnlyOwnersManage | bhumi-node/src/node.rs:389-455 | without an owner's role no command changes the node or is told anything about invites and peers |
| Answers.DispatchManages | bhumi-node/src/node.rs:378-455 | how each command is answered for each role and what it does to the invites: which one a prefix deletes, what lists contain, the invite that is made |
| Nodes.Node.HandleCommand | bhumi-node/src/node.rs:339-376 | unknown senders get an answer and nothing else; peers get theirs with a renewed preimage, UPDATE_COMMITS before ACK |
| Answers.StrangerTurnedAway | bhumi-node/src/node.rs:347-354 | a message under a preimage that no peer was issued, or that is an invite's, gets the one answer "unauthorized" and changes nothing |
| Answers.KnownAnswered | bhumi-node/src/node.rs:339-376 | any other is never answered so, but according to the peer's role; the answer ends with a new preimage, which alone is listed, before; and nothing changes but the invites, as the command says, and what that peer was issued |
| Answers.DispatchedExactly | bhumi-node/src/node.rs:347-361 | a command is dispatched exactly if it parses and its preimage is one that a peer was issued |
| Nodes.Node.HandleHandshake | bhumi-node/src/node.rs:301-337 | accepts or rejects, ACK before UPDATE_COMMITS; a malformed handshake changes nothing |
| Answers.HandshakeAnswered | bhumi-node/src/node.rs:301-337 | a handshake is acknowledged once, with an acceptance exactly if the invite is open; the frames list exactly the preimages that have become live, which is the one that the acceptance tells, and without an invite nothing |
| Answers.HandshakeRecords | bhumi-node/src/node.rs:301-315 | the new peer has the invite's name and role and what the handshake says; nobody else's record changes |
| Nodes.Node.Run | bhumi-node/src/node.rs:278-299 | messages are served in order, each from the records the one before left, until a handshake does not parse |
| Answers.HandshakesRecognised | bhumi-node/src/node.rs:278-299 | every HANDSHAKE_INIT is served as a handshake, and no other device message and no JSON text is |
| Nodes.Node.TakeResult | bhumi-node/src/node.rs:229-270 | which results parse, with or without a preimage at the end, and exactly what the client learns from them |
| Answers.LearnsExactly | bhumi-node/src/node.rs:243-264 | the client takes a preimage from a response exactly if that is no JSON text as a whole but one followed by the preimage |
| Answers.LearningKeepsPeers | bhumi-node/src/state.rs:374-379 | that replaces what it sends with next to this peer, and nothing else |
| Nodes.Node.BeginPair | bhumi-node/src/node.rs:154-175 | the pending record and the HANDSHAKE_INIT made from it |
| Nodes.Node.EndPair | bhumi-node/src/node.rs:177-204 | success exactly on an accepted HANDSHAKE_COMPLETE, and what it records |
| History.ServedIsStep | bhumi-node/src/node.rs:278-376 | whatever the node does with a delivered message is a step of the machine that the results below are about |
| Ownership.CapabilitiesOwned | bhumi-node/src/state.rs:215-366 | in every reachable state each live preimage belongs to exactly one invite, pending record or peer, none was consumed before, and there are as many as invites, pending records and peers |
| Ownership.AtMostOnce | bhumi-node/src/node.rs:339-376 | over every sequence of messages, from any relay, no two commands are dispatched under one preimage |
| Authority.InviteRooted | bhumi-node/src/node.rs:389-441 | every invite held goes back, by owner invites that were all redeemed, to one that the node's own program made |
| Authority.ViaIsLast | bhumi-node/src/state.rs:252-305 | over every run, the invite noted for a peer is the one its last redeeming handshake used, and there is none if none came or this node has paired with it since |
| Authority.PeerRooted | bhumi-node/src/state.rs:252-305 | every peer has the role of the invite that the last redeeming handshake for it used, which goes back likewise; without one, because none was redeemed or this node has paired with it since, the peer is a reader |
| Authority.InvitesConserved | bhumi-node/src/state.rs:215-278 | invites made are invites open, redeemed and deleted, none in two ways |
| Authority.RedeemedOnce | bhumi-node/src/state.rs:252-278 | whatever handshakes come, no invite is redeemed twice |
| Authority.RedeemedGone | bhumi-node/src/state.rs:252-278 | in every run nobody can reach the node by a token that has been redeemed |
| Pairing.ReplyIsAcked | bhumi-node/src/node.rs:301-337 | the reply used by the pairing machine is the payload the node acknowledges with |
| Pairing.PairingAgreement | bhumi-node/src/node.rs:154-204 | a successful `pair` uses up the pending record; and as long as the acceptor keeps the record made then, and neither commands nor responses have changed the one that the inviter last made of the acceptor, whoever redeemed which invite in whose name and whoever acknowledged, the two sides hold each other's issued preimages if and only if that last record was made with this call's preimage and holds what the answer told; an answer of the inviter's own tells what it issued when the token was redeemed |
| Pairing.UnsharedTokenAgrees | bhumi-node/src/node.rs:154-204 | a successful `pair` means agreement if only this call's handshake redeems the token, or any invite in the acceptor's name, only the inviter's session acknowledges or loads the answer, `pair` is called once, and the two nodes do nothing else with their records of each other |
| Pairing.SharedTokenDisagrees | bhumi-relay/src/router.rs:147-159 | from every starting state, a run in which another handshake, of another name or preimage, redeems the token first and `pair` succeeds without agreement, with a reachable relay state in which one acknowledgement has answered both sends |
| Pairing.SpoofedSenderDisagrees | bhumi-node/src/state.rs:252-278 | from every starting state, a run in which this call's handshake redeems a token that nobody else has, another invite is then redeemed in the acceptor's name, and `pair` succeeds without agreement |
| Pairing.ForgedReplyDisagrees | bhumi-relay/src/session.rs:168-172 | from every starting state, a run in which this call's handshake redeems an unshared token, another session's acknowledgement answers it, and `pair` succeeds without agreement |
| Pairing.CalledTwiceDisagrees | bhumi-node/src/node.rs:154-204 | from every starting state, a run in which a call is given up after its handshake has redeemed the token and a second call, answered from the relay's cache, succeeds without agreement, with the reachable relay state |
| Pairing.ReversedDisagrees | bhumi-node/src/state.rs:281-305 | from every starting state, a run in which the inviter pairs with the acceptor while the call waits for its answer, and the call succeeds without agreement |
| Pairing.PairedInSync | bhumi-node/src/state.rs:252-305 | a pairing that ends in agreement leaves the nodes in a starting state of the composed system |
| Replies.InboundKept | bhumi-relay/src/router.rs:141-262 | no step of the relay brings a second message, or one under a consumed preimage, on its way to the device |
| Generations.Step | bhumi-node/src/node.rs:207-376 | every step of client, relay, device and connections keeps the invariant of the composed system |
| Generations.NeverTwoBehind | bhumi-node/src/node.rs:207-376 | in every run the client holds the device's one live preimage for it or the one consumed just before |
| Generations.NeverBackwards | bhumi-node/src/node.rs:243-264 | in every run neither the client nor the device ever goes back to an older preimage |
| Generations.NeverTurnedAway | bhumi-node/src/node.rs:339-375 | in every run a message that reaches the device is recognised as the client's, answered, and its preimage renewed |
| Recovery.LostOnlyByLoss | bhumi-relay/src/router.rs:118-261 | if the client is behind and the response is nowhere in transit, in a `handle_ack` run, the cache, the one-shot or the result, then since the device consumed the preimage a named loss took its last copy, or the answer never set out |
| Recovery.CarriesCur | bhumi-node/src/node.rs:365-375 | wherever the response is, in transit, in a `handle_ack` run, the cache, the one-shot or the result, it ends with the device's live preimage |
| Finality.LossIsFinal | bhumi-relay/src/router.rs:118-261 | if the client is behind and the response is nowhere, then for the rest of the run it is nowhere, the client stays behind, and the device's live preimage stays what it is |
| Finality.NothingHandled | bhumi-node/src/node.rs:278-299 | and the device handles no message of the client any more |
| Retries.RetryCatchesUp | bhumi-node/src/node.rs:243-264 | in every run, a client that is behind and sends again while the response is cached gets up to date with the result, exactly if the preimage is not all white space, provided that the response has not expired when it is looked up, no other send has taken it before, and the client waits |
| Recovery.RetryAtOnce | bhumi-node/src/node.rs:243-264 | and such a send can always be made: while the response is cached and fresh, the steps of one retry can be taken at once and end like that |
| Listing.ListedBeforeAnswered | bhumi-node/src/node.rs:365-375 | in every run, when an acknowledgement has arrived, an I_AM or UPDATE_COMMITS with the commit of the preimage it carries has been handled, whether or not the device had an entry to add it to |
| Staleness.SendExactly | bhumi-relay/src/router.rs:161-204 | in every run, a send under the live preimage is refused as invalid if and only if the entry's connection is alive and either the last listing handled was an I_AM of a connection made before the preimage was issued, handled after, or another send under it has been admitted since the last listing; otherwise it is admitted, or the device is not connected |
| Staleness.FirstSendExactly | bhumi-relay/src/router.rs:161-204 | the first send under the live preimage is refused as invalid if and only if the entry's connection is alive and such an older I_AM was handled last |
| Staleness.NeverRefused | bhumi-relay/src/router.rs:161-204 | in every run in which no I_AM of a connection that the device has left is handled, no first send is refused as invalid |
| Refusal.FirstSendRefused | bhumi-relay/src/router.rs:64-95 | from every starting state, a run that ends with a first send refused as invalid |

## Left out

- TCP, TLS, task scheduling and cancellation: replaced by atomic steps, channels and connections that carry whole frames. That the `select!` of a session can drop a half-read frame is not modelled.
- Files, JSON, hex and base64 formats, logging and the keyring: a node's state survives restarts as it is, and a crash between a command's effect and the saving of the renewed preimage is not modelled.
- Ed25519, SHA-256 and the random generator: see the assumptions.
- Rendezvous.ClosedArmUnreachable: stated while at most 2^32 message ids have been given out; afterwards a new call may overwrite the pending entry of an old one, and a debug build panics instead.
- Locks.NoDeadlock: about the four locks only; waiting for room in a full delivery channel has no time limit in the program and is not covered.
- Sessions.Session.HandleSend: takes its three locked blocks in one go and stops where the program waits; the interleavings and the wait are those of the `Relay` machine, which `Identities.FrameInBlocks` leads to.
- Pairing.PairingAgreement: stops where a command is handled, or a response read, by one of the two records; what holds from there on is the subject of the composed system.
- Recovery.RetryAtOnce: one schedule only; what holds in every interleaving is `Retries.RetryCatchesUp`.
- More than one client or device in the composed system, and sessions of others at its relay; and handshakes in it: it starts after the pairing, with a relay that has just started.
- Restarting the relay, and moving between relays: its tables are in memory only.
- `recent_responses` in the composition: the relay's loading of them is modelled, but no node sends any.
- `find_peer_by_alias`, `peers/list` formatting and custom handlers' data: they add no state to the protocol.
- The ESP32 example, the browser UI, the hub, BLE and WiFi crates: variants and surroundings of the same protocol.
