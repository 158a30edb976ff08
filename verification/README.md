# Verification of ZSSP

ZSSP is implemented twice, plainly in `reference` and fast in `performance`. This project models the
state machines, data structures and arithmetic of both and proves what they are for. Cryptography is
ideal: keys, hashes, ciphertexts and ratchet fingerprints are terms that are equal exactly when they
were computed alike, so a packet opens under a key exactly when it was sealed under it. Time,
randomness, storage failures, what the application decides, and everything the network does are
inputs, over all of which the results are stated. Functions are prefixed with the module they are in;
`dafny verify dfyconfig.toml` checks everything.

**The session state machine.** `Zeta` holds each transition algorithm as a function of a session's
state, `Session` the same algorithms as they update a session object, each method proved to be its
function, and `Ratchet` the stored pair of ratchet states with its compare-and-swap. `RekeyPair` runs
two sessions over a network that loses, duplicates and reorders packets, with storage that may refuse
or fail any request; the two sessions start where the responder's has just been created. `Verdicts`
says of each call, in terms of the session's own fields, when it succeeds and what it leaves, sends and
sets its timers to. `Nonces` follows who sealed what over a run of a pair: what opens at one side was
sealed by the other, and no nonce is used twice. `Delivery` is what one session hands to the
application over its life. `Rounds` and `Recovery` are about progress: a rekey from start to end, and
the way back to settled keys from every state of every run.

`World` (with `Handshake` for the responder's side) adds storage, half-open handshakes and any number
of XK attempts, sessions and restarts. There the stored pairs share a ratchet state under either of two
conditions. One is a matter of timing: the initiator starts over, remembering what it has stored, only
when nothing it sent before can still change what the responder has stored. The source does not
enforce that. The other an application can demand: the responder answers only Hellos whose ratchet
state it recognises. `Desync` shows that neither asks for too much: from every state that either
condition lets a run reach, a step can lead to the loss of the common state if and only if it breaks
the condition; and it gives two complete histories in which the state is lost. Whether an answer to
a rekey can still arrive depends on what else the window can be brought to accept first, which
`Ladders` describes. `Lockout` asks whether the common state can still be used when the responder
answers only Hellos it recognises, and says exactly when a handshake can still complete.

**The Noise exchanges.** `Noise` is the symmetric state over terms, as the plain implementation has it
and as a class with the optimised implementation's extra operations. `KeyExchange` runs the XK and KK
messages over it, proves that both sides agree, that the optimised messages are the plain ones, and
that the ideal decryptions of the session model are what the messages do. `Secrecy` adds an intruder who
knows every message, holds some secrets, computes what he can and takes part himself, and says exactly
which secrets he needs for the keys of an exchange and of a chain of them.

**Fragments.** `FragCache` is the cache of fragments that belong to no session, `Fragged` the
assembly of one session packet, both with every fragment accounted for (`Slots`, `Bits`, and
`Common` for what several components share); `Acceptance` says which fragments the cache takes.
`Fragmentation` holds the copying and the in-place sender, `Streaming` the data sender that encrypts
piece by piece into one buffer, `Reassembly` the receiver and the round trip, and `Traffic` what the
receiver makes of arbitrary traffic.

**Scheduling and counters.** `IndexedHeap` is the session queue, `HandshakeCache` the cache of
half-open handshakes, and `Scheduler` puts both and the fragment cache under one next service time;
`TimerRules` compares its timers with the plain implementation's.
`Antireplay` is the atomic window, `KeyUse` how often keys are used, `Fingerprints` the index of
fingerprints that storage keeps from the requests alone.

Where the code differs from what is said of it, the model follows the code:

- The initiator may start over too early for a common ratchet state to last (`Desync.LateThirdMessage`,
  `Desync.LateAnswer`; exactly when: `Desync.LosesExactly`).
- After a response made with another ratchet state than the first, the initiator's memory and storage
  differ (exactly when: `Divergence.MemoryAfterResponse`), and the confirmation, although authentic,
  ends the session (`Divergence.ConfirmedExactly`; a history: `Divergence.ConfirmationEnds`).
- The second look-up of a Hello passes the first fingerprint again, so a ratchet state is found exactly
  when the first one offered is held (`Zeta.PickExactly`, `Zeta.PickMissesSecond`).
- That second look-up is why the older of two ratchet states cannot open a session, which is what two
  states are kept for (whitepaper/zssp.tex:213-215). If the responder insists on a recognised state, a
  lost third message followed by the end of its half-open handshake locks both sides out for good, while
  their stored pairs still share a state (`Lockout.LockedOut`; exactly when: `Lockout.CompletesExactly`).
- A session outside S2 is next looked at when its resend is due, also when its timeout comes first, so
  the timeout is seen late, by up to the resend time (`Scheduler.LaterOn`, `Scheduler.LateTimeout`).
- A removal from the middle of the heap bubbles down only. `IndexedHeap.IndexedBinaryHeap.Remove` says
  exactly when the order survives, `IndexedHeap.RemovalMisfit` that it may not.
- Any handle ever given out for a reserved slot fills or frees it, so that a dead handle may come back
  to life: exactly when the slot is reserved (`IndexedHeap.IndexedBinaryHeap.PushReserved`).
- An idle defragmenter refuses the counter `u64::MAX`, and only that one (`Fragged.IdleRefuses`).
- A packet of one fragment is handed out as often as that fragment arrives (`Reassembly.EveryTime`).
- The plain receiver's expiry forgets a partly received packet exactly when its time has not run out
  (`Reassembly.ServiceForgets`, `Reassembly.ServiceInBetween`).
- The atomic window raises its slot even when it rejects. `Antireplay.RejectedRaises` gives a fresh
  counter that is lost this way; `Antireplay.AcceptsExactly` says exactly what is accepted, and
  `Antireplay.AtomicRefinesSequential` that checking first avoids it.
- After enough uses of its keys the plain implementation forces a timeout in state S1, where a timeout
  expires the session, and none in S2, where it would start the rekey (`Zeta.OftenUsed`); the
  optimised implementation does so in S2 (`Scheduler.Context.SentPayload`). It tests for S2 before it
  sets the timeout, under another lock: a session that starts its rekey in between expires
  (`Scheduler.ForcedTooLate`; exactly what a forced timeout does: `Scheduler.ForcedTimeout`).
- The optimised implementation's services also end a session that has a control packet to send and no
  counter left; the plain one's do not (exactly so: `TimerRules.SameTimers`).
- The last token of the second KK message mixes the responder's static with the initiator's
  ephemeral key on both sides; agreement and secrecy are proved for that pair
  (`KeyExchange.KkAgreement`, `Secrecy.KkKeys`).
- A K2 and a completed handshake announce the deletion of a second state even when there is none,
  against the comment on that flag (`Fingerprints.FlagsAreTrue`); the index is not affected.

## Model

| member | source | states |
|---|---|---|
| `RekeyPair.NeverBothAnswering` | reference/src/zeta.rs:1094-1208 | in every run of a pair of sessions, whatever is lost, repeated, reordered or timed out and however storage answers, the two are never both answering a rekey, and their confirmed keys are at most one rekey apart |
| `RekeyPair.SendingKeyInstalled` | reference/src/zeta.rs:1182-1208 | while both are established, the keys each side sends with are installed, mirrored and under the same key ids, in one of the peer's two slots |
| `RekeyPair.KeepK1` | reference/src/zeta.rs:1091-1222 | answering a K1, also the peer's own one in a simultaneous rekey, keeps the invariant of the pair for every answer of storage |
| `RekeyPair.KeepK2` | reference/src/zeta.rs:1224-1327 | taking a K2 keeps the invariant of the pair for every answer of storage |
| `RekeyPair.KeepReceive` | reference/src/zeta.rs:815-957 | so does every other packet on the network, in whatever state it arrives |
| `RekeyPair.KeepService` | reference/src/zeta.rs:961-1087 | so do timeouts and resends |
| `Nonces.NoNonceTwice` | reference/src/zeta.rs:224-236 | in every run of a pair no two seals, of payloads or control packets and by either side, share a key and a counter |
| `Nonces.NonceIsNew` | reference/src/zeta.rs:224-236 | the counter of what a side seals is above every counter it used before under any key, and the peer never sealed anything under the same key |
| `Nonces.OpensMeansSealed` | reference/src/zeta.rs:815-957 | in every state of every run, a packet that opens under a key one side receives with was sealed by the other side |
| `Nonces.CountersSpent` | reference/src/zeta.rs:224-236 | each event spends the counter of what it seals, and no counter goes back |
| `Rounds.RekeyRound` | reference/src/zeta.rs:1036-1327 | from settled keys, when the timeout of either side is due, the rekey message, its answer, the confirmation and the acknowledgement lead to settled, mirrored keys one exchange later on both sides |
| `Recovery.Recovers` | reference/src/zeta.rs:961-1087 | in every state of every run, whatever was lost or refused so far: if both sides are alive, may resend now and can still be heard, at most eleven events at this one time settle both under mirrored keys and one ratchet state |
| `Recovery.Rekeys` | reference/src/zeta.rs:1036-1327 | in every state of every run in which both are settled, they are so under mirrored keys, and when a timeout is due a rekey can complete |
| `Recovery.NeverAhead` | reference/src/zeta.rs:182-198 | in every state of every run, no slot of a side's window is ahead of the counters of its peer |
| `Delivery.DeliveredOnce` | reference/src/zeta.rs:1365-1400 | over the life of a session, with any packets, timeouts, sends and storage answers, a payload is handed to the application at most once, and never after another packet with its counter |
| `Delivery.PassedOnce` | reference/src/zeta.rs:189-198 | no counter is let through twice, whatever kinds of packet carry it |
| `Delivery.FreshIsDelivered` | reference/src/zeta.rs:1365-1400 | a payload that opens, with a counter not seen yet and less than 128 behind every one that was, is handed to the application if and only if it is below 2^24 or at most 2^24 ahead of one that fell into its slot |
| `Delivery.SameAsAtomic` | performance/src/antireplay.rs:19-23 | given what the session lets through, the optimised implementation's window is the session's |
| `Delivery.AtomicAgrees` | performance/src/antireplay.rs:12-23 | and would let the same counters through next |
| `Verdicts.PayloadVerdict` | reference/src/zeta.rs:1365-1400 | a payload is handed to the application if and only if it opens under the transport key of the slot it names and its counter is fresh; which error it is otherwise |
| `Verdicts.PayloadSent` | reference/src/zeta.rs:1329-1362 | when a payload goes out, under which key and counter, what is spent, and when the timeout is forced |
| `Verdicts.ConfirmationTaken` | reference/src/zeta.rs:855-892 | a confirmation under the next slot's key completes a handshake or a rekey: the keys take over, the second ratchet state goes, the timers are set and the acknowledgement goes out under the new key |
| `Verdicts.ConfirmationCompletes` | reference/src/zeta.rs:857-874 | on a host, it does so if and only if what is stored is what the session remembers and storage does not fail; otherwise a failure changes nothing and a refusal stops the session |
| `Verdicts.ConfirmationRepeated` | reference/src/zeta.rs:876-892 | any other confirmation that opens is only acknowledged, under the current key |
| `Verdicts.ConfirmationIgnored` | reference/src/zeta.rs:826-853 | with which error one that does not open or is not fresh is refused, and that it changes nothing |
| `Verdicts.AcknowledgementTaken` | reference/src/zeta.rs:894-929 | an acknowledgement settles a session if and only if it answers the confirmation being sent |
| `Verdicts.RejectionTaken` | reference/src/zeta.rs:933-957 | a rejection stops a session if and only if that waits for its confirmation |
| `Verdicts.RekeyAnswered` | reference/src/zeta.rs:1091-1222 | when a rekey is answered, with what keys, ratchet states, timers and storage request, and when it stops the session instead |
| `Verdicts.AnswerTaken` | reference/src/zeta.rs:1224-1327 | when the answer is taken, with what keys, ratchet states, timers and storage request, and when it stops the session instead |
| `Verdicts.TimedOut` | reference/src/zeta.rs:1004-1087 | what a timeout does in each state, and the key id, packet and timers it leaves |
| `Verdicts.Resent` | reference/src/zeta.rs:961-1002 | which packet a resend repeats in each state, under a new counter, and that nothing else changes |
| `Verdicts.Opens` | reference/src/zeta.rs:284-335 | what a new session offers, remembers and sets its timers to |
| `Verdicts.HelloAnswered` | reference/src/zeta.rs:404-452 | which half-open handshake a Hello leads to, or none |
| `Verdicts.ResponseTaken` | reference/src/zeta.rs:488-648 | when a response is taken and with what keys and storage request, and when the attempt starts over |
| `Verdicts.CompletionVerdict` | reference/src/zeta.rs:672-812 | when a handshake completes at the responder, what the new session is, and when a rejection is sent |
| `World.StoredPairsShare` | reference/src/zeta.rs:594-627 | over any number of attempts, sessions, rekeys and restarts at any step, if the initiator starts over, remembering what it has stored, only when nothing it sent before can still change what the responder has stored, the two stored pairs always have a ratchet state in common |
| `World.RecognizedPairsShare` | reference/src/zeta.rs:404-428 | so they do with no assumption on timing, if the responder answers only Hellos whose ratchet state it recognises |
| `World.HeededPairsShare` | reference/src/zeta.rs:404-428 | more exactly, if it never answers without a recognised state the current Hello of an initiator that remembers what it has stored while something it sent before is late |
| `World.X2Step` | reference/src/zeta.rs:488-648 | a response, accepted, refused by storage or unreadable, keeps a common state, whether or not memory and storage then agree |
| `World.X3Step` | reference/src/zeta.rs:672-812 | so does completing the handshake, also when the key id was given away after storage was changed |
| `World.X1Step` | reference/src/zeta.rs:352-478 | so does answering a Hello with whichever ratchet state the look-ups find |
| `Desync.LateThirdMessage` | reference/src/zeta.rs:1013-1034 | seven possible steps, of which only the restart of an attempt breaks the timing, after which the stored pairs have no state in common |
| `Desync.LateAnswer` | reference/src/zeta.rs:284-335 | thirteen possible steps, of which only the opening of a session breaks the timing, with the same end |
| `Desync.CarelessThird` | reference/src/zeta.rs:526-627 | from every such state in which an old third message can still complete, three further careful steps lead to stored pairs with no state in common |
| `Desync.CarelessAnswer` | reference/src/zeta.rs:1284-1308 | so do deliveries of what is on the network, however far ahead of the window the answer is, from every such state in which they can make the responder take an answer to its own rekey |
| `Desync.Climb` | reference/src/zeta.rs:182-198 | if the packets on the network can move the window of a waiting responder to accept an answer, delivering them makes it take one, which changes what it has stored |
| `Desync.LosesExactly` | reference/src/zeta.rs:1013-1034 | from every state that the invariant allows, under either condition and with no other assumption, a step can lead by further steps that keep the condition to stored pairs with no state in common if and only if it breaks the condition |
| `Desync.HistoryLosesExactly` | reference/src/zeta.rs:404-428 | so at every step of every history that has kept the condition so far |
| `Lockout.CompletesExactly` | reference/src/zeta.rs:404-428 | for a responder that insists on recognised states, in every state its invariants allow while the initiator is not established: further steps can complete a handshake if and only if the first ratchet state the initiator has stored is held by the responder, or something is late that gives it that state |
| `Lockout.HistoryCompletesExactly` | reference/src/zeta.rs:404-428 | so at every step of every history with such a responder |
| `Lockout.StuckForever` | reference/src/zeta.rs:404-428 | when neither is so, it never is again, no handshake completes whatever happens, and what the initiator has stored never changes, nor what the responder has once its last session is gone |
| `Lockout.LockedOut` | reference/src/zeta.rs:414-428 | four possible steps after which the stored pairs still share a ratchet state, yet no attempt can complete |
| `Divergence.MemoryAfterResponse` | reference/src/zeta.rs:594-627 | taking a response leaves memory equal to storage if and only if the first ratchet state was used or the two are the same |
| `Divergence.ConfirmationNeedsMemory` | reference/src/zeta.rs:857-874 | an authentic confirmation in the window establishes the session if and only if memory equals storage; otherwise it ends the session and storage stays |
| `Divergence.ConfirmedExactly` | reference/src/zeta.rs:526-627 | so after a response and its confirmation the session is established if and only if the first ratchet state was used |
| `Divergence.ConfirmationEnds` | reference/src/zeta.rs:857-874 | nine possible steps with the right timing in which the first confirmation ends the session |
| `Zeta.PickExactly` | reference/src/zeta.rs:404-423 | the look-ups find a ratchet state exactly when the responder holds the first one offered, and then that one |
| `Zeta.PickMissesSecond` | reference/src/zeta.rs:414-423 | a Hello whose second ratchet state is held and whose look-ups find none |
| `Handshake.GuardReceive` | reference/src/zeta.rs:1182-1208 | while the initiator is in a handshake, no packet on the network makes a live responder's storage lose the common state, except the answer to its own rekey, after which it stores the initiator's newest state |
| `Handshake.StaleHarmless` | reference/src/zeta.rs:1091-1327 | a session whose first ratchet state is not the stored one never changes storage, and stays so, whatever it hears |
| `World.OldSessionStale` | reference/src/zeta.rs:742-780 | completing a handshake makes the responder's earlier session such a one |
| `Session.Session.HandleC1` | reference/src/zeta.rs:815-892 | the method updates the session and storage exactly as the transition function says, in all branches; what that is for the session is said by the rows of `Verdicts`, `Nonces` and `Rounds` |
| `Session.Session.HandleC2` | reference/src/zeta.rs:894-929 | likewise |
| `Session.Session.HandleD` | reference/src/zeta.rs:933-957 | likewise |
| `Session.Session.HandleK1` | reference/src/zeta.rs:1091-1222 | likewise |
| `Session.Session.HandleK2` | reference/src/zeta.rs:1224-1327 | likewise |
| `Session.Session.HandleX2` | reference/src/zeta.rs:488-648 | likewise |
| `Session.Session.HandlePayload` | reference/src/zeta.rs:1365-1400 | likewise |
| `Session.Session.Transmit` | reference/src/zeta.rs:1329-1362 | likewise, with the early rekey and the hard expiry |
| `Zeta.OftenUsed` | reference/src/zeta.rs:1345-1349 | what the use limit does in S1 and in S2 |
| `Session.Session.Control` | reference/src/zeta.rs:650-670 | a counter is spent even when there is no key to send with |
| `Session.Session.Serve` | reference/src/zeta.rs:961-1002 | the timer rules |
| `Session.Session.TimeoutTrans` | reference/src/zeta.rs:1004-1087 | what each state does when it times out |
| `Session.Session.UpdateCounterWindow` | reference/src/zeta.rs:189-198 | the window changes exactly when the counter is accepted |
| `Session.Session.Stop` | reference/src/zeta.rs:205-220 | expiry clears the timers and the session's entries in the session map |
| `Session.Session.MapTo` | reference/src/zeta.rs:164-179 | a new key id replaces that of the next slot |
| `Session.RatchetStore.Save` | performance/src/ratchet_state.rs:194-197 | storage changes exactly when it holds the pair the request expects |
| `Noise.NoInitIsExact` | performance/src/symmetric_state.rs:107-158 | leaving the cipher key alone changes no ciphertext, plaintext or derived key if no encryption or decryption falls between such a mix and the next initialising one, and the keys used are the same exactly for such sequences |
| `Noise.SafeMeansSame` | performance/src/symmetric_state.rs:89-205 | from any two states that agree, a safe sequence gives the same outputs and again states that agree |
| `Noise.SameKeysMeansSafe` | performance/src/symmetric_state.rs:107-113 | an unsafe sequence uses an out-of-date key |
| `Noise.SymmetricState.MixKey` | performance/src/symmetric_state.rs:89-105 | the state after Noise's MixKey |
| `Noise.SymmetricState.MixKeyNoInit` | performance/src/symmetric_state.rs:107-113 | the same chaining key, the old cipher key |
| `Noise.SymmetricState.MixKeyAndHash` | performance/src/symmetric_state.rs:121-139 | the state after Noise's MixKeyAndHash |
| `Noise.SymmetricState.MixKeyAndHashNoInit` | performance/src/symmetric_state.rs:141-158 | the same chaining key and hash, the old cipher key |
| `Noise.SymmetricState.EncryptAndHash` | performance/src/symmetric_state.rs:160-173 | the ciphertext is bound to the hash so far and then hashed |
| `Noise.SymmetricState.DecryptAndHash` | performance/src/symmetric_state.rs:175-189 | the hash takes in the ciphertext whether or not it opens |
| `KeyExchange.XkAgreement` | reference/src/zeta.rs:239-282 | an honest XK run ends, exactly when the ratchet key is selectable, with the same chaining key and hash, mirrored exchange, transport and header keys, crossed key ids, the same ratchet state, and the responder knowing the initiator's key and identity |
| `KeyExchange.TrialSelects` | reference/src/zeta.rs:526-573 | trial decryption succeeds if and only if the initiator knows the key the responder mixed or may downgrade to none, and reports the state with that key and its chain length |
| `KeyExchange.TrialIsIdeal` | reference/src/zeta.rs:544-573 | what the session model decides by comparing ratchet states is what the messages decide |
| `KeyExchange.K1Opens` | reference/src/zeta.rs:1143-1163 | a rekey message opens if and only if both sides have the same ratchet key |
| `KeyExchange.K2Opens` | reference/src/zeta.rs:1262-1282 | a response opens if and only if it continues the receiver's own rekey message |
| `KeyExchange.KkAgreement` | reference/src/zeta.rs:1143-1192 | a rekey gives both sides mirrored keys and the same ratchet state |
| `KeyExchange.XkFastIsPlain` | performance/src/zeta.rs:270-320 | the optimised first two XK messages are the plain ones, and so is what is made of any message received |
| `KeyExchange.XkFastIsPlainX2` | performance/src/zeta.rs:614-684 | so is what the optimised initiator makes of any response |
| `KeyExchange.KkFastIsPlain` | performance/src/zeta.rs:1227-1248 | the same for both KK messages |
| `KeyExchange.ZeroRefused` | reference/src/zeta.rs:1163-1166 | a key id of zero is refused in every message that carries one |
| `KeyExchange.KeysDiffer` | performance/src/symmetric_state.rs:190-205 | the two sides send under different keys, no key serves two purposes, and states with different chaining keys share none |
| `Noise.OutputsDiffer` | performance/src/symmetric_state.rs:190-205 | the eight keys that can be read out of a state differ, and come out of no state with another chaining key |
| `Noise.OpensExactly` | performance/src/symmetric_state.rs:160-189 | a ciphertext opens exactly in a state with the same cipher key and transcript and under the same nonce |
| `Noise.TranscriptBinds` | performance/src/symmetric_state.rs:89-173 | equal transcripts and chaining keys were computed in the same way from the same inputs |
| `Secrecy.XkExactly` | reference/src/zeta.rs:239-282 | an intruder who has seen the messages of an honest handshake can compute its transport keys if and only if he holds a secret of each of the pairs ea/sb, ea/eb and sa/eb, one of the KEM, and the pre-shared key |
| `Secrecy.XkSecrecy` | reference/src/zeta.rs:239-282 | without them he can compute no transport, key-exchange or ratchet key of it from any messages that give nothing away |
| `Secrecy.XkMessages` | reference/src/zeta.rs:239-282 | the messages of a handshake give nothing away |
| `Secrecy.DerivedIsSafe` | performance/src/symmetric_state.rs:41-60 | from terms that give nothing away nothing else can be computed |
| `Secrecy.InitiatorKeys` | reference/src/zeta.rs:488-627 | whoever answers an initiator, with whatever keys and coins, needs for the keys she ends with a secret of the pair with the responder's static key, besides the rest |
| `Secrecy.ResponderKeys` | reference/src/zeta.rs:672-760 | whoever talks to a responder, with whatever keys, needs for the keys he ends with a secret of the pair with the static key he learns, besides the rest |
| `Secrecy.AnswersAreSafe` | reference/src/zeta.rs:430-470 | what honest participants send in answers and rekeys gives nothing away, whatever they answer |
| `Secrecy.KkKeys` | reference/src/zeta.rs:1143-1192 | for the keys of an honest rekey the intruder needs a secret of each of the pairs ea/sb, sa/sb and ea/eb, and the ratchet key |
| `Secrecy.RekeyKeys` | reference/src/zeta.rs:1091-1327 | so against a peer that is the intruder, on either side |
| `Secrecy.RatchetSecrecy` | reference/src/zeta.rs:587-592 | to compute the ratchet key that a chain of handshakes and rekeys ends with, an intruder who knows every message must have broken each of them by secrets of its own |
| `FragCache.AssembledKeeps` | performance/src/frag_cache.rs:51-166 | every fragment keeps the ring made of whole runs and unowned holes, its first used slot the start of a live packet, each key once and in one of its two slots, and the masks true of the slots |
| `FragCache.ExpiredKeeps` | performance/src/frag_cache.rs:171-187 | expiry keeps all that, removes whole packets only, none that is young enough, and leaves such a one at the head |
| `FragCache.FullSlots` | performance/src/frag_cache.rs:142-163 | the slots of a complete packet hold its fragments 0 to count - 1 in order, all accepted under its key and count |
| `FragCache.FullWhen` | performance/src/frag_cache.rs:142-163 | the mask is full exactly when the fragment was the last one missing |
| `FragCache.HeadIsFirst` | performance/src/frag_cache.rs:171-187 | with a clock that does not run back, no packet expires before the one at the head |
| `FragCache.AssembledCreated` | performance/src/frag_cache.rs:116-139 | only the packet that a fragment opens gets a new deadline |
| `Acceptance.KnownTaken` | performance/src/frag_cache.rs:141-153 | a fragment of a packet in the cache is taken if and only if its numbers are in order, it says the packet's count, that fragment is not held and the summed size stays within the limit; what the entry then says |
| `Acceptance.NewTaken` | performance/src/frag_cache.rs:85-139 | a fragment of another packet is taken if and only if one of its two entries is free and the ring has room, if need be after expiry; what the new entry says |
| `FragCache.UnassociatedFragCache.Assemble` | performance/src/frag_cache.rs:51-166 | the loops over the arrays do what the specification says; the fragment is accepted, and a packet emitted, exactly when it should be; accepted fragments are the held, the emitted and the dropped ones, each once |
| `FragCache.UnassociatedFragCache.CheckForExpiry` | performance/src/frag_cache.rs:168-187 | terminates, drops exactly the packets past the timeout if the clock has not run back, and returns a time that no remaining packet's deadline precedes |
| `FragCache.UnassociatedFragCache.Invalidate` | performance/src/frag_cache.rs:189-220 | frees a packet's run and moves the start of the used region to an owned slot |
| `FragCache.UnassociatedFragCache.Drop` | performance/src/frag_cache.rs:222-230 | afterwards nothing is held and every accepted fragment was emitted or dropped |
| `Fragged.AssembledInv` | performance/src/fragged.rs:36-72 | the mask says which slots are filled, with fragments of the current counter only, across counter changes |
| `Fragged.IdleRefuses` | performance/src/fragged.rs:44-55 | when idle it takes any fragment but one with the counter u64::MAX, and when busy any fragment with another counter |
| `Fragged.FullWhen` | performance/src/fragged.rs:50-70 | the packet is complete exactly when the fragment was the last one missing |
| `Fragged.SameTaken` | performance/src/fragged.rs:50-66 | a fragment of the packet under way is taken if and only if it says the packet's count and is not held yet |
| `Fragged.Defragmenter.Assemble` | performance/src/fragged.rs:36-72 | accepted fragments are held, emitted or dropped once each; a packet is emitted exactly when complete, in order |
| `Fragged.Defragmenter.DropInPlace` | performance/src/fragged.rs:74-90 | drops exactly the held fragments |
| `Fragmentation.SendWithFragmentation` | reference/src/fragmentation.rs:31-69 | refuses exactly the packets beyond 48 fragments and sends the specified fragments in order until the transport refuses one |
| `Fragmentation.SendInPlace` | performance/src/zssp.rs:91-125 | overwriting the bytes already sent, it emits exactly the fragments of the copying sender |
| `Fragmentation.Layout` | reference/src/fragmentation.rs:13-29 | which bytes of a fragment are the key id, the encrypted block and the rest of its part |
| `Fragmentation.SizeFits` | performance/src/zeta.rs:1650-1658 | fragment sizes differ by at most one, fit the room there is, and the last one is the smallest |
| `Fragmentation.LargeEnough` | performance/src/proto.rs:10-17 | with a unit of 128 bytes or more no fragment is too short for the header's encryption, and the last one holds the whole tag |
| `Fragmentation.Covers` | reference/src/fragmentation.rs:44-67 | the fragments make up the packet |
| `Fragmentation.CountAtMost` | reference/src/fragmentation.rs:39-42 | the count is within the limit exactly when the packet fits |
| `Fragmentation.BuiltFragment` | performance/src/zssp.rs:108-119 | the fragment built in place is the copying sender's and the bytes behind it are intact |
| `Streaming.SendPayload` | performance/src/zeta.rs:1623-1716 | refuses exactly what is longer than the promised maximum, and otherwise sends what the copying sender would send for the encrypted packet |
| `Streaming.LastFragment` | performance/src/zeta.rs:1695-1711 | the last fragment has the base size and holds the end of the ciphertext and the whole tag |
| `Reassembly.RoundTrip` | reference/src/fragmentation.rs:89-157 | with fragments in any order, duplicated and mixed with foreign ones, the receiver hands out a packet under the nonce at exactly the arrivals that complete it, equal to what was sent |
| `Reassembly.ExactlyOnce` | reference/src/fragmentation.rs:112-140 | so if all fragments arrive, and exactly once if there are two or more |
| `Reassembly.EveryTime` | reference/src/fragmentation.rs:144-150 | a packet of one fragment is handed out at every arrival of it |
| `Reassembly.ServiceForgets` | reference/src/fragmentation.rs:160-163 | a service forgets what has arrived of a packet if and only if its time has not run out |
| `Reassembly.ServiceInBetween` | reference/src/fragmentation.rs:160-163 | after a service the other fragments alone do not complete a packet |
| `Reassembly.DefragBuffer.Service` | reference/src/fragmentation.rs:160-163 | which buffers a service keeps |
| `Reassembly.Parsed` | reference/src/fragmentation.rs:13-29 | the receiver reads the header as it was written and no fragment trips its size checks |
| `Traffic.Refuses` | reference/src/fragmentation.rs:89-116 | a fragment that is malformed or that the caller's test refuses changes nothing and is reported as that, and nothing is held or handed out unless the test passed |
| `Traffic.Keeps` | reference/src/fragmentation.rs:118-157 | which vouched fragments are held, what they renew, and which are refused as repeated, too long or of another count |
| `Traffic.HeldIsVouched` | reference/src/fragmentation.rs:89-157 | under any traffic, with services in between and a test that changes, every fragment held passed the test when it arrived, under its nonce, number and count |
| `Traffic.DeliveredIsVouched` | reference/src/fragmentation.rs:112-150 | and every packet handed out consists of such fragments, one for each number, in order |
| `Reassembly.DefragBuffer.ReceivedFragment` | reference/src/fragmentation.rs:89-157 | the receiving method does what the specification says, in all branches |
| `IndexedHeap.IndexedBinaryHeap.Peek` | performance/src/indexed_heap.rs:65-74 | the greatest priority of all, while the order is intact |
| `IndexedHeap.IndexedBinaryHeap.Pop` | performance/src/indexed_heap.rs:135-141 | removes a greatest entry; order and dead handles stay |
| `IndexedHeap.IndexedBinaryHeap.Push` | performance/src/indexed_heap.rs:143-147 | maps a handle never given out before to the item; order and dead handles stay |
| `IndexedHeap.IndexedBinaryHeap.ReserveIndex` | performance/src/indexed_heap.rs:158-174 | a handle that leads nowhere yet, from the free list or a new slot, with a new generation |
| `IndexedHeap.IndexedBinaryHeap.PushReserved` | performance/src/indexed_heap.rs:176-193 | fills a reserved slot, whichever of its handles it is given; otherwise changes nothing; no other dead handle resolves again |
| `IndexedHeap.IndexedBinaryHeap.UpdatePriority` | performance/src/indexed_heap.rs:195-215 | changes that one priority; order is kept, bubbling in either direction |
| `IndexedHeap.IndexedBinaryHeap.ChangePriority` | performance/src/indexed_heap.rs:217-222 | the same for a given priority |
| `IndexedHeap.IndexedBinaryHeap.ChangeItem` | performance/src/indexed_heap.rs:224-231 | changes that one item |
| `IndexedHeap.IndexedBinaryHeap.Get` | performance/src/indexed_heap.rs:232-248 | what the map holds for a handle |
| `IndexedHeap.IndexedBinaryHeap.Remove` | performance/src/indexed_heap.rs:250-266 | removes that entry, or frees a reserved slot; order is kept if and only if the tail that takes its place fits under its parent; no removed handle resolves again |
| `IndexedHeap.IndexedBinaryHeap.Clear` | performance/src/indexed_heap.rs:268-272 | empties the map; no earlier handle resolves again |
| `IndexedHeap.RemovalOrder` | performance/src/indexed_heap.rs:118-127 | bubbling down after a removal starts from a heap in order but for that place, if and only if the tail fits |
| `IndexedHeap.RemovalMisfit` | performance/src/indexed_heap.rs:118-127 | there are heaps in order with an entry whose removal breaks the order |
| `IndexedHeap.RootIsMaximal` | performance/src/indexed_heap.rs:65-74 | the root is at least as great as any entry |
| `IndexedHeap.FreePush` | performance/src/indexed_heap.rs:118-126 | the free list stays an acyclic chain over exactly the empty slots when a slot is freed |
| `IndexedHeap.FreePop` | performance/src/indexed_heap.rs:158-170 | and when one is taken |
| `IndexedHeap.SwapLinked` | performance/src/indexed_heap.rs:80-83 | swapping two entries keeps heap and table mutually inverse and what the handles lead to |
| `HandshakeCache.UnassociatedHandshakeCache.Insert` | performance/src/handshake_cache.rs:44-66 | which cell is taken and when nothing is; what was inserted is found |
| `HandshakeCache.Displaces` | performance/src/handshake_cache.rs:44-66 | an insertion displaces nothing, an entry whose time has run out, or the first one when all are pending; exactly when it is refused |
| `HandshakeCache.UnassociatedHandshakeCache.Get` | performance/src/handshake_cache.rs:34-42 | the first entry with the id |
| `HandshakeCache.UnassociatedHandshakeCache.Remove` | performance/src/handshake_cache.rs:67-78 | removes the first entry with the id |
| `HandshakeCache.UnassociatedHandshakeCache.Service` | performance/src/handshake_cache.rs:80-104 | removes exactly the expired entries and returns the earliest deadline left, if there is one |
| `Scheduler.Context.Service` | performance/src/zssp.rs:736-791 | terminates; the next service time is then not later than any deadline in the queue, the fragment ring or the handshake cache; if a session expires it returns early with fewer sessions due and everything still in time |
| `Scheduler.Context.ServiceAll` | performance/src/zssp.rs:690-706 | the loop that starts over whenever a session expires terminates; then no timeout of a live session in S2 and no resend of another is due, a timeout outside S2 has been due for less than the resend time, and the wait it returns ends before any deadline in the queue |
| `Scheduler.Context.ServiceSessions` | performance/src/zssp.rs:748-773 | terminates with every session of the queue due in the future and returns the earliest such time, or with fewer sessions due when one expires |
| `Scheduler.Context.ServiceFirst` | performance/src/zssp.rs:748-773 | each pass, also one that expires a session, lowers the number of due entries and leaves the others' deadlines |
| `Scheduler.Context.Reduce` | performance/src/zssp.rs:70-72 | the minimum, and whether it went down |
| `Scheduler.Context.Open` | performance/src/zeta.rs:350-392 | a new session's first resend is in the queue and covered by the next service time |
| `Scheduler.Context.Reschedule` | performance/src/zeta.rs:1594-1598 | so is the timer a transition sets, the timeout in S2 and the resend elsewhere |
| `Scheduler.Context.SentPayload` | performance/src/zeta.rs:1715-1726 | a payload sent in S2 after enough uses of the keys makes the session due at once, and nothing else does, if nothing happens between the test and the setting |
| `Scheduler.Context.ForceTimeout` | performance/src/zeta.rs:1719-1725 | the setting alone makes a session due at once in whatever state it is by then; the queue knows nothing of one that has stopped |
| `Scheduler.ForcedTimeout` | performance/src/zeta.rs:1160-1284 | a session made due in this way starts a rekey when it is served if and only if it is in S2 and has counters left; a handshake starts over, and any other session expires |
| `Scheduler.ForcedTooLate` | performance/src/zeta.rs:1715-1720 | a session in S2 that starts its rekey between the test and the setting expires at the next service, before its rekey has timed out |
| `Scheduler.Context.Close` | performance/src/zeta.rs:1810-1830 | a session that leaves the queue keeps the order exactly when the tail fits in its place |
| `Scheduler.Context.ReceiveFragment` | performance/src/zssp.rs:561-575 | so is that of the packet a fragment opens |
| `Scheduler.Context.RememberHandshake` | performance/src/zeta.rs:549-567 | so is that of a half-open handshake |
| `Scheduler.LaterOn` | performance/src/zeta.rs:1160-1337 | a session that does not expire keeps its place in the queue and is next looked at in the future, at its timeout in S2 and at its resend elsewhere; this comes after its timeout if and only if it is outside S2 with the timeout before the resend, and then by at most the resend time |
| `Scheduler.LateTimeout` | performance/src/zeta.rs:1296-1332 | a session whose timeout is due while its next look is still to come, and which would expire if it were looked at |
| `TimerRules.SameTimers` | performance/src/zeta.rs:1160-1337 | a service of the two implementations leaves the same state and timers and ends the same sessions, except for those that must send and have no counter left |
| `Scheduler.Context.constructor` | performance/src/zssp.rs:128-140 | a new context is in order, nothing is due, and it may be serviced at any time |
| `Scheduler.Context.AgedOn` | performance/src/frag_cache.rs:171-187 | fragments that are in order by age at one service are so at every later one |
| `Antireplay.AcceptsExactly` | performance/src/antireplay.rs:19-23 | after any interleaving of updates a counter is acceptable if and only if it is above all that fell into its slot and within the skip bound of them |
| `Antireplay.SlotIsGreatest` | performance/src/antireplay.rs:19-23 | a slot holds the greatest counter presented for it, accepted or not |
| `Antireplay.AcceptedOnce` | performance/src/antireplay.rs:19-23 | no counter is accepted twice |
| `Antireplay.FreshInWindow` | performance/src/antireplay.rs:19-23 | a new counter less than the window's length behind the highest one presented is accepted exactly when it is within the skip bound |
| `Antireplay.FreshAfterChecks` | performance/src/antireplay.rs:12-23 | with every update checked first, the same holds for the highest counter accepted |
| `Antireplay.RejectedRaises` | performance/src/antireplay.rs:21-22 | a rejected counter may make the window lose a fresh one |
| `Antireplay.CheckedUpdate` | performance/src/antireplay.rs:12-23 | a counter that passed a check is later accepted or leaves no trace |
| `Antireplay.AtomicRefinesSequential` | reference/src/zeta.rs:182-198 | with every update checked first, in any interleaving, the atomic window gives the reference window's verdicts, except on the greatest word |
| `Antireplay.Window.Check` | performance/src/antireplay.rs:12-17 | the test without the update |
| `Antireplay.Window.Update` | performance/src/antireplay.rs:20-23 | one atomic maximum and the same test |
| `KeyUse.KeysAreSpared` | performance/src/zeta.rs:239-246 | in every run, with fewer than 2^16 threads, no nonce repeats under a key, and a key is used at most 2^32 times, or 2^33 if its epoch ends by answering a rekey |
| `KeyUse.KeepInv` | performance/src/zeta.rs:1466-1466 | the count starts again before the key changes, and the bounds survive that |
| `KeyUse.NewCount` | performance/src/zeta.rs:239-246 | with each new key the count starts again: exactly how many further counters may be used |
| `Fingerprints.IndexIsExact` | performance/src/ratchet_state.rs:265-299 | over any run of granted and refused requests, the index kept from the added and deleted fingerprints is the set of non-empty fingerprints in storage |
| `Fingerprints.RequestDifference` | performance/src/ratchet_state.rs:265-299 | the difference a request announces is the difference it makes |
| `Fingerprints.FlagsAreTrue` | performance/src/ratchet_state.rs:207-227 | when the three flags of a request are what their comments say |
| `Fingerprints.Storage.Save` | performance/examples/basic_test.rs:115-150 | a request is granted exactly when the expected pair is stored; storage and index are untouched otherwise |

## Left out

- Challenge and proof of work, application callbacks, logging, error texts and the dispatch of `receive`.
- Byte layouts of the handshake messages, and the key ids' byte order, in which the two crates differ.
- Locks, reference counts and uninitialised memory: steps that hold a lock are atomic, and conservation of fragments stands for manual ownership.
- XK and KK messages are functions of values, not methods: the Noise state they update is a local copy in the source.
- World.StoredPairsShare: for one initiating and one responding host. A session is opened when the initiator's last one has ended, as the documentation of `open` demands (performance/src/zssp.rs:151-152). The responder's new session takes the place of its old one, which lives on in the source, where by `World.OldSessionStale` and `Handshake.StaleHarmless` it changes no storage; packets of sessions that are gone appear only if no response uses their exchange.
- Recovery.Recovers: a side that is more than 2^24 counters ahead of what its peer has noted may not be heard again, and one whose timeout comes before its resend, or is due, may stop; the theorem is for the other states.
- Secrecy: what is guessed, leaks through lengths and timing, or is broken in the primitives themselves; ratchet fingerprints count as public.
- Zeta.PickExactly: a storage error during a look-up, which drops the Hello and changes nothing, does not occur in the model.
- Reassembly.RoundTrip: for runs without the receiver's expiry of partly received packets, whose effect is `Reassembly.ServiceForgets`.
- Scheduler.LaterOn: that a session has run out of counters is an input, and the clock stays below i64::MAX; the transitions between services are what `Scheduler.Context.Reschedule` is given.
- KeyUse: a state machine on values, because its steps are the interleaved atomic steps of several threads.
- Session: the value that the application's `save_ratchet_state` returns is an input to each step rather than a callback.
- Integers of 32 and 64 bits are unbounded where the source could not reach their ends, and wrap in `Antireplay` and `KeyUse`, where it could; heap generations do not wrap.
