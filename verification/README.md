# Verified model of the receive seam

A Dafny model of the receive seam shared by the mio and tokio transports: a bounded slab
pool, the burst receive that fills a frame batch from a socket, the readiness calls that
let a caller wait for data, the byte-stream loops, and the two test doubles that ship with
the core crate (the datagram conformance suite and the scripted network peer). Sockets,
pollers and reactors are replaced by explicit environment steps, and every statement is
for all of their behaviours.

| file | what it holds |
|---|---|
| `Core.dfy` | bytes, addresses, datagrams, the error type, truncation |
| `SlabPool.dfy` | `VecPool` as a class over arrays with its LIFO free list |
| `PoolSystem.dfy` | the same pool under any number of threads, one lock operation or slot access a step |
| `PoolRefines.dfy` | the array pool takes the steps of the step system |
| `FrameBatch.dfy` | the reusable batch and its draining iterator |
| `UdpBackend.dfy` | `recv_burst` as the loop it is, against a scripted kernel; its closed form and what follows from it |
| `Delivery.dfy` | receiving while datagrams arrive and other threads hold, move and drop frames or take slabs |
| `BurstRuns.dfy` | whole bursts inside whole runs: slab balance under interference, and what `PoolExhausted` reports |
| `BurstAlone.dfy` | the interleaved burst, left alone, is the closed form |
| `MioPoll.dfy` | the edge-triggered readiness call as an interleaved step system, for datagrams and streams alike |
| `MioTcp.dfy` | the mio stream transport: connect wait, readiness, receive and send loops over one poll |
| `TokioReady.dfy` | the cached readiness bit, the driver, and `readable` for any number of tasks |
| `CounterPool.dfy` | the conformance mock's two-step atomic pool under any number of threads |
| `MockSource.dfy` | the conformance mock's burst, and where it differs from the backends |
| `Conformance.dfy` | the five conformance cases, for any source that keeps the burst contract |
| `Framing.dfy` | the MoldUDP64 and SoupBinTCP encoders against parsers of the two formats |
| `MockPeer.dfy` | the scripted peer's TCP and UDP runs, their checks and their byte accounting |

The mio and the tokio pool are the same text and are modelled once, and so are the two
`recv_burst` loops, which differ only in how a sender that cannot be resolved is reported
(tokio puts in 0.0.0.0:0). The datagram and the stream `ready` of mio, the two `readable`
calls of tokio, and the two `recv_into` are likewise one model each.

## What is assumed of the surroundings

- The kernel queue is FIFO, a datagram is cut to the buffer it lands in, and a receive
  call that fails says nothing about what it left in the buffer.
- mio's edge: an edge is raised when a socket that was not readable becomes readable, and
  stays until a poll takes it (crates/mio/src/udp.rs:231-236). Nothing more is assumed:
  further edges may come or not, and a poll may or may not drop an edge whose socket is no
  longer readable. FIN makes a stream readable.
- tokio's `try_io` rule: clearing the cached bit has no effect if the driver has delivered
  a newer event since the snapshot. `try_io` does not call the closure while the bit is
  clear. Interleavings are allowed between the await, the snapshot, the peek and the clear.
- When a tokio run begins, data that is already queued has the cached bit set or an edge on
  its way to the driver, as registering the socket gives it (`TokioReady.Honest`).
- A lock-protected pop or push is one atomic step, and so is one access to a slot.
- The environment of a method is a finite script; when it is over nothing more happens,
  and a call that would then wait for ever is reported as still parked, pending or waiting.
- The client of the scripted peer has closed its side after its last byte, so a short
  `read_exact` fails rather than waits.

## Where the code and its documentation differ

- The tokio comment on `recv_burst` (crates/tokio/src/udp.rs:85-86) says `PoolExhausted`
  means that no slab was free while data was pending. The code takes a slab before it
  looks at the socket, so it is returned whether or not anything is pending, as the mio
  comment (crates/mio/src/udp.rs:89-92) says. The model follows the code
  (`UdpBackend.BurstClosedForm`), and `MockSource.MockAgreesIff` shows that this is the
  only state in which the mock's answer is different.
- The comment on the conformance suite says its builder gives room for `count` slabs plus
  a few spare. `Conformance.RunDatagramSource` gives what is needed exactly: one slab for
  the loads of five and three, two for the loads of two.

## Model

| member | source | states |
|---|---|---|
| SlabPool.InitialFreeNamesEverySlot | crates/mio/src/pool.rs:30-37 | the initial free list names every slot exactly once if and only if the capacity is at most 4294967295: the casts lose nothing just for the capacities the constructor admits |
| SlabPool.VecPool.constructor | crates/mio/src/pool.rs:27-43 | a fresh pool has every slot zeroed, unshared and free, in popping order 0, 1, 2, … |
| SlabPool.VecPool.Acquire | crates/mio/src/pool.rs:116-126 | fails exactly when the request is wider than a slab or every slot is held, changing nothing; otherwise hands out the top free slot, which nobody held, with length 0 |
| SlabPool.VecPool.Drop | crates/mio/src/pool.rs:107-111 | the handle's slot goes on top of the free list and is no longer held; free and held slots still partition the pool |
| SlabPool.VecPool.InUse | crates/mio/src/pool.rs:132-134 | the reported use is the number of live handles and never more than the capacity |
| SlabPool.VecPool.AsRef | crates/mio/src/pool.rs:98-105 | shows the recorded length or the whole slot, whichever is shorter, so an unchecked `set_len` cannot read past the slot |
| Batch.FrameBatch.Push | crates/core/src/transport.rs:65-67 | appends, and keeps the backing allocation exactly when there was room |
| Batch.FrameBatch.Drain | crates/core/src/transport.rs:71-73 | empties the batch at once, keeps the allocation, and yields the old frames in order |
| PoolSystem.StepInv | crates/mio/src/pool.rs:20-24 | every step of every thread keeps the ownership invariant: duplicate-free free list, one handle a slot, free and held slots partition the pool |
| PoolSystem.RunPartition | crates/mio/src/pool.rs:113-135 | in every state of every concurrent run the partition holds and the use reported is the number of live handles, at most the capacity |
| PoolSystem.TenanciesAreSeparated | crates/mio/src/pool.rs:3-6 | between accesses to one slot through different handles, on any threads, lie the first handle's push and after it the second handle's pop of that very slot |
| PoolSystem.OnlyItsOwnerChangesIt | crates/mio/src/pool.rs:66-105 | what a live handle shows changes only by that handle's own write or `set_len`, over any run of any threads |
| PoolSystem.AcquiresUntilExhausted | crates/mio/src/pool.rs:116-126 | from any reachable state, fitting requests succeed exactly capacity minus in-use times, each on its own slot in LIFO order, and then fail |
| PoolRefines.Build | crates/mio/src/pool.rs:27-43 | a freshly built array pool is the initial state of the step system |
| PoolRefines.Acquire | crates/mio/src/pool.rs:116-126 | acquiring from the array pool is the step of that name: it succeeds exactly when the step does, on the same slot |
| PoolRefines.Drop | crates/mio/src/pool.rs:107-111 | dropping a handle of the array pool is its owner's step in the step system |
| PoolRefines.AsRefAgrees | crates/mio/src/pool.rs:98-105 | a handle reads the same bytes in both |
| UdpBackend.UdpSocket.RecvFrom | crates/mio/src/udp.rs:117-130 | the assumed receive call: first queued datagram, cut to the buffer, rest of the buffer untouched, or would-block, or an error that consumes nothing |
| UdpBackend.UdpTransport.ReapOne | crates/tokio/src/udp.rs:96-134 | one loop turn: the slab acquired either ends up in the pushed frame, showing the datagram cut to the slab, or is back on top of the free list; no slot held before is written |
| UdpBackend.UdpTransport.RecvBurst | crates/tokio/src/udp.rs:87-138 | for every kernel script: the closed form with cap min(max, spare); `PoolExhausted` with use and capacity if and only if a frame is wanted and no slab is free; an error exactly that of receive call n after n new frames; otherwise `Ok(n)` with n short of the cap only because a receive would block or the slabs ran out; left alone, the longest queue prefix that cap and free slabs allow, each datagram cut to its slab in its own frame, in order; earlier frames and backing capacity untouched, telemetry only when the call does not fail |
| UdpBackend.BurstSays | crates/mio/src/udp.rs:98-135 | the same of the closed form, for every script, in terms of what a caller can see |
| UdpBackend.DeliveredSays | crates/tokio/src/udp.rs:118-128 | each new frame has its packet's bytes, cut to the slab, and its sender, or 0.0.0.0:0 for one that cannot be resolved; the last peer is the last new frame's |
| UdpBackend.ExitIff | crates/tokio/src/udp.rs:95-135 | for every kernel script, which of the exits a burst takes: cap, empty pool, I/O error with its code, or would-block, each if and only if that is the first to run out as packets are taken |
| UdpBackend.BurstClosedForm | crates/tokio/src/udp.rs:92-137 | left alone, a burst is `PoolExhausted` with in-use equal to capacity if and only if it wants a frame and no slab is free; otherwise it takes exactly the longest queue prefix that cap and free slabs allow |
| UdpBackend.BurstConserves | crates/mio/src/udp.rs:98-135 | on every exit, packets taken followed by the queue left are the old queue followed by what arrived during the calls made |
| UdpBackend.ErrorKeepsEarlierFrames | crates/mio/src/udp.rs:117-130 | a burst reports an I/O error if and only if, within cap and free slabs, a receive call k fails and every call before it had a packet, queued or arriving meanwhile; then exactly the first k packets are delivered and kept |
| UdpBackend.NewFramesAreDistinct | crates/mio/src/udp.rs:98-134 | frames of one burst sit on different slots, and the slots newly held are exactly as many as the frames pushed |
| UdpBackend.FrameKeepsItsPacket | crates/tokio/src/udp.rs:111-126 | a frame shows its own packet cut to the slab, whatever the slot held before, through any number of later bursts and other uses of the pool while it holds its slot |
| UdpBackend.HeldSlotIsNotReused | crates/tokio/src/udp.rs:96-106 | no later burst gives away a slot that is still held |
| UdpBackend.Abandon | crates/core/src/transport.rs:69-73 | dropping a drain iterator frees exactly the slots of the frames it has not yielded, in order |
| UdpBackend.TakeThenAbandon | crates/core/src/transport.rs:69-73 | taking k of m drained frames and dropping the iterator empties the batch, keeps its allocation and frees exactly the other m-k slots |
| Delivery.StepInv | crates/mio/src/udp.rs:93-135 | every step of the receiving system keeps the pool partition, the one-role-per-slab rule, the delivery order and the burst's books |
| Delivery.ExactlyOnceInOrder | crates/mio/src/udp.rs:93-135 | in every state of every run, with erroring bursts, partial drains and drops on other threads, what left the batch, then the batch, then the kernel queue is the accepted datagrams in order, cut to the slab |
| Delivery.FrameShowsItsDatagram | crates/tokio/src/udp.rs:111-126 | a frame out with any thread shows its own datagram, cut to the slab, until it is dropped, also after the transport is closed |
| Delivery.SlabsAccountedFor | crates/core/src/transport.rs:37-74 | in every state of every run the slabs in use are exactly those in hand, in the batch, out with consumers and taken by other code, no slab is two of these, and the batch's backing capacity has never changed |
| BurstRuns.BurstBalance | crates/mio/src/udp.rs:98-134 | a whole burst under any interference: earlier frames untouched; the new frames, at most min(max, spare), are exactly those slabs its own pops handed out that are still out; `Ok` counts them, `PoolExhausted` means none, an error keeps them and is the receive call's own; the last peer is the last new frame's or unchanged; the probing slab is back on top of the free list; each exit has its reason |
| BurstRuns.ExhaustedReport | crates/mio/src/udp.rs:104-110 | over whole runs, the use reported in `PoolExhausted` is the capacity less the slabs other threads gave back between the failed pop and the count, plus those they took: the capacity if and only if these balance, and always when nobody gives a slab back |
| BurstRuns.ExhaustedCanUnderreport | crates/mio/src/udp.rs:104-110 | a run exists in which `PoolExhausted` reports no slab in use, because another thread dropped its slab between the pop and the count |
| BurstAlone.AloneIsReap | crates/mio/src/udp.rs:98-134 | from any reachable state the interleaved burst that nothing interferes with ends with the closed form's result, queue and free list, and its new frames show exactly the closed form's packets |
| MioPoll.NoLostWakeup | crates/mio/src/tcp.rs:132-149 | in every interleaving of arrivals, FIN, partial drains, polls by send and connect wait, and ready, a thread parked on a readable socket has an edge pending |
| MioPoll.ParkedReturns | crates/mio/src/udp.rs:147-163 | a thread parked on a readable socket stays able to wake, and its next own step returns unless the poll fails |
| MioPoll.ProbelessCallIsLost | crates/mio/src/udp.rs:231-236 | without the probe, a reachable state leaves the call parked on a readable socket with nothing to wake it |
| MioPoll.ParkIsUnsafeIff | crates/mio/src/tcp.rs:119-126 | parking can be left readable without an edge by some environment if and only if the socket was readable with no edge pending when the thread parked |
| MioPoll.FalseReturnIff | crates/mio/src/udp.rs:151-162 | in any run whose edges are owed, a parked call returns on a socket that is not readable if and only if an edge was left over as it parked, nothing has come since, and its first poll passes that edge on unchecked |
| MioTcp.ReadyNeverSleepsOnData | crates/mio/src/tcp.rs:132-149 | whatever edges were swallowed before the call, one that is still parked at the end leaves a socket that is not readable |
| MioTcp.ProbelessSleepsOnDataIff | crates/mio/src/tcp.rs:119-126 | the park loop alone sleeps on data if and only if the socket is readable with no edge pending, no poll fails, and the environment raises no edge it does not owe |
| MioTcp.FalseWakeIff | crates/mio/src/tcp.rs:132-149 | where only owed edges come, ready returns on a socket that is not readable if and only if an edge was left over as it parked and the first poll reports it unchecked with the socket still not readable |
| MioTcp.WokenMeans | crates/mio/src/tcp.rs:132-149 | and where polls recheck the edges they pass on, no return is false, whatever extra edges come |
| MioTcp.TcpTransport.Ready | crates/mio/src/tcp.rs:132-149 | the probe and park loop over the shared poll computes the wait that the lemmas above speak of |
| MioTcp.ReadyFailsIff | crates/mio/src/tcp.rs:132-149 | a wait fails exactly when its last system call, the probe or a poll, fails, with that error, and no earlier one failed; a probe that finds the socket readable needs no poll |
| MioTcp.ReadyIsRun | crates/mio/src/tcp.rs:132-149 | from any kernel state and for any environment, what the readiness loop computes is a run of the interleaved step system |
| MioTcp.TcpTransport.WaitConnect | crates/mio/src/tcp.rs:82-105 | the last poll decides: its error, or at a write event the socket's own error or `Ok`, or the time-out; no earlier poll failed or reported a write; a time-out comes after at least five seconds, and no return comes later than one poll after five seconds; every edge is swallowed and no stream byte lost |
| MioTcp.TcpTransport.Send | crates/mio/src/tcp.rs:155-175 | the kernel has exactly the prefix of the buffer it made room for; every write call but the last made progress or was followed by a poll that did not fail; the last one decides: a failed write, a zero write or a failed poll is returned as its own error, and `Ok` means nothing failed and all of the buffer is out once and in order; the loop ends when would-blocks are finite |
| MioTcp.TcpTransport.RecvInto | crates/mio/src/tcp.rs:111-122 | n bytes from the front of the stream land in the first n cells and no other cell changes; would-block is `Ok(0)`; `UnexpectedEof` is reported exactly on a readable socket after FIN with nothing queued or with an empty buffer |
| MioTcp.TcpTransport.ReadToEnd | crates/core/src/transport.rs:152-160 | a receive-and-wait loop with non-empty buffers of any sizes gathers a prefix of the peer's bytes; it breaks exactly when its last system call fails, and otherwise has them all and ends with the end of stream if and only if FIN comes |
| TokioReady.StepInv | crates/tokio/src/udp.rs:143-155 | every step of every task, the driver and the peer keeps: data queued means bit set or edge in flight, and a would-block can only clear a bit it may clear |
| TokioReady.NeverWaitsOnData | crates/tokio/src/udp.rs:143-155 | in every reachable state a task awaiting a readable socket can go on now or after one driver event |
| TokioReady.TurnsAreBounded | crates/tokio/src/tcp.rs:75-87 | a call begins at most one loop turn more than the driver events since it started |
| TokioReady.OkIsTruthful | crates/tokio/src/tcp.rs:75-87 | a call returns `Ok` only in a step whose peek finds the socket readable |
| TokioReady.SettledOrDue | crates/tokio/src/udp.rs:143-155 | a readable socket is settled, bit set and no older would-block able to clear it, or an edge is in flight that will settle it |
| TokioReady.SettledProgress | crates/tokio/src/tcp.rs:75-87 | once the driver has reported a readable socket, until someone receives, every step of every task brings its call closer to returning and nothing undoes that |
| TokioReady.CallsReturn | crates/tokio/src/udp.rs:143-155 | from any reachable state with a readable socket: all is settled or an edge is in flight; once the driver has reported it, while nobody receives, a call always has its next step open and takes at most three before the one that returns, whatever the other tasks do |
| TokioReady.PlainAwaitIsStale | crates/tokio/src/udp.rs:140-142 | for every n there is a run in which a caller that only awaits the cached bit returns n times in a row on an idle socket |
| TokioReady.Socket.Readable | crates/tokio/src/udp.rs:143-155 | the loop, with arbitrary code run at each gap, is a run of the step system, told turn by turn; it fails if and only if one of its peeks fails, with that error, and that peek is its last step; `Ready` means its last step peeked a readable socket; the turns are bounded by driver events; a call still pending has no data that the driver is not about to report |
| TokioReady.RunFromIsRun | crates/tokio/src/udp.rs:143-155 | the events such a call goes through, with the states between them, are one of the runs that the statements above are about |
| CounterPool.RunInv | crates/core/src/testing/conformance.rs:360-367 | any interleaving of bumps, tests, take-backs and drops keeps the counter equal to live slabs plus attempts in flight, winners within the capacity |
| CounterPool.CounterIsHonest | crates/core/src/testing/conformance.rs:351-377 | live slabs never exceed the capacity, the counter exceeds it by at most the attempts that will fail, never wraps, and is exact when nothing is in flight |
| CounterPool.AttemptFailsIff | crates/core/src/testing/conformance.rs:360-365 | an attempt is lost at its first step exactly when slabs and attempts in flight already fill the pool |
| CounterPool.SpuriousFailure | crates/core/src/testing/conformance.rs:360-365 | an attempt can fail while no slab is live |
| MockSource.Mock.RecvBurst | crates/core/src/testing/conformance.rs:421-450 | the mock takes the longest prefix that cap, slabs and deque allow, and is `PoolExhausted` only with something pending |
| MockSource.MockAgreesIff | crates/core/src/testing/conformance.rs:418-451 | mock and backend agree on result, payloads, queue and slabs if and only if it is not the case that the pool is empty, nothing is queued and a frame is wanted, and every packet taken fits a slab |
| Conformance.BackendKeepsContract | crates/tokio/src/udp.rs:87-138 | both backends' bursts keep the contract the suite needs |
| Conformance.MockKeepsContract | crates/core/src/testing/conformance.rs:421-450 | and so does the mock |
| Conformance.CaseBurstLeqMax | crates/core/src/testing/conformance.rs:185-203 | passes exactly when the pool has a slab, for every source keeping the contract |
| Conformance.CaseSingleBurst | crates/core/src/testing/conformance.rs:205-227 | passes exactly when the pool has a slab |
| Conformance.CaseDrainsToOkZero | crates/core/src/testing/conformance.rs:229-257 | passes exactly when the pool has a slab, however short the bursts are |
| Conformance.CasePoolReclaim | crates/core/src/testing/conformance.rs:259-295 | passes exactly when the pool has two slabs, returned at once or through a deferred return queue, so at capacity 1 it fails |
| Conformance.CasePoolExhausted | crates/core/src/testing/conformance.rs:297-320 | always passes, and its acquire loop ends |
| Conformance.RunDatagramSource | crates/core/src/testing/conformance.rs:165-183 | the suite terminates and judges every case once, passing each exactly when its load gets the slabs it needs; all five pass if and only if the loads of five and three get a slab and the load of two gets two |
| Framing.BigEndianRoundTrip | crates/core/src/testing/mock_peer.rs:104-106 | decoding a field gives the value modulo its range, so the value itself exactly when it fits |
| Framing.BigEndianAt | crates/core/src/testing/mock_peer.rs:104-106 | byte k of a field is its value divided by 256 to the number of bytes after it, modulo 256 |
| Framing.EncodeMoldData | crates/core/src/testing/mock_peer.rs:101-109 | byte for byte: the ten letters MOCKPEER01, the sequence in eight bytes with the most significant first, count 1, the length modulo 65536 in two bytes, the payload |
| Framing.EncodeMoldHeartbeat | crates/core/src/testing/mock_peer.rs:111-117 | byte for byte: the ten letters and ten zero bytes |
| Framing.MoldDataRoundTrip | crates/core/src/testing/mock_peer.rs:101-109 | a data packet parses back to its session, sequence and payload exactly up to 65535 bytes; beyond that its length field is the length modulo 65536 and the parser refuses it |
| Framing.MoldHeartbeatParses | crates/core/src/testing/mock_peer.rs:111-117 | the heartbeat is a bare 20-byte header that parses as a packet with no messages |
| Framing.EncodeSoup | crates/core/src/testing/mock_peer.rs:119-126 | byte for byte: the length of type and payload modulo 65536 in two bytes, the type, the payload |
| Framing.SoupRoundTrip | crates/core/src/testing/mock_peer.rs:119-126 | a concatenation of packets parses back to exactly those packets with nothing left over if and only if every payload is at most 65534 bytes |
| MockPeer.SendTcp | crates/core/src/testing/mock_peer.rs:229-246 | a packet is on the wire whole and counted as sent, or untouched and counted as dropped, or fails with a prefix written |
| MockPeer.SendUdp | crates/core/src/testing/mock_peer.rs:167-186 | the drop is decided before the missing target is noticed |
| MockPeer.RunTcp | crates/core/src/testing/mock_peer.rs:188-227 | finishes exactly when the connection has room and the client's bytes begin with the expected ones; then the wire is one piece for each undropped action, in order, and each piece parses back to its action: sequence and payload, heartbeat, or type and payload; sent plus dropped bytes are the total encoded; otherwise it stopped at the first action that cannot go through, for that action's own reason |
| MockPeer.RunUdp | crates/core/src/testing/mock_peer.rs:128-165 | finishes exactly when there is a target or nothing undropped, no packet is too wide, and the client's datagrams, cut at 65536 bytes, begin with the expected ones; then one datagram went to the target for each undropped action, in order, and parses back to it; otherwise it stopped at the first action that cannot go through, for that action's own reason |
| MockPeer.OneMoreAction | crates/core/src/testing/mock_peer.rs:97-99 | what one more action adds to a script: a send is dropped exactly when the rate is positive and the draw made for it is below the rate, and it counts its encoded bytes either way; an expectation adds its bytes |
| MockPeer.SoupSessionParses | crates/core/src/testing/mock_peer.rs:198-226 | what a SoupBinTCP script puts on the wire parses back to exactly its undropped packets, in order, if and only if each of them fits |
| MockPeer.LossExtremes | crates/core/src/testing/mock_peer.rs:97-99 | a drop rate of at most zero loses nothing and one of at least one loses everything |

## Left out

- Socket creation, binding, socket options, multicast join, affinity warnings: system calls and logging with no state to reason about.
- The transport enums of the two backend crates, configuration structs, error display strings, metrics export: forwarding or derived code.
- UDP `send`/`send_to` of both backends and tokio's `write_all`: retries around one library call.
- The insides of epoll, kqueue, the tokio scheduler and the lock: assumed environment steps, stated above. Windows-only branches too.
- Wall-clock time: `wait_connect` uses an abstract clock; the mock peer's sleeps and jitter have no effect on what it sends.
- `SlabPool.VecSlab` is a value that is moved, not an object: a Rust handle has one owner and no aliases, and what aliasing could break is proved for handles shared out over threads in `PoolSystem`.
- `UdpBackend.UdpTransport.RecvBurst`: arrivals and errors may come at every receive call, but no other thread uses the pool during it; whole bursts with those interleavings are in `BurstRuns`.
- `std::mem::forget` of a frame, and memory-ordering effects beyond the lock.
- Overflow of the u64 and usize counters (telemetry totals, byte counts, the driver's event tick): unbounded here.
- `MockPeer.Loss` draws real numbers: rounding of the 32-bit rate, and a rate that is not a number, are not modelled.
- `TokioReady.Pc`: cancelling a `readable` call by dropping its future, which would only remove a task.
- The name, bind and connect cases of the other conformance suite (`run_conformance_suite`): they run a real network peer.
