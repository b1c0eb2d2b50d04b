/** The scripted network peer: its send accounting under synthetic loss, and its checks of
    what the client sends, over a TCP connection and over a UDP socket. */
module MockPeer {
  import opened Core
  import opened Framing

  datatype Action =
    | SendMoldPacket(sequence: U64, payload: seq<Byte>)
    | SendMoldHeartbeat
    | SendSoupPacket(ty: Byte, content: seq<Byte>)
    | ExpectClientBytes(bytes: seq<Byte>)
    | Sleep

  datatype Report = Report(actionsCompleted: nat, bytesSent: nat, bytesDropped: nat)
  {
    function Counted(): Report {
      this.(actionsCompleted := actionsCompleted + 1)
    }
  }

  /** Account for one packet of `n` bytes. */
  function Sent(report: Report, n: nat, dropped: bool): Report {
    if dropped then report.(bytesDropped := report.bytesDropped + n) else report.(bytesSent := report.bytesSent + n)
  }

  datatype PeerError =
    | PeerIo
    | MissingUdpTarget
    | TcpExpectShort
    | ExpectMismatch(expected: seq<Byte>, got: seq<Byte>)

  /** `Waiting` is a peer still waiting for a client datagram that never comes. */
  datatype Outcome = Finished(report: Report) | Stopped(error: PeerError) | Waiting

  /** Synthetic loss: the rate, and the random draw made before each send. */
  datatype Loss = Loss(rate: real, draw: nat -> real)
  {
    /** The draw is made only when the rate is positive. */
    predicate Drops(k: nat) {
      rate > 0.0 && draw(k) < rate
    }
  }

  // ---------------------------------------------------------------- what a script sends and expects

  predicate IsSend(a: Action) {
    !a.ExpectClientBytes? && !a.Sleep?
  }

  function Encoded(a: Action): seq<Byte> {
    match a
    case SendMoldPacket(sequence, payload) => Header(sequence, 1) + Block(payload)
    case SendMoldHeartbeat => Header(0, 0)
    case SendSoupPacket(ty, content) => Wire(Soup(ty, content))
    case _ => []
  }

  /** Send actions among the first `i`: the number of the next draw. */
  function Sends(script: seq<Action>, i: nat): nat
    requires i <= |script|
  {
    if i == 0 then 0 else Sends(script, i - 1) + (if IsSend(script[i - 1]) then 1 else 0)
  }

  predicate Keeps(script: seq<Action>, loss: Loss, i: nat)
    requires i < |script|
  {
    IsSend(script[i]) && !loss.Drops(Sends(script, i))
  }

  /** The packets among the first `i` actions that are not dropped, encoded. */
  function KeptList(script: seq<Action>, loss: Loss, i: nat): seq<seq<Byte>>
    requires i <= |script|
  {
    if i == 0 then []
    else KeptList(script, loss, i - 1) + (if Keeps(script, loss, i - 1) then [Encoded(script[i - 1])] else [])
  }

  /** The same as one byte stream. */
  function Kept(script: seq<Action>, loss: Loss, i: nat): seq<Byte>
    requires i <= |script|
  {
    if i == 0 then []
    else Kept(script, loss, i - 1) + (if Keeps(script, loss, i - 1) then Encoded(script[i - 1]) else [])
  }

  /** Encoded bytes of all sends among the first `i` actions, dropped or not. */
  function Total(script: seq<Action>, i: nat): nat
    requires i <= |script|
  {
    if i == 0 then 0 else Total(script, i - 1) + (if IsSend(script[i - 1]) then |Encoded(script[i - 1])| else 0)
  }

  function ExpectList(script: seq<Action>, i: nat): seq<seq<Byte>>
    requires i <= |script|
  {
    if i == 0 then []
    else ExpectList(script, i - 1) + (if script[i - 1].ExpectClientBytes? then [script[i - 1].bytes] else [])
  }

  function Wanted(script: seq<Action>, i: nat): seq<Byte>
    requires i <= |script|
  {
    if i == 0 then []
    else Wanted(script, i - 1) + (if script[i - 1].ExpectClientBytes? then script[i - 1].bytes else [])
  }

  lemma {:induction false} PrefixesGrow(script: seq<Action>, loss: Loss, i: nat, j: nat)
    requires i <= j <= |script|
    ensures Kept(script, loss, i) <= Kept(script, loss, j)
    ensures KeptList(script, loss, i) <= KeptList(script, loss, j)
    ensures Wanted(script, i) <= Wanted(script, j)
    ensures ExpectList(script, i) <= ExpectList(script, j)
    decreases j
  {
    if i < j {
      PrefixesGrow(script, loss, i, j - 1);
    }
  }

  /** The send actions among the first `i` that are not dropped: the draw made before the
      send is not below the rate, or the rate is not positive. */
  function Undropped(script: seq<Action>, loss: Loss, i: nat): seq<Action>
    requires i <= |script|
  {
    if i == 0 then []
    else Undropped(script, loss, i - 1) + (if Keeps(script, loss, i - 1) then [script[i - 1]] else [])
  }

  /** What `bytes` must be to carry action `a`, read with the parsers of the two framings. */
  predicate Carries(bytes: seq<Byte>, a: Action) {
    match a
    case SendMoldPacket(sequence, payload) =>
      && |bytes| == 22 + |payload| && FromBigEndian(bytes[10..18]) == sequence && bytes[22..] == payload
      && (|payload| < 65536 ==> ParseMold(bytes) == Some(Mold(MOCK_SESSION, sequence, [payload])))
    case SendMoldHeartbeat => |bytes| == 20 && ParseMold(bytes) == Some(Mold(MOCK_SESSION, 0, []))
    case SendSoupPacket(ty, content) =>
      && |bytes| == 3 + |content| && bytes[2] == ty && bytes[3..] == content
      && (|content| <= 65534 ==> ParseSoup(bytes) == Parsed([Soup(ty, content)], []))
    case _ => false
  }

  lemma EncodedCarries(a: Action)
    requires IsSend(a)
    ensures Carries(Encoded(a), a)
  {
    hide ParseMold;
    hide ParseSoup;
    match a {
      case SendMoldPacket(sequence, payload) =>
        MoldDataRoundTrip(sequence, payload);
        HeaderFields(sequence, 1, Block(payload));
        BlockField(payload);
        var bytes := Header(sequence, 1) + Block(payload);
        hide Header;
        hide Block;
        assert bytes[22..] == Block(payload)[2..];
      case SendMoldHeartbeat => MoldHeartbeatParses();
      case SendSoupPacket(ty, content) =>
        var p := Soup(ty, content);
        WireField(p, []);
        assert Wire(p) + [] == Wire(p);
        OneSoupParses(p);
    }
  }

  lemma OneSoupParses(p: Soup)
    ensures Fits(p) ==> ParseSoup(Wire(p)) == Parsed([p], [])
  {
    PacketParses(p, []);
    assert Wire(p) + [] == Wire(p);
    assert [p] + [] == [p];
    assert ParseSoup([]) == Parsed([], []);
  }

  function Joined(pieces: seq<seq<Byte>>): seq<Byte> {
    if pieces == [] then [] else Joined(pieces[..|pieces| - 1]) + pieces[|pieces| - 1]
  }

  /** The kept packets carry the undropped actions, one each and in order, and the byte
      stream is those packets joined. */
  lemma {:induction false} KeptCarries(script: seq<Action>, loss: Loss, i: nat)
    requires i <= |script|
    ensures var packets, actions := KeptList(script, loss, i), Undropped(script, loss, i);
            Kept(script, loss, i) == Joined(packets) && CarryAll(packets, actions)
  {
    hide *;
    if i == 0 {
      NothingCarried(script, loss);
    } else {
      KeptCarries(script, loss, i - 1);
      KeptStep(script, loss, i - 1);
      if Keeps(script, loss, i - 1) {
        EncodedCarries(script[i - 1]);
        CarryOneMore(KeptList(script, loss, i - 1), Undropped(script, loss, i - 1),
                     Encoded(script[i - 1]), script[i - 1]);
      }
    }
  }

  lemma NothingCarried(script: seq<Action>, loss: Loss)
    ensures Kept(script, loss, 0) == Joined(KeptList(script, loss, 0))
    ensures CarryAll(KeptList(script, loss, 0), Undropped(script, loss, 0))
  {
  }

  lemma KeptStep(script: seq<Action>, loss: Loss, i: nat)
    requires i < |script|
    ensures Keeps(script, loss, i) ==> IsSend(script[i])
    ensures if Keeps(script, loss, i) then
              && KeptList(script, loss, i + 1) == KeptList(script, loss, i) + [Encoded(script[i])]
              && Undropped(script, loss, i + 1) == Undropped(script, loss, i) + [script[i]]
              && Kept(script, loss, i + 1) == Kept(script, loss, i) + Encoded(script[i])
            else
              && KeptList(script, loss, i + 1) == KeptList(script, loss, i)
              && Undropped(script, loss, i + 1) == Undropped(script, loss, i)
              && Kept(script, loss, i + 1) == Kept(script, loss, i)
  {
    hide Encoded;
  }

  lemma CarryOneMore(pieces: seq<seq<Byte>>, actions: seq<Action>, piece: seq<Byte>, a: Action)
    requires CarryAll(pieces, actions) && Carries(piece, a)
    ensures CarryAll(pieces + [piece], actions + [a])
    ensures Joined(pieces + [piece]) == Joined(pieces) + piece
  {
    hide Carries;
    assert (pieces + [piece])[..|pieces|] == pieces;
  }

  /** Each piece carries its action. */
  predicate CarryAll(pieces: seq<seq<Byte>>, actions: seq<Action>) {
    |pieces| == |actions| && forall k | 0 <= k < |pieces| :: Carries(pieces[k], actions[k])
  }

  /** From `before` to `after` the wire got `pieces`, which carry `actions`, one each. */
  predicate WireCarries(before: seq<Byte>, after: seq<Byte>, pieces: seq<seq<Byte>>, actions: seq<Action>) {
    after == before + Joined(pieces) && CarryAll(pieces, actions)
  }

  /** From `before` to `after` one datagram each went to the one target. */
  predicate SocketCarries(
      before: seq<(seq<Byte>, Addr)>, after: seq<(seq<Byte>, Addr)>, actions: seq<Action>, target: Option<Addr>)
  {
    before <= after && SendAll(after[|before|..], actions, target)
  }

  /** Each datagram carries its action, to the one target. */
  predicate SendAll(sent: seq<(seq<Byte>, Addr)>, actions: seq<Action>, target: Option<Addr>) {
    && |sent| == |actions|
    && forall k | 0 <= k < |sent| :: Some(sent[k].1) == target && Carries(sent[k].0, actions[k])
  }

  /** The client's datagrams begin with the expected ones, past 65536 bytes cut off. */
  predicate Meets(inbound: seq<seq<Byte>>, expects: seq<seq<Byte>>) {
    && |expects| <= |inbound|
    && forall k | 0 <= k < |expects| ::
         expects[k] == if |inbound[k]| <= 65536 then inbound[k] else inbound[k][..65536]
  }

  lemma {:induction false} SameSoFar(script: seq<Action>, a: Action, loss: Loss, i: nat)
    requires i <= |script|
    ensures Sends(script + [a], i) == Sends(script, i)
    ensures Undropped(script + [a], loss, i) == Undropped(script, loss, i)
    ensures Wanted(script + [a], i) == Wanted(script, i)
    ensures ExpectList(script + [a], i) == ExpectList(script, i)
    ensures Total(script + [a], i) == Total(script, i)
  {
    if i > 0 {
      SameSoFar(script, a, loss, i - 1);
      assert (script + [a])[i - 1] == script[i - 1];
    }
  }

  /** What one more action at the end of a script adds to what it sends, expects and counts.
      A send is dropped exactly when the rate is positive and its draw is below it. */
  lemma OneMoreAction(script: seq<Action>, a: Action, loss: Loss)
    ensures var n := |script|;
            var sends := a.SendMoldPacket? || a.SendMoldHeartbeat? || a.SendSoupPacket?;
            && Sends(script + [a], n + 1) == Sends(script, n) + (if sends then 1 else 0)
            && Undropped(script + [a], loss, n + 1)
               == Undropped(script, loss, n)
                + (if sends && !(loss.rate > 0.0 && loss.draw(Sends(script, n)) < loss.rate) then [a] else [])
            && Wanted(script + [a], n + 1)
               == Wanted(script, n) + (if a.ExpectClientBytes? then a.bytes else [])
            && ExpectList(script + [a], n + 1)
               == ExpectList(script, n) + (if a.ExpectClientBytes? then [a.bytes] else [])
            && Total(script + [a], n + 1)
               == Total(script, n) + (match a
                                      case SendMoldPacket(_, payload) => 22 + |payload|
                                      case SendMoldHeartbeat => 20
                                      case SendSoupPacket(_, content) => 3 + |content|
                                      case _ => 0)
  {
    SameSoFar(script, a, loss, |script|);
    hide Header;
    hide Block;
    hide Wire;
  }

  // ---------------------------------------------------------------- TCP

  /** A connection's state as a value. */
  datatype Tcp = Tcp(wire: seq<Byte>, inbound: seq<Byte>, room: Option<nat>)

  predicate Used(room0: Option<nat>, n: nat, room: Option<nat>) {
    if room0.None? then room == None else n <= room0.value && room == Some(room0.value - n)
  }

  /** `inbound` is what the client sends before it closes its side; the connection takes
      `room` more bytes before it breaks. */
  class Connection {
    var wire: seq<Byte>
    var inbound: seq<Byte>
    var room: Option<nat>

    ghost function Now(): Tcp
      reads this
    {
      Tcp(wire, inbound, room)
    }

    /** A write that fails has sent a prefix. */
    method WriteAll(bytes: seq<Byte>) returns (ok: bool)
      modifies this`wire, this`room
      ensures ok <==> old(room).None? || |bytes| <= old(room).value
      ensures wire == old(wire) + if ok then bytes else bytes[..old(room).value]
      ensures room == if old(room).None? then None else Some(if ok then old(room).value - |bytes| else 0)
    {
      if room.None? {
        wire := wire + bytes;
        return true;
      }
      ok := |bytes| <= room.value;
      var n := Min(|bytes|, room.value);
      wire := wire + bytes[..n];
      room := Some(room.value - n);
    }

    method ReadExact(n: nat) returns (got: Option<seq<Byte>>)
      modifies this`inbound
      ensures got.Some? <==> n <= |old(inbound)|
      ensures got.Some? ==> got.value == old(inbound)[..n] && inbound == old(inbound)[n..]
    {
      if n > |inbound| {
        inbound := [];
        return None;
      }
      got := Some(inbound[..n]);
      inbound := inbound[n..];
    }
  }

  /** Send one packet or account for its synthetic loss. */
  method SendTcp(stream: Connection, bytes: seq<Byte>, report: Report, dropped: bool)
    returns (ok: bool, report': Report)
    modifies stream`wire, stream`room
    ensures ok <==> dropped || old(stream.room).None? || |bytes| <= old(stream.room).value
    ensures dropped ==> stream.Now() == old(stream.Now())
    ensures ok && !dropped ==> stream.wire == old(stream.wire) + bytes && Used(old(stream.room), |bytes|, stream.room)
    ensures !ok ==> stream.wire == old(stream.wire) + bytes[..old(stream.room).value]
    ensures ok ==> report' == Sent(report, |bytes|, dropped)
  {
    if dropped {
      return true, Sent(report, |bytes|, dropped);
    }
    ok := stream.WriteAll(bytes);
    report' := if ok then Sent(report, |bytes|, dropped) else report;
  }

  method Encode(a: Action) returns (bytes: seq<Byte>)
    requires IsSend(a)
    ensures bytes == Encoded(a)
  {
    match a {
      case SendMoldPacket(sequence, payload) => bytes := EncodeMoldData(sequence, payload);
      case SendMoldHeartbeat => bytes := EncodeMoldHeartbeat();
      case SendSoupPacket(ty, content) => bytes := EncodeSoup(ty, content);
    }
  }

  /** The first `i` actions have gone through. */
  predicate Going(c0: Tcp, c: Tcp, report: Report, script: seq<Action>, loss: Loss, i: nat)
    requires i <= |script|
  {
    && c.wire == c0.wire + Kept(script, loss, i)
    && c0.inbound == Wanted(script, i) + c.inbound
    && Used(c0.room, |Kept(script, loss, i)|, c.room)
    && report.actionsCompleted == i && report.bytesSent == |Kept(script, loss, i)|
    && report.bytesSent + report.bytesDropped == Total(script, i)
  }

  /** The run finishes exactly when the connection has room for every undropped packet and
      the client's bytes begin with everything expected of it; then the wire carries the
      undropped packets in order and the byte counts add up. A run that stops has sent a
      prefix of that, and its error is true. */
  ghost predicate TcpVerdict(c0: Tcp, c: Tcp, script: seq<Action>, loss: Loss, r: Outcome) {
    var kept, wanted := Kept(script, loss, |script|), Wanted(script, |script|);
    && (r.Finished? <==> (c0.room.None? || |kept| <= c0.room.value) && wanted <= c0.inbound)
    && c0.wire <= c.wire <= c0.wire + kept
    && match r
       case Finished(report) =>
         && c.wire == c0.wire + kept && c0.inbound == wanted + c.inbound
         && report.actionsCompleted == |script| && report.bytesSent == |kept|
         && report.bytesSent + report.bytesDropped == Total(script, |script|)
       case Stopped(PeerIo) =>
         c0.room.Some? && c0.room.value < |kept| && |c.wire| == |c0.wire| + c0.room.value
       case Stopped(TcpExpectShort) => |c0.inbound| < |wanted|
       case Stopped(ExpectMismatch(expected, got)) =>
         exists i :: 0 <= i < |script| && MismatchAt(c0, script, i, expected, got)
       case _ => false
  }

  /** Action `i` expects `expected`, and the client sends `got` there. */
  predicate MismatchAt(c0: Tcp, script: seq<Action>, i: nat, expected: seq<Byte>, got: seq<Byte>)
    requires i < |script|
  {
    && script[i] == ExpectClientBytes(expected) && expected != got && |expected| == |got|
    && Wanted(script, i) + got <= c0.inbound
  }

  /** The run stops at action `i`, the first that cannot go through, for that action's own
      reason. */
  ghost predicate TcpStopsAt(c0: Tcp, c: Tcp, script: seq<Action>, loss: Loss, i: nat, error: PeerError)
    requires i < |script|
  {
    && (c0.room.None? || |Kept(script, loss, i)| <= c0.room.value) && Wanted(script, i) <= c0.inbound
    && match error
       case PeerIo =>
         && Keeps(script, loss, i) && c0.room.Some? && c0.room.value < |Kept(script, loss, i + 1)|
         && c.wire == c0.wire + Kept(script, loss, i + 1)[..c0.room.value]
       case TcpExpectShort =>
         && script[i].ExpectClientBytes? && |c0.inbound| < |Wanted(script, i)| + |script[i].bytes|
         && c.wire == c0.wire + Kept(script, loss, i)
       case ExpectMismatch(expected, got) =>
         MismatchAt(c0, script, i, expected, got) && c.wire == c0.wire + Kept(script, loss, i)
       case MissingUdpTarget => false
  }

  ghost predicate TcpStops(c0: Tcp, c: Tcp, script: seq<Action>, loss: Loss, error: PeerError) {
    exists i :: 0 <= i < |script| && TcpStopsAt(c0, c, script, loss, i, error)
  }

  lemma BrokenThere(c0: Tcp, c: Tcp, report: Report, script: seq<Action>, loss: Loss, i: nat, c': Tcp)
    requires i < |script| && Going(c0, c, report, script, loss, i) && Keeps(script, loss, i)
    requires c.room.Some? && c.room.value < |Encoded(script[i])|
    requires c'.wire == c.wire + Encoded(script[i])[..c.room.value]
    ensures TcpStops(c0, c', script, loss, PeerIo)
  {
    hide Encoded;
    var before, bytes, n := Kept(script, loss, i), Encoded(script[i]), c.room.value;
    assert Kept(script, loss, i + 1) == before + bytes;
    assert (before + bytes)[..|before| + n] == before + bytes[..n];
    assert c0.wire + before + bytes[..n] == c0.wire + (before + bytes[..n]);
    assert TcpStopsAt(c0, c', script, loss, i, PeerIo);
  }

  lemma ShortThere(c0: Tcp, c: Tcp, report: Report, script: seq<Action>, loss: Loss, i: nat, c': Tcp)
    requires i < |script| && Going(c0, c, report, script, loss, i) && script[i].ExpectClientBytes?
    requires |c.inbound| < |script[i].bytes| && c'.wire == c.wire
    ensures TcpStops(c0, c', script, loss, TcpExpectShort)
  {
    assert TcpStopsAt(c0, c', script, loss, i, TcpExpectShort);
  }

  lemma MismatchThere(
      c0: Tcp, c: Tcp, report: Report, script: seq<Action>, loss: Loss, i: nat, got: seq<Byte>, c': Tcp)
    requires i < |script| && Going(c0, c, report, script, loss, i) && script[i].ExpectClientBytes?
    requires c.inbound == got + c'.inbound && |got| == |script[i].bytes| && got != script[i].bytes
    requires c'.wire == c.wire
    ensures TcpStops(c0, c', script, loss, ExpectMismatch(script[i].bytes, got))
  {
    assert c0.inbound == (Wanted(script, i) + got) + c'.inbound;
    assert TcpStopsAt(c0, c', script, loss, i, ExpectMismatch(script[i].bytes, got));
  }

  lemma GoingStarts(c: Tcp, script: seq<Action>, loss: Loss)
    ensures Going(c, c, Report(0, 0, 0), script, loss, 0) && Sends(script, 0) == 0
  {
  }

  lemma SendsStep(script: seq<Action>, i: nat)
    requires i < |script|
    ensures Sends(script, i + 1) == Sends(script, i) + (if IsSend(script[i]) then 1 else 0)
  {
  }

  lemma GoingKept(c0: Tcp, c: Tcp, report: Report, script: seq<Action>, loss: Loss, i: nat, c': Tcp)
    requires i < |script| && Going(c0, c, report, script, loss, i) && Keeps(script, loss, i)
    requires c'.wire == c.wire + Encoded(script[i]) && c'.inbound == c.inbound
    requires Used(c.room, |Encoded(script[i])|, c'.room)
    ensures Going(c0, c', Sent(report, |Encoded(script[i])|, false).Counted(), script, loss, i + 1)
  {
    hide Encoded;
    var bytes := Encoded(script[i]);
    assert Kept(script, loss, i + 1) == Kept(script, loss, i) + bytes;
    assert c'.wire == c0.wire + (Kept(script, loss, i) + bytes);
    assert Wanted(script, i + 1) == Wanted(script, i);
  }

  lemma GoingDropped(c0: Tcp, c: Tcp, report: Report, script: seq<Action>, loss: Loss, i: nat)
    requires i < |script| && Going(c0, c, report, script, loss, i) && IsSend(script[i]) && !Keeps(script, loss, i)
    ensures Going(c0, c, Sent(report, |Encoded(script[i])|, true).Counted(), script, loss, i + 1)
  {
    hide Encoded;
    assert Kept(script, loss, i + 1) == Kept(script, loss, i);
    assert Wanted(script, i + 1) == Wanted(script, i);
  }

  lemma GoingOn(c0: Tcp, c: Tcp, report: Report, script: seq<Action>, loss: Loss, i: nat, c': Tcp)
    requires i < |script| && Going(c0, c, report, script, loss, i) && !IsSend(script[i])
    requires c'.wire == c.wire && c'.room == c.room
    requires c.inbound == (if script[i].Sleep? then [] else script[i].bytes) + c'.inbound
    ensures Going(c0, c', report.Counted(), script, loss, i + 1)
  {
  }

  lemma GoingEnds(c0: Tcp, c: Tcp, report: Report, script: seq<Action>, loss: Loss)
    requires Going(c0, c, report, script, loss, |script|)
    ensures TcpVerdict(c0, c, script, loss, Finished(report))
  {
  }

  lemma BrokenMeans(c0: Tcp, c: Tcp, report: Report, script: seq<Action>, loss: Loss, i: nat, c': Tcp)
    requires i < |script| && Going(c0, c, report, script, loss, i) && Keeps(script, loss, i)
    requires c.room.Some? && c.room.value < |Encoded(script[i])|
    requires c'.wire == c.wire + Encoded(script[i])[..c.room.value]
    ensures TcpVerdict(c0, c', script, loss, Stopped(PeerIo))
  {
    hide Encoded;
    PrefixesGrow(script, loss, i + 1, |script|);
    hide Kept;
    var next := Kept(script, loss, i + 1);
    assert next == Kept(script, loss, i) + Encoded(script[i]);
    assert c0.wire + next <= c0.wire + Kept(script, loss, |script|);
  }

  lemma ShortMeans(c0: Tcp, c: Tcp, report: Report, script: seq<Action>, loss: Loss, i: nat, c': Tcp)
    requires i < |script| && Going(c0, c, report, script, loss, i) && script[i].ExpectClientBytes?
    requires |c.inbound| < |script[i].bytes| && c'.wire == c.wire
    ensures TcpVerdict(c0, c', script, loss, Stopped(TcpExpectShort))
  {
    PrefixesGrow(script, loss, i, |script|);
    PrefixesGrow(script, loss, i + 1, |script|);
    assert |Wanted(script, i + 1)| == |Wanted(script, i)| + |script[i].bytes|;
  }

  lemma SamePlace<T>(before: seq<T>, x: seq<T>, y: seq<T>, whole: seq<T>)
    requires before + x <= whole && before + y <= whole && |x| == |y|
    ensures x == y
  {
    assert x == whole[|before|..|before| + |x|] == y;
  }

  lemma MismatchMeans(c0: Tcp, c: Tcp, report: Report, script: seq<Action>, loss: Loss, i: nat, got: seq<Byte>, c': Tcp)
    requires i < |script| && Going(c0, c, report, script, loss, i) && script[i].ExpectClientBytes?
    requires c.inbound == got + c'.inbound && |got| == |script[i].bytes| && got != script[i].bytes
    requires c'.wire == c.wire
    ensures TcpVerdict(c0, c', script, loss, Stopped(ExpectMismatch(script[i].bytes, got)))
  {
    PrefixesGrow(script, loss, i, |script|);
    PrefixesGrow(script, loss, i + 1, |script|);
    var before, expected, wanted := Wanted(script, i), script[i].bytes, Wanted(script, |script|);
    assert before + expected <= wanted;
    assert before + got <= c0.inbound by {
      assert c0.inbound == (before + got) + c'.inbound;
    }
    assert MismatchAt(c0, script, i, expected, got);
    if wanted <= c0.inbound {
      SamePlace(before, expected, got, c0.inbound);
      assert false;
    }
  }

  lemma FinishedWire(c0: Tcp, c: Tcp, script: seq<Action>, loss: Loss, report: Report)
    requires TcpVerdict(c0, c, script, loss, Finished(report))
    ensures WireCarries(c0.wire, c.wire, KeptList(script, loss, |script|), Undropped(script, loss, |script|))
  {
    KeptCarries(script, loss, |script|);
    hide CarryAll;
    hide KeptList;
    hide Undropped;
    hide Joined;
  }

  /** All that is claimed of a run. */
  ghost predicate TcpEnds(c0: Tcp, c: Tcp, script: seq<Action>, loss: Loss, r: Outcome) {
    TcpVerdict(c0, c, script, loss, r) && (r.Stopped? ==> TcpStops(c0, c, script, loss, r.error))
  }

  lemma EndsBroken(c0: Tcp, c: Tcp, report: Report, script: seq<Action>, loss: Loss, i: nat, c': Tcp)
    requires i < |script| && Going(c0, c, report, script, loss, i) && Keeps(script, loss, i)
    requires c.room.Some? && c.room.value < |Encoded(script[i])|
    requires c'.wire == c.wire + Encoded(script[i])[..c.room.value]
    ensures TcpEnds(c0, c', script, loss, Stopped(PeerIo))
  {
    BrokenMeans(c0, c, report, script, loss, i, c');
    BrokenThere(c0, c, report, script, loss, i, c');
  }

  lemma EndsShort(c0: Tcp, c: Tcp, report: Report, script: seq<Action>, loss: Loss, i: nat, c': Tcp)
    requires i < |script| && Going(c0, c, report, script, loss, i) && script[i].ExpectClientBytes?
    requires |c.inbound| < |script[i].bytes| && c'.wire == c.wire
    ensures TcpEnds(c0, c', script, loss, Stopped(TcpExpectShort))
  {
    ShortMeans(c0, c, report, script, loss, i, c');
    ShortThere(c0, c, report, script, loss, i, c');
  }

  lemma EndsMismatched(
      c0: Tcp, c: Tcp, report: Report, script: seq<Action>, loss: Loss, i: nat, got: seq<Byte>, c': Tcp)
    requires i < |script| && Going(c0, c, report, script, loss, i) && script[i].ExpectClientBytes?
    requires c.inbound == got + c'.inbound && |got| == |script[i].bytes| && got != script[i].bytes
    requires c'.wire == c.wire
    ensures TcpEnds(c0, c', script, loss, Stopped(ExpectMismatch(script[i].bytes, got)))
  {
    MismatchMeans(c0, c, report, script, loss, i, got, c');
    MismatchThere(c0, c, report, script, loss, i, got, c');
  }

  lemma EndsFinished(c0: Tcp, c: Tcp, report: Report, script: seq<Action>, loss: Loss)
    requires Going(c0, c, report, script, loss, |script|)
    ensures TcpEnds(c0, c, script, loss, Finished(report))
  {
    GoingEnds(c0, c, report, script, loss);
  }

  /** Read what is expected and compare. */
  method ExpectTcp(stream: Connection, expected: seq<Byte>) returns (error: Option<PeerError>)
    modifies stream`inbound
    ensures match error
            case None => old(stream.inbound) == expected + stream.inbound
            case Some(TcpExpectShort) => |old(stream.inbound)| < |expected|
            case Some(ExpectMismatch(e, got)) =>
              e == expected && got != expected && |got| == |expected| && old(stream.inbound) == got + stream.inbound
            case _ => false
  {
    var read := stream.ReadExact(|expected|);
    if read.None? {
      return Some(TcpExpectShort);
    }
    var got := read.value;
    assert old(stream.inbound) == got + stream.inbound;
    if got != expected {
      return Some(ExpectMismatch(expected, got));
    }
    error := None;
  }

  /** The script, played on an accepted connection. */
  method PlayTcp(stream: Connection, script: seq<Action>, loss: Loss) returns (r: Outcome)
    modifies stream
    ensures TcpEnds(old(stream.Now()), stream.Now(), script, loss, r)
  {
    hide Going;
    hide TcpEnds;
    hide Kept;
    hide Wanted;
    hide Total;
    hide Encoded;
    hide Sends;
    hide Loss.Drops;
    hide Used;
    hide Sent;
    var report := Report(0, 0, 0);
    ghost var c0 := stream.Now();
    var draws := 0;
    var i := 0;
    GoingStarts(c0, script, loss);
    while i < |script|
      invariant i <= |script| && draws == Sends(script, i)
      invariant Going(c0, stream.Now(), report, script, loss, i)
    {
      ghost var c := stream.Now();
      SendsStep(script, i);
      match script[i] {
        case ExpectClientBytes(expected) =>
          var error := ExpectTcp(stream, expected);
          if error.Some? {
            if error.value.TcpExpectShort? {
              EndsShort(c0, c, report, script, loss, i, stream.Now());
            } else {
              EndsMismatched(c0, c, report, script, loss, i, error.value.got, stream.Now());
            }
            return Stopped(error.value);
          }
          GoingOn(c0, c, report, script, loss, i, stream.Now());
        case Sleep =>
          GoingOn(c0, c, report, script, loss, i, stream.Now());
        case _ =>
          var bytes := Encode(script[i]);
          var dropped := loss.Drops(draws);
          draws := draws + 1;
          var ok, report' := SendTcp(stream, bytes, report, dropped);
          if !ok {
            EndsBroken(c0, c, report, script, loss, i, stream.Now());
            return Stopped(PeerIo);
          }
          if dropped {
            GoingDropped(c0, c, report, script, loss, i);
          } else {
            GoingKept(c0, c, report, script, loss, i, stream.Now());
          }
          report := report';
      }
      report := report.Counted();
      i := i + 1;
    }
    EndsFinished(c0, stream.Now(), report, script, loss);
    r := Finished(report);
  }

  /** `pieces` are the packets on the wire of a run that finishes: the undropped actions,
      one each and in order. */
  method RunTcp(stream: Connection, script: seq<Action>, loss: Loss)
    returns (r: Outcome, ghost pieces: seq<seq<Byte>>)
    modifies stream
    ensures TcpVerdict(old(stream.Now()), stream.Now(), script, loss, r)
    ensures r.Stopped? ==> TcpStops(old(stream.Now()), stream.Now(), script, loss, r.error)
    ensures r.Finished? ==> WireCarries(old(stream.wire), stream.wire, pieces, Undropped(script, loss, |script|))
  {
    hide TcpVerdict;
    hide TcpStops;
    hide KeptList;
    hide Undropped;
    hide WireCarries;
    ghost var c0 := stream.Now();
    r := PlayTcp(stream, script, loss);
    pieces := KeptList(script, loss, |script|);
    if r.Finished? {
      FinishedWire(c0, stream.Now(), script, loss, r.report);
    }
  }

  // ---------------------------------------------------------------- a SoupBinTCP session

  /** The SoupBinTCP packets among the first `i` actions that are not dropped. */
  function KeptSoups(script: seq<Action>, loss: Loss, i: nat): seq<Soup>
    requires i <= |script|
  {
    if i == 0 then []
    else
      KeptSoups(script, loss, i - 1)
      + (if Keeps(script, loss, i - 1) && script[i - 1].SendSoupPacket?
         then [Soup(script[i - 1].ty, script[i - 1].content)] else [])
  }

  predicate SoupOnly(script: seq<Action>) {
    forall a | a in script :: IsSend(a) ==> a.SendSoupPacket?
  }

  lemma KeptSoupStep(script: seq<Action>, loss: Loss, i: nat)
    requires i < |script| && (IsSend(script[i]) ==> script[i].SendSoupPacket?)
    ensures var before, after := KeptSoups(script, loss, i), KeptSoups(script, loss, i + 1);
            if Keeps(script, loss, i) then
              && script[i].SendSoupPacket?
              && after == before + [Soup(script[i].ty, script[i].content)]
              && Kept(script, loss, i + 1) == Kept(script, loss, i) + Wire(Soup(script[i].ty, script[i].content))
            else after == before && Kept(script, loss, i + 1) == Kept(script, loss, i)
  {
    hide Wire;
  }

  lemma SoupAt(script: seq<Action>, i: nat)
    requires SoupOnly(script) && i < |script|
    ensures IsSend(script[i]) ==> script[i].SendSoupPacket?
  {
    assert script[i] in script;
  }

  lemma NothingKept(script: seq<Action>, loss: Loss)
    ensures Kept(script, loss, 0) == Stream(KeptSoups(script, loss, 0))
  {
  }

  lemma {:induction false} KeptIsStream(script: seq<Action>, loss: Loss, i: nat)
    requires SoupOnly(script) && i <= |script|
    ensures Kept(script, loss, i) == Stream(KeptSoups(script, loss, i))
  {
    hide *;
    if i == 0 {
      NothingKept(script, loss);
    } else {
      KeptIsStream(script, loss, i - 1);
      SoupAt(script, i - 1);
      KeptSoupStep(script, loss, i - 1);
      if Keeps(script, loss, i - 1) {
        StreamAppends(KeptSoups(script, loss, i - 1), Soup(script[i - 1].ty, script[i - 1].content));
      }
    }
  }

  /** What a script of SoupBinTCP packets puts on the wire parses back to exactly its
      undropped packets, in order and whole, if and only if each of them fits. */
  lemma SoupSessionParses(script: seq<Action>, loss: Loss)
    requires SoupOnly(script)
    ensures var kept := KeptSoups(script, loss, |script|);
            ParseSoup(Kept(script, loss, |script|)) == Parsed(kept, []) <==> forall p | p in kept :: Fits(p)
  {
    KeptIsStream(script, loss, |script|);
    SoupRoundTrip(KeptSoups(script, loss, |script|));
  }

  /** A rate of zero or less loses nothing; a rate of one or more, with draws below one as
      the generator makes them, loses everything. */
  lemma {:induction false} LossExtremes(script: seq<Action>, loss: Loss, i: nat)
    requires i <= |script|
    requires loss.rate <= 0.0 || (loss.rate >= 1.0 && forall k: nat :: loss.draw(k) < 1.0)
    ensures |Kept(script, loss, i)| == if loss.rate <= 0.0 then Total(script, i) else 0
  {
    if i > 0 {
      LossExtremes(script, loss, i - 1);
      assert loss.Drops(Sends(script, i - 1)) <==> loss.rate >= 1.0;
    }
  }

  // ---------------------------------------------------------------- UDP

  const RECV_BUF := 64 * 1024

  /** `inbound` are the datagrams the client sends; the kernel refuses any datagram wider
      than `limit`. */
  datatype Udp = Udp(sent: seq<(seq<Byte>, Addr)>, inbound: seq<seq<Byte>>)

  class UdpEnd {
    var sent: seq<(seq<Byte>, Addr)>
    var inbound: seq<seq<Byte>>
    const limit: nat

    ghost function Now(): Udp
      reads this
    {
      Udp(sent, inbound)
    }

    method SendTo(bytes: seq<Byte>, to: Addr) returns (n: Option<nat>)
      modifies this`sent
      ensures n == if |bytes| <= limit then Some(|bytes|) else None
      ensures sent == if |bytes| <= limit then old(sent) + [(bytes, to)] else old(sent)
    {
      if |bytes| > limit {
        return None;
      }
      sent := sent + [(bytes, to)];
      n := Some(|bytes|);
    }

    /** `None` is a receive that never returns. */
    method RecvFrom(cap: nat) returns (got: Option<seq<Byte>>)
      modifies this`inbound
      ensures got.None? <==> old(inbound) == []
      ensures got.None? ==> inbound == []
      ensures got.Some? ==> got.value == Cut(old(inbound)[0], cap) && inbound == old(inbound)[1..]
    {
      if |inbound| == 0 {
        return None;
      }
      got := Some(Cut(inbound[0], cap));
      inbound := inbound[1..];
    }
  }

  datatype SendResult = SentAll | NoTarget | Refused

  /** The drop is decided before the target is looked at. */
  method SendUdp(sock: UdpEnd, bytes: seq<Byte>, report: Report, dropped: bool, target: Option<Addr>)
    returns (res: SendResult, report': Report)
    modifies sock`sent
    ensures res == if dropped then SentAll
                   else if target.None? then NoTarget
                   else if |bytes| > sock.limit then Refused else SentAll
    ensures sock.sent == if !dropped && res.SentAll? then old(sock.sent) + [(bytes, target.value)] else old(sock.sent)
    ensures res.SentAll? ==> report' == Sent(report, |bytes|, dropped)
  {
    report' := report;
    if dropped {
      return SentAll, Sent(report, |bytes|, dropped);
    }
    if target.None? {
      return NoTarget, report';
    }
    var n := sock.SendTo(bytes, target.value);
    if n.None? {
      return Refused, report';
    }
    return SentAll, Sent(report, n.value, dropped);
  }

  function Addressed(packets: seq<seq<Byte>>, target: Option<Addr>): seq<(seq<Byte>, Addr)> {
    if target.None? then [] else seq(|packets|, i requires 0 <= i < |packets| => (packets[i], target.value))
  }

  /** What the peer sees of the client's datagrams. */
  function Seen(inbound: seq<seq<Byte>>): seq<seq<Byte>> {
    seq(|inbound|, i requires 0 <= i < |inbound| => Cut(inbound[i], RECV_BUF))
  }

  predicate Deliverable(packets: seq<seq<Byte>>, limit: nat, target: Option<Addr>) {
    forall k | 0 <= k < |packets| :: target.Some? && |packets[k]| <= limit
  }

  predicate UdpGoing(u0: Udp, u: Udp, report: Report, script: seq<Action>, loss: Loss, limit: nat,
      target: Option<Addr>, i: nat)
    requires i <= |script|
  {
    && u.sent == u0.sent + Addressed(KeptList(script, loss, i), target)
    && Deliverable(KeptList(script, loss, i), limit, target)
    && Seen(u0.inbound) == ExpectList(script, i) + Seen(u.inbound)
    && report.actionsCompleted == i && report.bytesSent == |Kept(script, loss, i)|
    && report.bytesSent + report.bytesDropped == Total(script, i)
  }

  /** The run finishes exactly when there is a target or nothing to send to it, no undropped
      packet is too wide, and the client's datagrams, each cut to the receive buffer, begin
      with the expected ones; then exactly the undropped packets went out, in order, one
      datagram each. Otherwise a prefix of them did, and the outcome says why. */
  ghost predicate UdpVerdict(u0: Udp, u: Udp, script: seq<Action>, loss: Loss, limit: nat, target: Option<Addr>,
      r: Outcome) {
    var kept, expects := KeptList(script, loss, |script|), ExpectList(script, |script|);
    && (r.Finished? <==> Deliverable(kept, limit, target) && expects <= Seen(u0.inbound))
    && u0.sent <= u.sent <= u0.sent + Addressed(kept, target)
    && match r
       case Finished(report) =>
         && u.sent == u0.sent + Addressed(kept, target) && Seen(u0.inbound) == expects + Seen(u.inbound)
         && report.actionsCompleted == |script| && report.bytesSent == |Kept(script, loss, |script|)|
         && report.bytesSent + report.bytesDropped == Total(script, |script|)
       case Waiting => |u0.inbound| < |expects|
       case Stopped(MissingUdpTarget) => target == None && kept != [] && u.sent == u0.sent
       case Stopped(PeerIo) => target.Some? && exists k :: 0 <= k < |kept| && |kept[k]| > limit
       case Stopped(ExpectMismatch(expected, got)) =>
         exists i :: 0 <= i < |script| && UdpMismatchAt(u0, script, i, expected, got)
       case _ => false
  }

  predicate UdpMismatchAt(u0: Udp, script: seq<Action>, i: nat, expected: seq<Byte>, got: seq<Byte>)
    requires i < |script|
  {
    script[i] == ExpectClientBytes(expected) && expected != got && ExpectList(script, i) + [got] <= Seen(u0.inbound)
  }

  /** The run stops or waits at action `i`, the first that cannot go through, for that
      action's own reason. */
  ghost predicate UdpStopsAt(u0: Udp, u: Udp, script: seq<Action>, loss: Loss, limit: nat, target: Option<Addr>,
      i: nat, r: Outcome)
    requires i < |script|
  {
    && Deliverable(KeptList(script, loss, i), limit, target) && ExpectList(script, i) <= Seen(u0.inbound)
    && u.sent == u0.sent + Addressed(KeptList(script, loss, i), target)
    && match r
       case Waiting => script[i].ExpectClientBytes? && |u0.inbound| == |ExpectList(script, i)|
       case Stopped(MissingUdpTarget) => Keeps(script, loss, i) && target == None
       case Stopped(PeerIo) => Keeps(script, loss, i) && target.Some? && |Encoded(script[i])| > limit
       case Stopped(ExpectMismatch(expected, got)) => UdpMismatchAt(u0, script, i, expected, got)
       case _ => false
  }

  ghost predicate UdpStops(u0: Udp, u: Udp, script: seq<Action>, loss: Loss, limit: nat, target: Option<Addr>,
      r: Outcome)
  {
    exists i :: 0 <= i < |script| && UdpStopsAt(u0, u, script, loss, limit, target, i, r)
  }

  lemma UnsentThere(u0: Udp, u: Udp, report: Report, script: seq<Action>, loss: Loss, limit: nat,
      target: Option<Addr>, i: nat)
    requires i < |script| && UdpGoing(u0, u, report, script, loss, limit, target, i) && Keeps(script, loss, i)
    requires target.None? || |Encoded(script[i])| > limit
    ensures UdpStops(u0, u, script, loss, limit, target, Stopped(if target.None? then MissingUdpTarget else PeerIo))
  {
    hide Encoded;
    assert UdpStopsAt(u0, u, script, loss, limit, target, i,
                      Stopped(if target.None? then MissingUdpTarget else PeerIo));
  }

  lemma WaitsThere(u0: Udp, u: Udp, report: Report, script: seq<Action>, loss: Loss, limit: nat,
      target: Option<Addr>, i: nat)
    requires i < |script| && UdpGoing(u0, u, report, script, loss, limit, target, i)
    requires script[i].ExpectClientBytes? && u.inbound == []
    ensures UdpStops(u0, u, script, loss, limit, target, Waiting)
  {
    assert |Seen(u0.inbound)| == |ExpectList(script, i)|;
    assert UdpStopsAt(u0, u, script, loss, limit, target, i, Waiting);
  }

  lemma UdpMismatchThere(u0: Udp, u: Udp, report: Report, script: seq<Action>, loss: Loss, limit: nat,
      target: Option<Addr>, i: nat, u': Udp)
    requires i < |script| && UdpGoing(u0, u, report, script, loss, limit, target, i)
    requires script[i].ExpectClientBytes? && u.inbound != [] && Cut(u.inbound[0], RECV_BUF) != script[i].bytes
    requires u'.sent == u.sent
    ensures UdpStops(u0, u', script, loss, limit, target,
                     Stopped(ExpectMismatch(script[i].bytes, Cut(u.inbound[0], RECV_BUF))))
  {
    var before, got, all := ExpectList(script, i), Cut(u.inbound[0], RECV_BUF), Seen(u0.inbound);
    assert all[|before|] == Seen(u.inbound)[0] == got;
    assert before + [got] <= all;
    assert UdpStopsAt(u0, u', script, loss, limit, target, i, Stopped(ExpectMismatch(script[i].bytes, got)));
  }

  lemma UdpGoingStarts(u: Udp, script: seq<Action>, loss: Loss, limit: nat, target: Option<Addr>)
    ensures UdpGoing(u, u, Report(0, 0, 0), script, loss, limit, target, 0) && Sends(script, 0) == 0
  {
  }

  lemma UdpGoingKept(u0: Udp, u: Udp, report: Report, script: seq<Action>, loss: Loss, limit: nat,
      target: Option<Addr>, i: nat, u': Udp)
    requires i < |script| && UdpGoing(u0, u, report, script, loss, limit, target, i) && Keeps(script, loss, i)
    requires target.Some? && |Encoded(script[i])| <= limit
    requires u' == Udp(u.sent + [(Encoded(script[i]), target.value)], u.inbound)
    ensures UdpGoing(u0, u', Sent(report, |Encoded(script[i])|, false).Counted(), script, loss, limit, target, i + 1)
  {
    hide Encoded;
    var was, packet := KeptList(script, loss, i), Encoded(script[i]);
    assert KeptList(script, loss, i + 1) == was + [packet];
    assert Addressed(was + [packet], target) == Addressed(was, target) + [(packet, target.value)];
    assert ExpectList(script, i + 1) == ExpectList(script, i);
  }

  lemma UdpGoingDropped(u0: Udp, u: Udp, report: Report, script: seq<Action>, loss: Loss, limit: nat,
      target: Option<Addr>, i: nat)
    requires i < |script| && UdpGoing(u0, u, report, script, loss, limit, target, i)
    requires IsSend(script[i]) && !Keeps(script, loss, i)
    ensures UdpGoing(u0, u, Sent(report, |Encoded(script[i])|, true).Counted(), script, loss, limit, target, i + 1)
  {
    hide Encoded;
    assert KeptList(script, loss, i + 1) == KeptList(script, loss, i);
    assert ExpectList(script, i + 1) == ExpectList(script, i);
  }

  lemma UdpGoingOn(u0: Udp, u: Udp, report: Report, script: seq<Action>, loss: Loss, limit: nat,
      target: Option<Addr>, i: nat, u': Udp)
    requires i < |script| && UdpGoing(u0, u, report, script, loss, limit, target, i) && !IsSend(script[i])
    requires u'.sent == u.sent
    requires if script[i].Sleep? then u'.inbound == u.inbound
             else u.inbound != [] && u'.inbound == u.inbound[1..] && Cut(u.inbound[0], RECV_BUF) == script[i].bytes
    ensures UdpGoing(u0, u', report.Counted(), script, loss, limit, target, i + 1)
  {
    assert KeptList(script, loss, i + 1) == KeptList(script, loss, i);
    if script[i].ExpectClientBytes? {
      assert Seen(u.inbound) == [script[i].bytes] + Seen(u'.inbound);
    }
  }

  lemma UdpGoingEnds(u0: Udp, u: Udp, report: Report, script: seq<Action>, loss: Loss, limit: nat, target: Option<Addr>)
    requires UdpGoing(u0, u, report, script, loss, limit, target, |script|)
    ensures UdpVerdict(u0, u, script, loss, limit, target, Finished(report))
  {
  }

  /** Whatever stops the run at action `i`, what went out so far is a prefix. */
  lemma UdpSentSoFar(u0: Udp, u: Udp, report: Report, script: seq<Action>, loss: Loss, limit: nat,
      target: Option<Addr>, i: nat)
    requires i <= |script| && UdpGoing(u0, u, report, script, loss, limit, target, i)
    ensures u0.sent <= u.sent <= u0.sent + Addressed(KeptList(script, loss, |script|), target)
  {
    PrefixesGrow(script, loss, i, |script|);
    var some, all := KeptList(script, loss, i), KeptList(script, loss, |script|);
    assert Addressed(some, target) == Addressed(all, target)[..|Addressed(some, target)|];
  }

  /** Where the packet of action `i` stands among all that are not dropped. */
  lemma KeptAt(script: seq<Action>, loss: Loss, i: nat)
    requires i < |script| && Keeps(script, loss, i)
    ensures var some, all := KeptList(script, loss, i), KeptList(script, loss, |script|);
            |some| < |all| && all[|some|] == Encoded(script[i])
  {
    hide Encoded;
    PrefixesGrow(script, loss, i + 1, |script|);
    var some := KeptList(script, loss, i);
    assert KeptList(script, loss, i + 1) == some + [Encoded(script[i])];
    assert (some + [Encoded(script[i])])[|some|] == Encoded(script[i]);
  }

  lemma UntargetedSendsNothing(u0: Udp, u: Udp, report: Report, script: seq<Action>, loss: Loss, limit: nat, i: nat)
    requires i <= |script| && UdpGoing(u0, u, report, script, loss, limit, None, i)
    ensures u.sent == u0.sent
  {
  }

  lemma UnsentMeans(u0: Udp, u: Udp, report: Report, script: seq<Action>, loss: Loss, limit: nat,
      target: Option<Addr>, i: nat)
    requires i < |script| && UdpGoing(u0, u, report, script, loss, limit, target, i) && Keeps(script, loss, i)
    requires target.None? || |Encoded(script[i])| > limit
    ensures UdpVerdict(u0, u, script, loss, limit, target, Stopped(if target.None? then MissingUdpTarget else PeerIo))
  {
    UdpSentSoFar(u0, u, report, script, loss, limit, target, i);
    KeptAt(script, loss, i);
    if target.None? {
      UntargetedSendsNothing(u0, u, report, script, loss, limit, i);
    }
    hide UdpGoing;
    hide KeptList;
    hide Kept;
    hide Encoded;
    hide ExpectList;
    hide Addressed;
    hide Seen;
    var k := |KeptList(script, loss, i)|;
    assert !Deliverable(KeptList(script, loss, |script|), limit, target);
  }

  lemma WaitingMeans(u0: Udp, u: Udp, report: Report, script: seq<Action>, loss: Loss, limit: nat,
      target: Option<Addr>, i: nat)
    requires i < |script| && UdpGoing(u0, u, report, script, loss, limit, target, i)
    requires script[i].ExpectClientBytes? && u.inbound == []
    ensures UdpVerdict(u0, u, script, loss, limit, target, Waiting)
  {
    UdpSentSoFar(u0, u, report, script, loss, limit, target, i);
    PrefixesGrow(script, loss, i + 1, |script|);
    assert |ExpectList(script, i + 1)| == |ExpectList(script, i)| + 1;
    assert |Seen(u0.inbound)| == |ExpectList(script, i)|;
  }

  lemma UdpMismatchMeans(u0: Udp, u: Udp, report: Report, script: seq<Action>, loss: Loss, limit: nat,
      target: Option<Addr>, i: nat, u': Udp)
    requires i < |script| && UdpGoing(u0, u, report, script, loss, limit, target, i)
    requires script[i].ExpectClientBytes? && u.inbound != [] && Cut(u.inbound[0], RECV_BUF) != script[i].bytes
    requires u'.sent == u.sent
    ensures UdpVerdict(u0, u', script, loss, limit, target,
                       Stopped(ExpectMismatch(script[i].bytes, Cut(u.inbound[0], RECV_BUF))))
  {
    UdpSentSoFar(u0, u, report, script, loss, limit, target, i);
    PrefixesGrow(script, loss, i + 1, |script|);
    var before, got, all := ExpectList(script, i), Cut(u.inbound[0], RECV_BUF), Seen(u0.inbound);
    assert all[|before|] == Seen(u.inbound)[0] == got;
    assert before + [got] <= all;
    assert UdpMismatchAt(u0, script, i, script[i].bytes, got);
    assert ExpectList(script, i + 1)[|before|] == script[i].bytes;
    assert ExpectList(script, |script|)[|before|] == script[i].bytes;
  }

  lemma AddressedCarries(packets: seq<seq<Byte>>, actions: seq<Action>, limit: nat, target: Option<Addr>)
    requires CarryAll(packets, actions) && Deliverable(packets, limit, target)
    ensures SendAll(Addressed(packets, target), actions, target)
  {
    hide Carries;
    if packets != [] {
      assert |packets[0]| <= limit;
    }
  }

  lemma SeenMeets(inbound: seq<seq<Byte>>, expects: seq<seq<Byte>>)
    requires expects <= Seen(inbound)
    ensures Meets(inbound, expects)
  {
    forall k | 0 <= k < |expects|
      ensures expects[k] == Seen(inbound)[k]
    {
    }
  }

  lemma AfterThat<T>(before: seq<T>, more: seq<T>)
    ensures before <= before + more && (before + more)[|before|..] == more
  {
  }

  /** A finished run, datagram by datagram. */
  lemma FinishedDatagrams(
      u0: Udp, u: Udp, script: seq<Action>, loss: Loss, limit: nat, target: Option<Addr>, report: Report)
    requires UdpVerdict(u0, u, script, loss, limit, target, Finished(report))
    ensures SocketCarries(u0.sent, u.sent, Undropped(script, loss, |script|), target)
    ensures Meets(u0.inbound, ExpectList(script, |script|))
  {
    var packets, expects := KeptList(script, loss, |script|), ExpectList(script, |script|);
    assert expects <= Seen(u0.inbound) && Deliverable(packets, limit, target);
    assert u.sent == u0.sent + Addressed(packets, target);
    KeptCarries(script, loss, |script|);
    hide *;
    AddressedCarries(packets, Undropped(script, loss, |script|), limit, target);
    SeenMeets(u0.inbound, expects);
    AfterThat(u0.sent, Addressed(packets, target));
    SocketDoes(u0.sent, u.sent, Undropped(script, loss, |script|), target);
  }

  lemma SocketDoes(
      before: seq<(seq<Byte>, Addr)>, after: seq<(seq<Byte>, Addr)>, actions: seq<Action>, target: Option<Addr>)
    requires before <= after && SendAll(after[|before|..], actions, target)
    ensures SocketCarries(before, after, actions, target)
  {
  }

  method RunUdp(sock: UdpEnd, script: seq<Action>, loss: Loss, target: Option<Addr>) returns (r: Outcome)
    modifies sock
    ensures UdpVerdict(old(sock.Now()), sock.Now(), script, loss, sock.limit, target, r)
    ensures !r.Finished? ==> UdpStops(old(sock.Now()), sock.Now(), script, loss, sock.limit, target, r)
    ensures r.Finished? ==>
              && SocketCarries(old(sock.sent), sock.sent, Undropped(script, loss, |script|), target)
              && Meets(old(sock.inbound), ExpectList(script, |script|))
  {
    hide UdpGoing;
    hide UdpVerdict;
    hide UdpStops;
    hide Kept;
    hide KeptList;
    hide Total;
    hide Encoded;
    hide Sends;
    hide Loss.Drops;
    hide Cut;
    hide ExpectList;
    hide Addressed;
    hide Seen;
    hide Deliverable;
    hide Sent;
    hide Undropped;
    hide SocketCarries;
    hide Meets;
    var report := Report(0, 0, 0);
    ghost var u0, limit := sock.Now(), sock.limit;
    var draws := 0;
    var i := 0;
    UdpGoingStarts(u0, script, loss, limit, target);
    while i < |script|
      invariant i <= |script| && draws == Sends(script, i)
      invariant UdpGoing(u0, sock.Now(), report, script, loss, limit, target, i)
    {
      ghost var u := sock.Now();
      SendsStep(script, i);
      match script[i] {
        case ExpectClientBytes(expected) =>
          var received := sock.RecvFrom(RECV_BUF);
          if received.None? {
            WaitingMeans(u0, u, report, script, loss, limit, target, i);
            WaitsThere(u0, u, report, script, loss, limit, target, i);
            return Waiting;
          }
          var got := received.value;
          if got != expected {
            UdpMismatchMeans(u0, u, report, script, loss, limit, target, i, sock.Now());
            UdpMismatchThere(u0, u, report, script, loss, limit, target, i, sock.Now());
            return Stopped(ExpectMismatch(expected, got));
          }
          UdpGoingOn(u0, u, report, script, loss, limit, target, i, sock.Now());
        case Sleep =>
          UdpGoingOn(u0, u, report, script, loss, limit, target, i, sock.Now());
        case _ =>
          var bytes := Encode(script[i]);
          var dropped := loss.Drops(draws);
          draws := draws + 1;
          var res, report' := SendUdp(sock, bytes, report, dropped, target);
          if !res.SentAll? {
            UnsentMeans(u0, u, report, script, loss, limit, target, i);
            UnsentThere(u0, u, report, script, loss, limit, target, i);
            return Stopped(if res.NoTarget? then MissingUdpTarget else PeerIo);
          }
          if dropped {
            UdpGoingDropped(u0, u, report, script, loss, limit, target, i);
          } else {
            UdpGoingKept(u0, u, report, script, loss, limit, target, i, sock.Now());
          }
          report := report';
      }
      report := report.Counted();
      i := i + 1;
    }
    UdpGoingEnds(u0, sock.Now(), report, script, loss, limit, target);
    FinishedDatagrams(u0, sock.Now(), script, loss, limit, target, report);
    r := Finished(report);
  }
}
