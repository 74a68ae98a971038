/**
  The plaintext TCP transport: active open (`tcp_open`), the shared
  descriptor-wrapping step (`new_tcp_vconn`), passive open (`ptcp_open`),
  the accept callback (`ptcp_accept`) and the two class tables.

  The calls into code this transport cannot see are the `World`: what the
  socket helpers, setsockopt, close and the two wrappers answer. Each
  operation returns the C return value together with the log of what it did
  with descriptors.
 */
module VconnTcp {
  import opened Wrappers
  import opened PeerName
  import opened Handles

  /** A POSIX error number; always positive. */
  type Errno = x: int | x > 0 witness 1

  /** Linux's "operation now in progress": a non-blocking connect has begun. */
  const EINPROGRESS: Errno := 115

  /** A system call that reports failure through errno. */
  datatype SysResult = Done | Failed(errno: Errno)

  /** What tcp_open_active gives back: its return code, the descriptor it
      stored (negative when it produced none) and the address it dialled,
      which it stores only when the caller passes somewhere to store it. */
  datatype ActiveOpenResult = ActiveOpenResult(error: int, fd: int, peer: InAddr)

  /** Answers of the collaborators. */
  datatype World = World(
    /** tcp_open_active(suffix, default_port, NULL, &fd) */
    openActive: (string, Port) -> ActiveOpenResult,
    /** tcp_open_passive(suffix, default_port): a descriptor or a negated errno */
    openPassive: (string, Port) -> int,
    /** setsockopt(fd, IPPROTO_TCP, TCP_NODELAY, ...) */
    setNoDelay: int -> SysResult,
    /** close(fd); a failure overwrites errno */
    close: int -> SysResult,
    /** return value of new_stream_vconn */
    streamStatus: int,
    /** return value of new_pstream_pvconn */
    listenStatus: int)

  /** A C return value (0 or a positive errno) and the descriptor log. */
  datatype Outcome = Outcome(status: int, effects: seq<Effect>)

  /** True when the log hands a descriptor to the stream wrapper. */
  predicate Wraps(effects: seq<Effect>) {
    exists e <- effects :: e.Wrap?
  }

  /** What the wrapping step promises about a descriptor it was given: it
      is released exactly once and nothing else is touched; it is wrapped
      exactly when TCP_NODELAY took, and then the wrapper's status is
      returned; otherwise it is closed and a positive errno is returned. */
  predicate WrapStepOutcome(r: Outcome, fd: int, w: World) {
    && Settled(r.effects, fd) && OnlyTouches(r.effects, fd)
    && (Wraps(r.effects) <==> w.setNoDelay(fd).Done?)
    && (Wraps(r.effects) ==> r.status == w.streamStatus)
    && (!Wraps(r.effects) ==> r.effects == [Close(fd)] && r.status > 0)
  }

  /** Disables Nagle on `fd` and hands it to the stream wrapper; when
      setsockopt fails the descriptor is closed and errno returned instead. */
  function NewTcpVconn(name: string, fd: int, connectStatus: int,
                       remoteIp: Option<InAddr>, w: World): (r: Outcome)
    requires fd >= 0
    ensures WrapStepOutcome(r, fd, w)
    ensures w.setNoDelay(fd).Failed? && w.close(fd).Done? ==>
              r.status == w.setNoDelay(fd).errno
    ensures forall e <- r.effects | e.Wrap? ::
              e == Wrap(name, fd, connectStatus, remoteIp, true)
  {
    match w.setNoDelay(fd)
    case Failed(errno) =>
      var status := match w.close(fd) case Done => errno case Failed(e) => e;
      SettledByOne(Close(fd), fd);
      Outcome(status, [Close(fd)])
    case Done =>
      SettledByOne(Wrap(name, fd, connectStatus, remoteIp, true), fd);
      Outcome(w.streamStatus, [Wrap(name, fd, connectStatus, remoteIp, true)])
  }

  /** Active open exactly as written: the `sin` handed to the wrapping step
      is a local that nothing initialises (tcp_open_active is given NULL for
      its address argument), so the remote address recorded is whatever
      `stack` held. */
  function TcpOpenAsWritten(name: string, suffix: string, w: World, stack: InAddr): (r: Outcome)
    ensures var dial := w.openActive(suffix, OFP_TCP_PORT);
            && (dial.fd < 0 ==> r.status == dial.error && r.effects == [])
            && (dial.fd >= 0 ==> WrapStepOutcome(r, dial.fd, w))
            && (forall e <- r.effects | e.Wrap? ::
                  e.name == name && e.connectStatus == dial.error
                  && e.remoteIp == Some(stack) && e.flag)
  {
    var dial := w.openActive(suffix, OFP_TCP_PORT);
    if dial.fd >= 0 then NewTcpVconn(name, dial.fd, dial.error, Some(stack), w)
    else Outcome(dial.error, [])
  }

  /** The defect: whenever the dial produced a descriptor and the wrapper is
      reached, the recorded remote address is the stale stack contents, not
      the address that was dialled. */
  lemma ActiveRemoteIpIsUninitialised(name: string, suffix: string, w: World, stack: InAddr)
    requires w.openActive(suffix, OFP_TCP_PORT).fd >= 0
    requires w.setNoDelay(w.openActive(suffix, OFP_TCP_PORT).fd).Done?
    requires stack != w.openActive(suffix, OFP_TCP_PORT).peer
    ensures exists e <- TcpOpenAsWritten(name, suffix, w, stack).effects ::
              e.Wrap? && e.remoteIp != Some(w.openActive(suffix, OFP_TCP_PORT).peer)
  {
    var r := TcpOpenAsWritten(name, suffix, w, stack);
    assert r.effects[0] in r.effects;
  }

  /** Active open: dial `suffix` (default port OFP_TCP_PORT) and wrap the
      descriptor, seeding the connection with the dial's own status, which may
      be "in progress". With no descriptor the dial's error is returned and
      nothing is closed or wrapped. Unlike the code as written, the address
      the dial stored is the one recorded for the connection. */
  function TcpOpen(name: string, suffix: string, w: World): (r: Outcome)
    ensures var dial := w.openActive(suffix, OFP_TCP_PORT);
            && (dial.fd < 0 ==> r.status == dial.error && r.effects == [])
            && (dial.fd >= 0 ==> WrapStepOutcome(r, dial.fd, w))
            && (forall e <- r.effects | e.Wrap? ::
                  e.name == name && e.connectStatus == dial.error
                  && e.remoteIp == Some(dial.peer) && e.flag)
  {
    var dial := w.openActive(suffix, OFP_TCP_PORT);
    if dial.fd >= 0 then NewTcpVconn(name, dial.fd, dial.error, Some(dial.peer), w)
    else Outcome(dial.error, [])
  }

  /** Passive open: listen on `suffix` (default port OFP_TCP_PORT). A negative
      result from the socket helper is a negated errno and comes back
      positive; otherwise the descriptor goes to a listener named "ptcp" whose
      accept callback is `PtcpAccept`. */
  function PtcpOpen(suffix: string, w: World): (r: Outcome)
    ensures var fd := w.openPassive(suffix, OFP_TCP_PORT);
            && (fd < 0 ==> r.status > 0 && r.status == -fd && r.effects == [])
            && (fd >= 0 ==>
                  Settled(r.effects, fd) && OnlyTouches(r.effects, fd)
                  && r.status == w.listenStatus
                  && (forall e <- r.effects :: e.Listen? && e.name == "ptcp" && e.onAccept == AcceptPtcp))
  {
    var fd := w.openPassive(suffix, OFP_TCP_PORT);
    if fd < 0 then Outcome(-fd, [])
    else
      SettledByOne(Listen("ptcp", fd, AcceptPtcp), fd);
      Outcome(w.listenStatus, [Listen("ptcp", fd, AcceptPtcp)])
  }

  /** Accept callback: names the connection after the peer and wraps the
      accepted descriptor through the same path as an active open, with
      connect status 0 (an accepted socket is already connected). */
  function PtcpAccept(fd: int, sa: PeerAddr, w: World): (r: Outcome)
    requires fd >= 0
    ensures WrapStepOutcome(r, fd, w)
    ensures forall e <- r.effects | e.Wrap? ::
              e.connectStatus == 0 && e.name == Name(sa) && e.flag
              && (IsInet(sa) ==> e.remoteIp == Some(sa.addr))
  {
    var remoteIp := if IsInet(sa) then Some(sa.addr) else None;
    NewTcpVconn(Name(sa), fd, 0, remoteIp, w)
  }

  /** Every path releases each descriptor it produced exactly once: the
      settled state of the operations' contracts is the single-use count. */
  lemma ReleasedExactlyOnce(name: string, suffix: string, fd: int, sa: PeerAddr, w: World)
    ensures var dial := w.openActive(suffix, OFP_TCP_PORT);
            dial.fd >= 0 ==> Uses(TcpOpen(name, suffix, w).effects, dial.fd) == 1
    ensures var lfd := w.openPassive(suffix, OFP_TCP_PORT);
            lfd >= 0 ==> Uses(PtcpOpen(suffix, w).effects, lfd) == 1
    ensures fd >= 0 ==> Uses(PtcpAccept(fd, sa, w).effects, fd) == 1
  {
    var dial := w.openActive(suffix, OFP_TCP_PORT);
    RunCounts(TcpOpen(name, suffix, w).effects, dial.fd);
    var lfd := w.openPassive(suffix, OFP_TCP_PORT);
    RunCounts(PtcpOpen(suffix, w).effects, lfd);
    if fd >= 0 {
      RunCounts(PtcpAccept(fd, sa, w).effects, fd);
    }
  }

  /** A dial that is still in progress is not a failure of the open as
      written: when the descriptor exists and TCP_NODELAY succeeds, the
      connection is built with the in-progress code as its connect status
      and the open returns what the stream wrapper returns, whatever the
      stack held. */
  lemma InProgressIsNotFailure(name: string, suffix: string, w: World, stack: InAddr)
    requires w.openActive(suffix, OFP_TCP_PORT).error == EINPROGRESS
    requires w.openActive(suffix, OFP_TCP_PORT).fd >= 0
    requires w.setNoDelay(w.openActive(suffix, OFP_TCP_PORT).fd).Done?
    ensures var dial := w.openActive(suffix, OFP_TCP_PORT);
            TcpOpenAsWritten(name, suffix, w, stack)
              == Outcome(w.streamStatus, [Wrap(name, dial.fd, EINPROGRESS, Some(stack), true)])
  {
  }

  /** The correction changes nothing but the recorded address: the open as
      written behaves exactly like the corrected one whenever the stack
      happens to hold the dialled address. */
  lemma CorrectionOnlyChangesAddress(name: string, suffix: string, w: World)
    ensures TcpOpenAsWritten(name, suffix, w, w.openActive(suffix, OFP_TCP_PORT).peer)
            == TcpOpen(name, suffix, w)
  {
  }

  /** The functions a class table can point at. */
  datatype Hook = TcpOpenHook | PtcpOpenHook

  /** struct vconn_class: a name token, then open, close, connect, recv, send
      and wait hooks; an absent hook means the generic behaviour. */
  datatype VconnClass = VconnClass(
    name: string, open: Option<Hook>, close: Option<Hook>, connect: Option<Hook>,
    recv: Option<Hook>, send: Option<Hook>, wait: Option<Hook>)

  /** struct pvconn_class: a name token, then listen, close, accept and wait
      hooks. */
  datatype PvconnClass = PvconnClass(
    name: string, listen: Option<Hook>, close: Option<Hook>,
    accept: Option<Hook>, wait: Option<Hook>)

  const TcpVconnClass := VconnClass("tcp", Some(TcpOpenHook), None, None, None, None, None)

  const PtcpPvconnClass := PvconnClass("ptcp", Some(PtcpOpenHook), None, None, None)

  /** The tables carry the tokens "tcp" and "ptcp", set their open hook to
      this transport's open function and leave every other hook empty; the
      listener `PtcpOpen` creates and the names `PtcpAccept` gives carry the
      same tokens. */
  lemma ClassTables(suffix: string, sa: PeerAddr, w: World)
    ensures TcpVconnClass.name == "tcp" && TcpVconnClass.open == Some(TcpOpenHook)
    ensures TcpVconnClass.close.None? && TcpVconnClass.connect.None? && TcpVconnClass.recv.None?
            && TcpVconnClass.send.None? && TcpVconnClass.wait.None?
    ensures PtcpPvconnClass.name == "ptcp" && PtcpPvconnClass.listen == Some(PtcpOpenHook)
    ensures PtcpPvconnClass.close.None? && PtcpPvconnClass.accept.None? && PtcpPvconnClass.wait.None?
    ensures forall e <- PtcpOpen(suffix, w).effects :: e.name == PtcpPvconnClass.name
    ensures Name(sa)[..3] == TcpVconnClass.name
  {
  }
}
