/**
  Ownership of raw socket descriptors along one control path.

  A path is described by the log of the things it did with descriptors, in
  order: closing one, handing one to the stream wrapper (which from then on
  owns it), or handing one to the listener wrapper. Replaying the log for one
  descriptor gives its fate: still held, closed, handed off, or misused (used
  again after it was already closed or given away).
 */
module Handles {
  import opened Wrappers
  import opened PeerName

  /** The accept callback a passive listener is registered with. */
  datatype AcceptCallback = AcceptPtcp

  datatype Effect =
      /** close(fd). */
    | Close(fd: int)
      /** new_stream_vconn(name, fd, connect_status, remote_ip, flag): the
          stream wrapper takes the descriptor. `remoteIp` is None where the
          record passed is not an IPv4 address. */
    | Wrap(name: string, fd: int, connectStatus: int, remoteIp: Option<InAddr>, flag: bool)
      /** new_pstream_pvconn(name, fd, accept): the listener wrapper takes the
          descriptor. */
    | Listen(name: string, fd: int, onAccept: AcceptCallback)

  datatype HandleState = Held | Closed | HandedOff | Misused

  /** One effect applied to the state of descriptor `fd`. */
  function Step(s: HandleState, e: Effect, fd: int): HandleState {
    if e.fd != fd then s
    else if s == Held then (if e.Close? then Closed else HandedOff)
    else Misused
  }

  /** The state of `fd` after replaying `effects` from `s`. */
  function Run(s: HandleState, effects: seq<Effect>, fd: int): HandleState
    decreases |effects|
  {
    if |effects| == 0 then s else Run(Step(s, effects[0], fd), effects[1..], fd)
  }

  /** How many effects in the log use `fd`. */
  function Uses(effects: seq<Effect>, fd: int): nat
    decreases |effects|
  {
    if |effects| == 0 then 0
    else (if effects[0].fd == fd then 1 else 0) + Uses(effects[1..], fd)
  }

  /** A descriptor the path held at its start is, at its end, closed or owned
      by a wrapper, and was never used after that. */
  predicate Settled(effects: seq<Effect>, fd: int) {
    Run(Held, effects, fd) in {Closed, HandedOff}
  }

  /** The log touches no descriptor but `fd`. */
  predicate OnlyTouches(effects: seq<Effect>, fd: int) {
    forall e <- effects :: e.fd == fd
  }

  /** A log made of one effect on `fd` settles it: closed by a close,
      handed off by either wrapper. */
  lemma SettledByOne(e: Effect, fd: int)
    requires e.fd == fd
    ensures Run(Held, [e], fd) == (if e.Close? then Closed else HandedOff)
    ensures Settled([e], fd) && OnlyTouches([e], fd)
  {
  }

  lemma {:induction false} MisusedAbsorbs(effects: seq<Effect>, fd: int)
    ensures Run(Misused, effects, fd) == Misused
    decreases |effects|
  {
    if |effects| > 0 {
      MisusedAbsorbs(effects[1..], fd);
    }
  }

  lemma {:induction false} RunReleased(s: HandleState, effects: seq<Effect>, fd: int)
    requires s == Closed || s == HandedOff
    ensures Uses(effects, fd) == 0 ==> Run(s, effects, fd) == s
    ensures Uses(effects, fd) > 0 ==> Run(s, effects, fd) == Misused
    decreases |effects|
  {
    if |effects| > 0 {
      if effects[0].fd == fd {
        MisusedAbsorbs(effects[1..], fd);
      } else {
        RunReleased(s, effects[1..], fd);
      }
    }
  }

  /** The replayed state agrees with counting: a held descriptor stays held
      when nothing uses it, is settled when exactly one effect uses it, and is
      misused when more than one does. So "settled" is "released exactly
      once". */
  lemma {:induction false} RunCounts(effects: seq<Effect>, fd: int)
    ensures Run(Held, effects, fd) == Held <==> Uses(effects, fd) == 0
    ensures Settled(effects, fd) <==> Uses(effects, fd) == 1
    ensures Run(Held, effects, fd) == Misused <==> Uses(effects, fd) >= 2
    decreases |effects|
  {
    if |effects| > 0 {
      if effects[0].fd == fd {
        RunReleased(Step(Held, effects[0], fd), effects[1..], fd);
      } else {
        RunCounts(effects[1..], fd);
      }
    }
  }
}
