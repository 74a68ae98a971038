# Plaintext TCP transport for the OpenFlow control channel

A Dafny model of `lib/vconn-tcp.c`, the transport plugin that gives a switch
its plaintext TCP connections to and from a controller:

- `tcp_open` dials a controller, `new_tcp_vconn` disables Nagle's algorithm
  on the resulting socket and hands it to the generic stream connection;
- `ptcp_open` opens a listening socket and registers `ptcp_accept` as its
  accept callback; `ptcp_accept` names each accepted connection after its
  peer (`tcp:203.0.113.5:6634`, or `tcp:203.0.113.5` on the default OpenFlow
  port 6633, or the bare `tcp`) and wraps it through `new_tcp_vconn`;
- `tcp_vconn_class` and `ptcp_pvconn_class` are the class tables that register
  the transport under the tokens `tcp` and `ptcp`.

Files:

- `decimal.dfy` (`Decimal`): printf's unsigned decimal conversion, its
  inverse, and digit-count bounds.
- `fields.dfy` (`Fields`): splitting a string at a separator, used to read
  names back.
- `peer_name.dfy` (`PeerName`): the peer address record and the name
  `ptcp_accept` formats from it, with a parser and a round-trip proof.
- `handles.dfy` (`Handles`): a log of what a path did with descriptors (close,
  hand to the stream wrapper, hand to the listener wrapper). Replaying the log
  gives each descriptor's fate: held, closed, handed off or misused.
- `vconn_tcp.dfy` (`VconnTcp`): the operations and the class tables. The
  collaborators the file calls but does not define are a `World` value.
  `World` holds the answers of `tcp_open_active`, `tcp_open_passive`,
  `setsockopt`, `close`, `new_stream_vconn` and `new_pstream_pvconn`. Each
  operation returns the C return value and the descriptor log.
- `wrappers.dfy` (`Wrappers`): `Option`.

Constants the file takes from headers that are not part of this model:
`OFP_TCP_PORT` = 6633, `AF_INET` = 2, `sizeof(struct sockaddr_in)` = 16 and
`EINPROGRESS` = 115 (Linux values). `IP_FMT`/`IP_ARGS` are assumed to be the
dotted decimal of the four address bytes in network order. `struct
pvconn_class`'s hooks are taken to be listen, close, accept and wait.

Two behaviours of the code worth noting:

- Accepted connections reach `new_stream_vconn` with the same `true` flag as
  dialled ones, because `ptcp_accept` goes through `new_tcp_vconn`. They are
  not tagged as passively accepted.
- `tcp_open` wraps whenever the dial produced a descriptor (`fd >= 0`),
  whatever status code came with it. The connection is seeded with that
  code. The code does not single out an "in progress" code as the only
  non-fatal one.

## Model

| member | source | states |
|---|---|---|
| Decimal.Render | lib/vconn-tcp.c:108-110 | the numeral printf writes for an octet or port is non-empty, all digits, and starts with '0' only for zero |
| Decimal.ParseRender | lib/vconn-tcp.c:108-110 | reading a rendered numeral back gives the number: rendering is injective |
| Decimal.RenderValue | lib/vconn-tcp.c:108-110 | every canonical numeral is the rendering of its value, so rendering and parsing are inverse bijections |
| Decimal.Parse | lib/vconn-tcp.c:108-110 | a numeral is read back exactly when it is in printf's form (digits, no leading zero), and what is read renders back to the same string |
| Decimal.RenderLength | lib/vconn-tcp.c:105-110 | a number below 10^k renders in at most k digits |
| Decimal.RenderWidths | lib/vconn-tcp.c:108-110 | an octet renders in at most 3 characters and a 16-bit port in at most 5 |
| PeerName.DottedQuad | lib/vconn-tcp.c:108 | the dotted address is 7 to 15 characters long and holds no ':' |
| PeerName.DottedQuadRoundTrip | lib/vconn-tcp.c:108 | parsing the dotted address gives back the four octets in network order |
| PeerName.Name | lib/vconn-tcp.c:104-114 | every accepted connection's name is at most 25 characters, so with its terminator it fits the 128-byte buffer and neither sprintf overflows |
| PeerName.NameShape | lib/vconn-tcp.c:107-114 | an IPv4 record of the right size gives a name starting "tcp:"; any other record (wrong size or family) gives exactly "tcp" |
| PeerName.PortSuffixIffNonDefault | lib/vconn-tcp.c:109-111 | for an IPv4 peer a ":port" suffix is present if and only if the port is not OFP_TCP_PORT; on the default port the name is exactly "tcp:" and the address |
| PeerName.NameRoundTrip | lib/vconn-tcp.c:107-114 | the name of an IPv4 peer parses back to its address and port; the fallback name parses to nothing |
| PeerName.ParseDottedQuadExact | lib/vconn-tcp.c:108 | any string the dotted-address parser accepts is exactly the printf rendering of the address it returns |
| PeerName.ParseNameExact | lib/vconn-tcp.c:107-111 | any string the name parser accepts is exactly the name of the IPv4 peer it returns, so together with the round trip the IPv4 names are precisely the strings in printf's form with the port suffix only off the default port |
| PeerName.NameInjective | lib/vconn-tcp.c:107-111 | two IPv4 peers with the same name have the same address and port |
| PeerName.NameExamples | lib/vconn-tcp.c:107-114 | 203.0.113.5 renders as "tcp:203.0.113.5:6634" on port 6634 and as "tcp:203.0.113.5" on 6633; a non-IPv4 record renders as "tcp" |
| Handles.RunCounts | lib/vconn-tcp.c:46-54 | replaying a descriptor log leaves a descriptor settled (closed or handed off) exactly when one effect uses it, still held when none does, misused when two or more do |
| VconnTcp.NewTcpVconn | lib/vconn-tcp.c:39-55 | the descriptor is released exactly once and nothing else is touched; if TCP_NODELAY fails it is closed, a positive errno is returned (setsockopt's unless close failed too) and the stream wrapper is never called; otherwise it goes to the wrapper unchanged with the given name, connect status and the flag true, and the wrapper's status is returned |
| VconnTcp.TcpOpenAsWritten | lib/vconn-tcp.c:57-70 | the code as written: with no descriptor the dial's error is returned and nothing is closed or wrapped; with one, it is released exactly once, wrapped exactly when TCP_NODELAY succeeds (then the wrapper's status is returned, otherwise it is closed and a positive errno returned), under the caller's name, seeded with the dial's status code and the flag true, and the remote address recorded is the uninitialised stack contents |
| VconnTcp.ActiveRemoteIpIsUninitialised | lib/vconn-tcp.c:60-65 | as written, whenever a dialled connection reaches the stream wrapper its recorded remote address can differ from the address that was dialled |
| VconnTcp.TcpOpen | lib/vconn-tcp.c:57-70 | the corrected open (see Findings), identical to the code except for the recorded address: with no descriptor from the dial, its error is returned and nothing is closed or wrapped; with one, it is released exactly once, wrapped exactly when TCP_NODELAY succeeds (then the wrapper's status is returned, otherwise it is closed and a positive errno returned), under the caller's name, seeded with the dial's status code (possibly "in progress") and the flag true, recording the dialled address |
| VconnTcp.InProgressIsNotFailure | lib/vconn-tcp.c:63-65 | in the code as written, a dial reporting EINPROGRESS with a descriptor is not treated as failure: whatever the stack held, the connection is built with that status and the wrapper's result returned |
| VconnTcp.CorrectionOnlyChangesAddress | lib/vconn-tcp.c:57-70 | the corrected open and the code as written agree whenever the uninitialised stack happens to hold the dialled address, so the correction changes only the recorded address |
| VconnTcp.PtcpOpen | lib/vconn-tcp.c:87-98 | a negative result from the passive open becomes the positive error -fd and no listener is created; otherwise the descriptor goes, exactly once, to a listener named "ptcp" with the ptcp accept callback |
| VconnTcp.PtcpAccept | lib/vconn-tcp.c:100-116 | an accepted descriptor is released exactly once through the same wrapping path: wrapped exactly when TCP_NODELAY succeeds (then the wrapper's status is returned, otherwise it is closed and a positive errno returned), with connect status 0, flag true, named after the peer, and with the peer's address recorded for an IPv4 record |
| VconnTcp.ReleasedExactlyOnce | lib/vconn-tcp.c:46-115 | on the active, passive and accept paths, every descriptor produced is used by exactly one close or hand-off |
| VconnTcp.ClassTables | lib/vconn-tcp.c:72-124 | the class tables carry the tokens "tcp" and "ptcp", set only the open hook, and match the listener name and the prefix of accepted connections' names |

## Left out

- Registry lookup by prefix and the rejection of duplicate tokens: `vconn.c` is not part of this model.
- The stream and listener wrappers (`new_stream_vconn`, `new_pstream_pvconn`): their buffered send/receive/wait, connect polling, accept loop and teardown are in `vconn-stream.c`, which is not part of this model. Their return values are `World` parameters. What they do with a descriptor they were handed is theirs.
- Socket system calls and socket helpers (`tcp_open_active`, `tcp_open_passive`, `setsockopt`, `close`): their results are `World` parameters, because their code is operating-system or library code.
- Logging (`VLOG_ERR`, `strerror`): diagnostic output with no behavioural contract.
- VconnTcp.NewTcpVconn: assumes logging leaves errno alone, so the value returned after a failed setsockopt is setsockopt's errno, or close's if close fails.
- VconnTcp.PtcpAccept: for a record that is not IPv4, the source still passes the bytes at the address offset as the remote IP. The model records no address there, because those bytes are not an address.
- Byte order (`htons`/`ntohs`): the port is a host-order 16-bit number and the address four octets. Comparing network-order ports equals comparing host-order ports.
- Accept-time errors and the accept loop itself: they are in `vconn-stream.c`.

## Findings

| source | as written | input that shows it | evidently intended | confidence | as-written member | corrected member |
|---|---|---|---|---|---|---|
| lib/vconn-tcp.c:60-65 | `tcp_open` passes NULL as `tcp_open_active`'s address argument. It then passes the never-initialised local `sin` to `new_tcp_vconn`, which reads `sin->sin_addr.s_addr` as the connection's remote IP | any active open where the dial yields a descriptor and TCP_NODELAY succeeds, with the stack holding anything but the dialled address | let `tcp_open_active` fill `sin` (pass `&sin`), so that the dialled peer's address is recorded | high; not executed | VconnTcp.TcpOpenAsWritten, VconnTcp.ActiveRemoteIpIsUninitialised | VconnTcp.TcpOpen |
