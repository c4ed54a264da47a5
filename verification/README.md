# A verified model of the amgi proxy and tunnel

The repository holds a SOCKS5 and HTTP CONNECT proxy (`amgi_proxy`) and a TLS tunnel
(`amgi_tunnel`), both written as chains of asynchronous operations without locks.  Nothing in
them keeps two writes on one socket apart, or one connection away from another's buffers, except
that every completion handler starts the right next operation.  This project models that
machinery and proves what it achieves over all runs and interleavings.

## How it is built

Values first.  `Transport` is a stream with its two fixed buffers of 0x4000 bytes and the
multiset of its outstanding operations; an event is bytes arriving, bytes leaving, or the handler
of one outstanding operation running with success or any error.  `Sessions`, `Socks5State` and
`HttpState` are the session, the manager's commands and the state handlers; `Engine` puts them
together into one connection and its runs; `ProxySystem` is the acceptor and all connections.
`Socks5` and `HttpHead` are the packet and head readers, with their loops as methods.

Then what holds of every run.  `Channel`, `Duplex` and `Relay` relate a relaying connection to
two abstract pipes; `Handshake` and `Progress` cover the phases before; `Closing` covers what is
left of a closed connection and `Halting` its sockets.  `Socks5Runs` and `HttpRuns` carry the invariants through every
state, `Socks5Theorems` and `HttpTheorems` draw the conclusions, `HttpOverlap` shows exactly which
HTTP sessions are free of overlapping writes, and `HttpForwarding` what the others still guarantee.
`Service` has the other side of all this: runs in which requests are answered and bytes get through.

Then the objects.  `StreamObjects`, `StreamManagers`, `TransferHandlers`, `Socks5Handlers`,
`HttpHandlers`, `StreamCallbacks`, `StreamEvents` and `ProxyServers` are the program's classes
with their arrays, fields and maps updated in place.  Each method is proved to do to its objects
what the value model says, and `ProxyServers` ends with the whole server: one accept or one event
is exactly one step of `ProxySystem`, and all other connections stay exactly as they were.  The one
exception that a handler can throw ends the program, in the values and in the objects.

The tunnel has its own value model (`Tunnel`), invariants (`TunnelRuns`), results
(`TunnelTheorems`) and objects (`TunnelObjects`), because one buffer per chain is both read into
and written from and nothing gates its handlers by an identifier.  `TunnelSystem` and
`TunnelServers` are all its sessions and its server.

`dafny verify dfyconfig.toml` checks all of it.

## Where the code differs from what one would expect

- The SOCKS5 decoder asks for ten bytes, so a lone request for a domain of one or two bytes, which
  RFC 1928 allows, is refused (`Socks5.ShortDomainsRefused`).
- After answering that no offered method is supported, the SOCKS5 session still waits for a request
  (`Socks5Theorems.EveryGreetingIsAnswered`) and connects for it
  (`Socks5Theorems.RefusedGreetingExample`).
- An HTTP session of another method than CONNECT starts two server reads once its request has been
  passed on, and no client read.  It can then have two writes outstanding on one stream and forward
  corrupted bytes (`HttpOverlap.SoundExactlyForConnect`, `HttpOverlap.GetGoesWrongExample`), so the
  relay results are stated for CONNECT sessions.
- One character after `Host:` is skipped whatever it is, and the name is found anywhere in a line:
  `Host:example.com` leads to "xample.com" and `X-Forwarded-Host: a` to "a"
  (`HttpHead.TightHeadDecision`, `HttpHead.PlainHeadRoundTrip`).
- When a request of another method takes its host from a header line that ends at `Host:`, the view
  of the value has length `size_t(-1)`; copying it (`http.cpp:114`) throws, no handler catches the
  exception, and the program ends (`main.cpp:135`) with all its connections.
  `HttpHead.ThrowsExactlyOutside` and `ProxySystem.EndsExactlyByHead` say exactly when.
- The SOCKS5 decoder accepts an IPv6 or domain request as soon as it has ten bytes, even if it
  announces more, and takes the rest from the memory past the chunk; where the session connects to then depends on
  that memory (`Socks5.StandsAloneExactlyIfComplete`,
  `Socks5Theorems.TargetStandsAloneExactlyIfComplete`, `Socks5.TruncatedExample`).
- The total that an HTTP session of another method logs does not count the head it has forwarded
  (`HttpForwarding.TotalsAtClose`).
- A CONNECT head is only accepted with at least one nonempty header line
  (`HttpHead.ConnectHeadRoundTrip`).
- The service of a request of another method is the part of its target before the first colon
  (`HttpHead.PlainHeadDecision`).

## Model

| member | source | states |
|---|---|---|
| Socks5Theorems.OutputGrammar | amgi_proxy/socks5/socks5_state.cpp:77-157 | In every run and interleaving, the bytes sent on the server stream are a prefix of the method answer, the reply and the bytes the remote host sent, in that order; those sent on the client stream are a prefix of the chunks read after the request, and all chunks together are a prefix of the bytes that arrived on the server stream; each stream has at most one write outstanding and its write buffer holds the very next bytes; nothing goes to the remote host before the success reply has left completely, and nothing ever after a failure |
| Socks5Theorems.ForwardsWhatArrived | amgi_proxy/socks5/socks5_state.cpp:145-148 | In every run of a session that has read its greeting and request, these two followed by what the client stream has sent are a prefix of what arrived on the server stream |
| Socks5Theorems.TotalsAtClose | amgi_proxy/socks5/socks5_stream_manager.cpp:15-33 | Whatever event closes a session: in the transfer mode each total that is logged overstates what was delivered by at least 0 and at most 0x4000 bytes, and before it both are zero and nothing was forwarded |
| Socks5Theorems.EveryGreetingIsAnswered | amgi_proxy/socks5/socks5_state.cpp:77-87 | In every run, each method-selection chunk is answered with 5 and 0 if it offers method 0 and with 5 and 0xff otherwise, and in both cases the session goes on to the request |
| Socks5Theorems.AnyGreetingMayConnect | amgi_proxy/socks5/socks5_state.cpp:77-115 | For every greeting and every accepted request there is a run from the acceptance in which that greeting has been answered and the session is connecting |
| Socks5Theorems.RefusedGreetingExample | amgi_proxy/socks5/socks5_state.cpp:77-115 | The greeting 5, 1, 2 is answered by 5 and 0xff, and its session is connecting after the next request |
| Socks5Theorems.SingleToken | amgi_proxy/socks5/socks5_state.cpp:77-157 | A live session has exactly one outstanding operation before the transfer mode; in it, exactly one of {server read, client write} and one of {client read, server write}; each byte counter is the bytes delivered plus those in flight, at most 0x4000 of them, and none while that direction is at a read |
| Socks5Theorems.RelaysThroughTwoPipes | amgi_proxy/socks5/socks5_state.cpp:135-157 | From the transfer mode on, every run in which the session stays open is step by step a run of two independent lossless pipes holding at most one chunk each, and after every single event the ends of the pipes are the bytes read and sent on the two sockets |
| Socks5Theorems.NeverStuck | amgi_proxy/socks5/socks5_state.cpp:59-157 | A live session has exactly one outstanding operation before the transfer mode and exactly two in it, and no event lowers that number unless it closes the session: a completion that met an empty default handler would |
| Socks5Theorems.HandshakeEnds | amgi_proxy/socks5/socks5_state.cpp:77-139 | After at most five manager callbacks, over TCP and over TLS, a session transfers data or is closed |
| Socks5Theorems.ClosedSessionsDie | amgi_proxy/socks5/socks5_stream_manager.cpp:15-33 | After its close a session has at most three completions left |
| Socks5Theorems.ReplyKeepsShape | amgi_proxy/socks5/socks5_state.cpp:14-35 | While connecting and answering, the stored reply is the request chunk, valid and at least ten bytes long, in which only byte 1 may differ: 0 after success, one of 1, 3, 4, 5, 6 after a failure |
| Socks5Theorems.ConnectsWhereAsked | amgi_proxy/socks5/socks5_state.cpp:93-115 | A session that reads an encoded CONNECT request starts connecting to exactly the encoded host and port, provided the chunk has ten bytes, and closes otherwise |
| Socks5Theorems.TargetStandsAloneExactlyIfComplete | amgi_proxy/socks5/socks5_state.cpp:93-115 | In every run, a session that is given an accepted request starts connecting, and where to does not depend on the memory past the request if and only if the request is complete |
| Socks5Theorems.IncompleteRequestsDiverge | amgi_proxy/socks5/socks5_state.cpp:93-115 | For every greeting and every accepted incomplete request there are two runs in which the same bytes arrived and the sessions connect to different places |
| Socks5Theorems.EveryAttemptIsAnswered | amgi_proxy/socks5/socks5_state.cpp:117-128 | In every run, the end of a connection attempt starts the write of the request chunk with byte 1 replaced, by 0 after success and by the code of the error otherwise, and only success moves the session on |
| Service.Socks5Serves | amgi_proxy/socks5/socks5_state.cpp:77-157 | For every greeting and accepted request and all chunks x and y there is a run from the acceptance in which the session answers with success, has sent x to the remote host and y back, and is still open |
| Socks5Theorems.Socks5Step | amgi_proxy/socks5/socks5_state.cpp:59-157 | The invariant of all SOCKS5 states is kept by every event |
| HttpTheorems.OutputGrammar | amgi_proxy/http/http_state.cpp:63-144 | The same output grammar for CONNECT sessions, with the 200 reply first; a session of another head sends its client at most a prefix of the 500 reply, and not a byte once it has tried to connect |
| HttpTheorems.ForwardsWhatArrived | amgi_proxy/http/http_state.cpp:129-133 | In every run of a CONNECT session, its head followed by what the client stream has sent is a prefix of what arrived on the server stream |
| HttpTheorems.TotalsAtClose | amgi_proxy/http/http_stream_manager.cpp:15-33 | Whatever event closes a CONNECT session: in the transfer mode each total that is logged overstates what was delivered by at least 0 and at most 0x4000 bytes, and before it both are zero and nothing was forwarded |
| HttpTheorems.MarkerOverRuns | amgi_proxy/http/http_state.cpp:86-107 | In every run, while the session connects, its request line has three fields of which the first is one of GET, POST, DELETE, UPDATE, HEAD and CONNECT, and the stored response is the 200 marker exactly when it is CONNECT |
| HttpTheorems.EveryHeadIsDecided | amgi_proxy/http/http_state.cpp:63-96 | In every run, a head handed to a waiting session is answered by the 500 reply and a close, or starts connecting to the decided host and service, or ends the program, as its text decides |
| HttpTheorems.PlainConnectsWhereAsked | amgi_proxy/http/http_state.cpp:63-96 | A session that reads a printed head of any of the other five methods, with a line that names a host anywhere, starts connecting to the scheme of its target and to what follows "Host:" and one more character; nothing after the name ends the program, one character alone is answered by the 500 reply |
| Service.ConnectServes | amgi_proxy/http/http_state.cpp:63-144 | For every forwarded CONNECT head and all chunks x and y there is a run from the acceptance in which the session answers 200, has sent x to the remote host and y back, and is still open |
| HttpTheorems.ConnectsWhereAsked | amgi_proxy/http/http_state.cpp:63-96 | A session that reads a printed CONNECT head starts connecting to exactly its host and port if there is a nonempty header line, and answers with the 500 reply and closes otherwise |
| HttpTheorems.RelaysThroughTwoPipes | amgi_proxy/http/http_state.cpp:116-144 | From the transfer mode on, an open CONNECT session is a run of the same two pipes as a SOCKS5 session, which show at every connection on the way |
| HttpTheorems.NeverStuck | amgi_proxy/http/http_state.cpp:45-144 | A live session of any method has exactly one outstanding operation before the transfer mode and exactly two in it, and no event lowers that number unless it closes the session or ends the program; in a CONNECT session the two are one for each direction, with the same byte accounting as SOCKS5 |
| HttpTheorems.HandshakeEnds | amgi_proxy/http/http_state.cpp:63-121 | After at most three manager callbacks a session transfers data or is closed |
| HttpTheorems.ClosedSessionsDie | amgi_proxy/http/http_stream_manager.cpp:15-33 | After its close a session of any method has at most three completions left |
| HttpTheorems.HttpStep | amgi_proxy/http/http_state.cpp:45-144 | The invariant of all HTTP states, CONNECT or not, is kept by every event |
| HttpOverlap.SoundExactlyForConnect | amgi_proxy/http/http_state.cpp:98-121 | For every session that has started connecting: in all of its runs no two writes overlap if and only if its head names CONNECT, and in all of them the forwarded bytes stay in order if and only if it does |
| HttpForwarding.HeadGoesFirst | amgi_proxy/http/http_state.cpp:98-133 | In every run of a session of another method, what has gone to the remote host is a prefix of the head, or begins with the whole head, and is never longer than what was read |
| HttpForwarding.BytesAreCounted | amgi_proxy/http/http_state.cpp:109-133 | While such a session transfers data, its head has gone out intact, and the bytes sent and those its outstanding writes still hold are together as many as the head has and the session has counted |
| HttpForwarding.TotalsAtClose | amgi_proxy/http/http_stream_manager.cpp:15-33 | Whatever event closes such a session: its head is not in the logged total, which otherwise overstates delivery by at most two chunks; nothing was counted or sent back to the client |
| HttpOverlap.PlainGoesWrong | amgi_proxy/http/http_state.cpp:109-114 | For every session of another method there is a run to two overlapping client writes, and on to a corrupted forward |
| HttpOverlap.ForwardedHeadsConnect | amgi_proxy/http/http_state.cpp:63-96 | Every head that is forwarded is reached: some run leads a session from its acceptance to connecting for it |
| HttpOverlap.ThrowingHeadsArrive | amgi_proxy/http/http_state.cpp:63-71 | Every head that throws is reached, too: some run leads a session to an event that ends the program |
| HttpOverlap.EveryPlainRequestGoesWrong | amgi_proxy/http/http_state.cpp:63-114 | Every request of another method of the form scheme:path with one line that names a host leads some session from its acceptance to connecting, and from there both to overlapping writes and to a corrupted forward |
| HttpOverlap.GetGoesWrongExample | amgi_proxy/http/http_state.cpp:63-114 | A concrete one: GET http://h HTTP/1.1 with the header line Host: h |
| Relay.RelayRun | amgi_proxy/socks5/socks5_state.cpp:135-157 | A run of a relaying connection that is open at its end refines, step by step, the abstract machine of two lossless pipes, and every connection on the way shows at the pipes of its step |
| Relay.RelayIsFifo | amgi_proxy/socks5/socks5_state.cpp:141-157 | What leaves either end of a relay is a prefix of what entered the other |
| Relay.RelayCounts | amgi_proxy/socks5/socks5_state.cpp:145-157 | The totals kept by the session overstate delivery by exactly the bytes in flight |
| Channel.PipeStepIsLossless | amgi_proxy/socks5/socks5_state.cpp:141-157 | The abstract pipe loses and reorders nothing and holds at most one chunk |
| Closing.ClosedStays | amgi_proxy/socks5/socks5_stream_manager.cpp:40-50 | Whatever happens next, a closed session stays closed and is given no chunk to read |
| Closing.ClosedWindsDown | amgi_proxy/transport/tls/tls_server_stream.cpp:57-79 | Every completion after the close, those started by a TLS stop included, uses up weight, and nothing adds any |
| Closing.ClosedDiesOut | amgi_proxy/socks5/socks5_stream_manager.cpp:15-33 | A closed connection completes at most as many operations as it weighs |
| Halting.NothingStaysOpen | amgi_proxy/transport/tls/tls_server_stream.cpp:57-79 | In every run of either protocol: the sockets of an open session have not been shut down or begun to close; those of a closed one have been shut down if they are TCP, and a TLS socket is closed unless both of its closing operations are still outstanding, so with nothing outstanding it is closed |
| Halting.CloseHaltsBoth | amgi_proxy/socks5/socks5_stream_manager.cpp:15-33 | The event that closes a session starts exactly one shutdown and one empty write on a TLS stream, and shuts down TCP sockets |
| Halting.EitherCloses | amgi_proxy/transport/tls/tls_server_stream.cpp:65-79 | Each of the two, failed or not, closes the TLS socket when it is over |
| ProxySystem.Projection | amgi_proxy/socks5/socks5_stream_manager.cpp:15-126 | Every run of the manager with any number of sessions, up to the event that ends the program if there is one, is seen from one identifier a run of that session alone |
| ProxySystem.EndsExactlyByHead | amgi_proxy/http/http_state.cpp:63-71 | An event ends the program if and only if it hands a waiting HTTP session a head whose first line that names a host ends at the name, with a request line of three fields that does not name CONNECT |
| ProxySystem.Socks5NeverEnds | amgi_proxy/socks5/socks5_state.cpp:59-157 | No run of a SOCKS5 proxy ends by an exception of a handler |
| ProxySystem.DifferentConnectionsCommute | amgi_proxy/socks5/socks5_stream_manager.cpp:15-126 | Events of different identifiers commute; one keeps the other from happening exactly if it ends the program |
| ProxySystem.InsertsAreFresh | amgi_proxy/transport/server.cpp:49-70 | A good accept inserts exactly one connection, freshly accepted, under an identifier never used before; it is a session of the map at once, every other connection and session stays, and the next identifier is larger by one |
| ProxySystem.AcceptingGoesOn | amgi_proxy/transport/server.cpp:49-70 | A failed accept inserts nothing; after a good or a failed one the next accept can happen, and after the acceptor has been closed none can |
| ProxySystem.EveryGoodAcceptEnters | amgi_proxy/transport/server.cpp:49-70 | In every run there are as many connections as good accepts, the waiting identifier is one more than the open accepts so far, and another accept can happen exactly until the acceptor has been closed or the program has ended |
| ProxySystem.ClosedStaysClosed | amgi_proxy/socks5/socks5_stream_manager.cpp:15-33 | Once erased, a session is never in the map again, whatever else happens |
| ProxySystem.LateCompletionsAreHarmless | amgi_proxy/transport/tls/tls_server_stream.cpp:57-79 | A completion that arrives after the erase leaves the session map and all other connections as they are, and the program goes on |
| ProxySystem.EveryConnectionKeepsItsGrammar | amgi_proxy/socks5/socks5_stream_manager.cpp:65-105 | In every run of the whole proxy, ended or not, every connection keeps to its output grammar, and an HTTP connection of another method sends its head first |
| Sessions.Stop | amgi_proxy/socks5/socks5_stream_manager.cpp:15-33 | After a stop the session is not in the map, whether it was or not |
| Channel.WriteOutput | amgi_proxy/transport/tcp_client_stream.cpp:80-92 | After a write has been started, what has left the stream followed by the pending front of the write buffer is the old output followed by the chunk passed in |
| Channel.DrainOutput | amgi_proxy/transport/tcp_client_stream.cpp:83-92 | Bytes that leave are the next bytes of that output, and the rest stays in the buffer unchanged |
| Channel.FillInput | amgi_proxy/transport/tcp_client_stream.cpp:94-106 | A read that has been filled holds the last bytes received, and nothing before them is consumed twice |
| Closing.StopSends | amgi_proxy/transport/tls/tls_server_stream.cpp:57-79 | The two operations that stopping a TLS stream starts add nothing to what it sends |
| Socks5State.ResponseErrorCode | amgi_proxy/socks5/socks5_state.cpp:14-35 | Each reply code is given for exactly its class of connection errors, 1 for the rest |
| Socks5.IsSocks5AuthRequest | amgi_proxy/socks5/socks5.cpp:9-26 | The loop accepts exactly the complete version-5 packets that offer "no authentication", and tells the other errors apart |
| Socks5.GreetingAccepted | amgi_proxy/socks5/socks5.cpp:9-26 | An RFC 1928 greeting, with anything after it, is accepted exactly when its own methods hold 0 |
| Socks5.GetRemoteAddressInfo | amgi_proxy/socks5/socks5.cpp:48-89 | The decoder finds exactly the host and service of RemoteAddress, and answers false exactly where there is none |
| Socks5.RequestRoundTrip | amgi_proxy/socks5/socks5.cpp:28-97 | Every encoded CONNECT request of section 4 of RFC 1928 is accepted and decoded to its host and port, whatever follows it, if and only if the chunk has ten bytes; the port text parses back to the port |
| Socks5.ShortDomainsRefused | amgi_proxy/socks5/socks5.cpp:53-53 | A lone request is refused exactly when its domain has one or two bytes |
| Socks5.ShortDomainExample | amgi_proxy/socks5/socks5.cpp:53-53 | A concrete refused request, the domain "ab" and port 80 |
| Socks5.AcceptedIsEncoded | amgi_proxy/socks5/socks5.cpp:28-89 | Every accepted packet is an encoded request and a tail if and only if it is complete, and then it is decoded to exactly that request |
| Socks5.StandsAloneExactlyIfComplete | amgi_proxy/socks5/socks5.cpp:48-89 | What is decoded from a valid packet does not depend on the memory past the chunk if and only if the packet is complete |
| Socks5.DecodesWithMemory | amgi_proxy/socks5/socks5.cpp:48-89 | What is decoded is always what the packet would say if that memory were part of it |
| Socks5.TruncatedExample | amgi_proxy/socks5/socks5.cpp:48-89 | Ten bytes of an IPv6 request are accepted, whatever follows them in memory, and are no encoded request |
| Socks5.ParsePrinted | amgi_proxy/socks5/socks5.cpp:65-65 | The port text consists of digits, has no leading zero, and parses back to the port |
| HttpHead.Split | amgi_proxy/http/http.cpp:10-27 | The split loop returns exactly the tokens of the string |
| HttpHead.RunsAreExact | amgi_proxy/http/http.cpp:10-27 | The token bounds are exactly the maximal delimiter-free runs |
| HttpHead.RunsAreInOrder | amgi_proxy/http/http.cpp:10-27 | They come from left to right without overlap |
| HttpHead.TokensAreSlices | amgi_proxy/http/http.cpp:10-27 | The tokens are the slices at these bounds |
| HttpHead.SplitUndoesJoin | amgi_proxy/http/http.cpp:10-27 | Splitting nonempty delimiter-free tokens joined by nonempty delimiter runs, with delimiters before and after allowed, gives the tokens back |
| HttpHead.GetRequestFields | amgi_proxy/http/http.cpp:37-68 | The reader answers true exactly for three fields and finds the fields of RequestFields; each of the six methods is found exactly for its own name |
| HttpHead.GetRemainingRequiredFields | amgi_proxy/http/http.cpp:70-91 | The header loop ends with the host of RemainingHost, which may be a view outside its line, and answers whether it is not empty |
| HttpHead.GetHeaders | amgi_proxy/http/http.cpp:123-138 | The head reader composes the three |
| HttpHead.OnlyKnownMethodsConnect | amgi_proxy/http/http.cpp:37-109 | A head that leads to a connect has two lines and three request fields, of which the first is GET, POST, DELETE, UPDATE, HEAD or CONNECT; it is treated as a CONNECT exactly when it says so |
| HttpHead.UnknownMethodIsRefused | amgi_proxy/http/http.cpp:60-63 | A head whose first field is none of these six passes the request-line reader, and is refused for its empty service unless it throws |
| HttpHead.ConnectHeadDecision | amgi_proxy/http/http.cpp:95-121 | A CONNECT head never throws, and is forwarded exactly when its target has two parts, and to these, whatever else the head says |
| HttpHead.PlainHeadDecision | amgi_proxy/http/http.cpp:70-121 | A head of another known method throws if its host is a view outside its line; else it is forwarded exactly when there is a host and its target has two parts, to that host and to the first of these parts as the service |
| HttpHead.FirstHostDecides | amgi_proxy/http/http.cpp:78-91 | The first line that does not leave the host empty decides, whatever follows |
| HttpHead.HostLineValue | amgi_proxy/http/http.cpp:70-76 | The value of a line is all that follows the first occurrence of the name and one more character, wherever the name stands and whatever that character is; nothing after the name leaves a view outside the line |
| HttpHead.NamesNoHostOnText | amgi_proxy/http/http.cpp:70-76 | A line leaves the host empty exactly if the name does not occur in it or one single character follows its first occurrence |
| HttpHead.HostLineDecides | amgi_proxy/http/http.cpp:70-121 | If the first line that does not leave the host empty reads before + "Host:" + after, the host is after without its first character |
| HttpHead.PlainHeadRoundTrip | amgi_proxy/http/http.cpp:37-138 | A printed head of any of the five other methods with a line before + "Host:" + after is forwarded to after without its first character and to the scheme of its target; it throws if nothing follows the name and is refused if one character does |
| HttpHead.UsualHeadDecision | amgi_proxy/http/http.cpp:37-138 | The same letter by letter, for "Host: host" |
| HttpHead.TightHeadDecision | amgi_proxy/http/http.cpp:70-76 | Letter by letter, "Host:host" without the space loses the first character of the host |
| HttpHead.UsualConnectDecision | amgi_proxy/http/http.cpp:37-138 | Letter by letter, a CONNECT head with one header line is forwarded to its host and port |
| HttpHead.ThrowsExactlyOutside | amgi_proxy/http/http.cpp:37-121 | A head throws if and only if its request line has three fields and does not name CONNECT and its first line that names a host ends at the name |
| HttpHead.HostAtEndExample | amgi_proxy/http/http.cpp:70-114 | Every head of these methods whose only header line is "Host:" throws |
| HttpHead.ConnectHeadRoundTrip | amgi_proxy/http/http.cpp:37-138 | A printed CONNECT head (section 3.2.3 of RFC 9112) is read back to its host and port exactly when it has a nonempty header line |
| HttpHead.AcceptedHeadIsNotTheReply | amgi_proxy/http/http_state.cpp:100-105 | No accepted head equals the 200 marker, which has only one line |
| HttpState.DoneReply | amgi_proxy/http/http_state.cpp:20-22 | The bytes of the 200 marker |
| HttpState.ErrorReply | amgi_proxy/http/http_state.cpp:15-18 | The bytes of the 500 reply |
| HttpState.RepliesOnText | amgi_proxy/http/http_state.cpp:15-22 | Both replies letter by letter |
| Basics.CopyToFront | amgi_proxy/transport/tcp_client_stream.cpp:82-82 | Copying puts the chunk over the front of the buffer and leaves the rest alone |
| StreamObjects.AsyncStream.DoWrite | amgi_proxy/transport/tcp_client_stream.cpp:80-92 | In place, the stream object does what Transport.DoWrite says |
| StreamObjects.AsyncStream.DoRead | amgi_proxy/transport/tcp_client_stream.cpp:94-106 | The same for a read |
| StreamObjects.AsyncStream.DoStart | amgi_proxy/transport/tls/tls_server_stream.cpp:49-92 | A TLS stream starts with its handshake, a TCP server stream with a read, a client stream by resolving |
| StreamObjects.AsyncStream.DoStop | amgi_proxy/transport/tls/tls_server_stream.cpp:57-79 | In place, a TCP stream is shut down; an open TLS stream starts a shutdown and an empty write |
| StreamObjects.AsyncStream.Arrive | amgi_proxy/transport/tcp_server_stream.cpp:71-83 | The kernel fills the front of the read buffer in place |
| StreamObjects.AsyncStream.Leave | amgi_proxy/transport/tcp_server_stream.cpp:57-69 | The bytes that leave are those the write buffer holds |
| StreamManagers.ProxySession.SetResponseErrorCode | amgi_proxy/socks5/socks5_session.h:61-61 | Only byte 1 of the stored reply changes |
| StreamManagers.ProxySession.SetEndpointInfo | amgi_proxy/socks5/socks5_session.h:55-58 | Host and service are replaced, nothing else |
| StreamManagers.ProxySession.UpdateBytesSentToRemote | amgi_proxy/socks5/socks5_session.cpp:52-55 | Only this counter grows |
| StreamManagers.ProxySession.UpdateBytesSentToLocal | amgi_proxy/socks5/socks5_session.cpp:57-60 | Only this counter grows |
| StreamManagers.StreamManager.Stop | amgi_proxy/socks5/socks5_stream_manager.cpp:15-33 | Both streams are stopped and exactly this session leaves the map |
| StreamManagers.StreamManager.ReadServer | amgi_proxy/socks5/socks5_stream_manager.cpp:77-81 | Reads if the session is in the map, otherwise nothing |
| StreamManagers.StreamManager.WriteServer | amgi_proxy/socks5/socks5_stream_manager.cpp:83-87 | Writes if the session is in the map, otherwise nothing |
| StreamManagers.StreamManager.ReadClient | amgi_proxy/socks5/socks5_stream_manager.cpp:107-111 | Reads if the session is in the map, otherwise nothing |
| StreamManagers.StreamManager.WriteClient | amgi_proxy/socks5/socks5_stream_manager.cpp:113-117 | Writes if the session is in the map, otherwise nothing |
| StreamManagers.StreamManager.Connect | amgi_proxy/socks5/socks5_stream_manager.cpp:119-126 | Sets the endpoint and starts the client stream |
| StreamManagers.StreamManager.OnAccept | amgi_proxy/socks5/socks5_stream_manager.cpp:52-63 | The new pair is inserted under its identifier as a freshly accepted connection, over new objects |
| Socks5Handlers.AuthRequestServerRead | amgi_proxy/socks5/socks5_state.cpp:77-87 | In place: version and chosen method are stored and written to the server stream, and the session waits for the request, also after 0xff |
| Socks5Handlers.ConnectionRequestServerRead | amgi_proxy/socks5/socks5_state.cpp:93-115 | It stops the session on a bad packet or address, else stores endpoint and reply, connects, and moves to the connecting state |
| Socks5Handlers.ConnectionEstablishedClientConnect | amgi_proxy/socks5/socks5_state.cpp:117-121 | In place: the reply code becomes 0, the reply is written and the session moves on |
| Socks5Handlers.ConnectionEstablishedClientError | amgi_proxy/socks5/socks5_state.cpp:123-128 | In place: the reply code becomes that of the error and the reply is written; the state stays |
| Socks5Handlers.HandleServerRead | amgi_proxy/socks5/socks5_state.cpp:59-148 | The current state object handles a server read |
| Socks5Handlers.HandleServerWrite | amgi_proxy/socks5/socks5_state.cpp:62-143 | The current state object handles a finished server write |
| Socks5Handlers.HandleClientError | amgi_proxy/socks5/socks5_state.cpp:71-128 | The current state object handles a client error |
| TransferHandlers.DataTransferServerRead | amgi_proxy/socks5/socks5_state.cpp:145-148 | The chunk is counted and written to the client stream |
| TransferHandlers.DataTransferClientRead | amgi_proxy/socks5/socks5_state.cpp:154-157 | The chunk is counted and written to the server stream |
| TransferHandlers.StartTransfer | amgi_proxy/socks5/socks5_state.cpp:135-139 | Both sides are read and the transfer mode entered |
| HttpHandlers.WaitRequestServerRead | amgi_proxy/http/http_state.cpp:63-96 | The head is refused with the 500 reply or leads to a connect, as decided, or the exception leaves the handler before it has done anything |
| HttpHandlers.ConnectionEstablishedClientConnect | amgi_proxy/http/http_state.cpp:98-107 | The stored response goes to the server stream if it is the 200 marker, else to the client stream |
| HttpHandlers.ReadyToTransferClientWrite | amgi_proxy/http/http_state.cpp:109-114 | The server side is read twice |
| HttpHandlers.HandleServerWrite | amgi_proxy/http/http_state.cpp:116-127 | The current state object handles a finished server write |
| StreamCallbacks.OnServerRead | amgi_proxy/socks5/socks5_stream_manager.cpp:65-69 | Looked up by identifier, the session gets the chunk; without a session nothing happens |
| StreamCallbacks.ServerDone | amgi_proxy/transport/tls/tls_server_stream.cpp:57-120 | Each completion of a server stream ends in the callback that the specification names |
| StreamCallbacks.ClientDone | amgi_proxy/transport/tcp_client_stream.cpp:45-106 | Each completion of a client stream ends in the callback that the specification names; a read of no bytes is an error |
| StreamEvents.Deliver | amgi_proxy/socks5/socks5_stream_manager.cpp:15-126 | An event makes exactly one step of its own connection, leaves every other connection exactly as it was, and throws exactly when the specification says |
| ProxyServers.ProxyServer.constructor | amgi_proxy/transport/server.cpp:8-25 | A new server waits for its first connection under identifier 1 |
| ProxyServers.ProxyServer.AcceptCompleted | amgi_proxy/transport/server.cpp:49-70 | A finished accept does to all objects what ProxySystem.Next says: a good one adds the waiting identifier to the session map, and the server waits again unless the acceptor has been closed |
| ProxyServers.ProxyServer.Handle | amgi_proxy/transport/server.cpp:27-30 | Any event of any connection does to all objects what ProxySystem.Next says |
| TunnelTheorems.BuffersHaveOneOwner | amgi_tunnel/session.hpp:247-293 | In every run each buffer is in the hands of at most one outstanding operation |
| TunnelTheorems.BytesStayInOrder | amgi_tunnel/session.hpp:247-293 | In every run, failures and repeated leaves included, the bytes written to each side are a prefix of those read from the other |
| TunnelTheorems.NothingIsLost | amgi_tunnel/session.hpp:247-293 | While the session is in the set, all bytes read and not yet written are in the buffer of one operation |
| TunnelTheorems.MembersAreNotStuck | amgi_tunnel/session.hpp:200-293 | A session in the set has exactly one operation of its connection phase outstanding, or exactly one for each chain |
| TunnelTheorems.MemberExactlyUntilFirstLeave | amgi_tunnel/manager.hpp:19-28 | A session is in the set exactly until its first leave |
| TunnelTheorems.ChainsDieOut | amgi_tunnel/session.hpp:139-293 | After the session has left, each chain has at most three more completions |
| TunnelTheorems.GivenUpSessionsDie | amgi_tunnel/session.hpp:139-293 | From the first leave of any run on, each chain has at most three completions, the session at most seven, and it never rejoins |
| TunnelTheorems.NothingStaysOpen | amgi_tunnel/session.hpp:139-173 | A session with nothing outstanding has left the set and closed both sockets |
| TunnelTheorems.LeaveStartsBoth | amgi_tunnel/session.hpp:139-173 | Each leave closes the local socket and, if the remote one is open, starts exactly one shutdown and one empty write |
| TunnelTheorems.EitherCloses | amgi_tunnel/session.hpp:139-173 | Each of the two, failed or not, closes the remote socket when it is over |
| TunnelTheorems.Connects | amgi_tunnel/session.hpp:200-245 | Some run brings a new session to reading both sides |
| TunnelTheorems.ChunkPasses | amgi_tunnel/session.hpp:247-293 | From there, some run brings any chunk from either side to the other and back to reading both sides |
| TunnelRuns.StepHeld | amgi_tunnel/session.hpp:200-293 | Every step keeps every operation in its place and every byte accounted for |
| TunnelSystem.AcceptStarts | amgi_tunnel/server.hpp:46-61 | A good accept adds exactly one session, which is resolving, a member of the set and open on its local side; a failed one changes nothing; the next accept can always happen |
| TunnelSystem.EveryGoodAcceptStarts | amgi_tunnel/server.hpp:46-61 | In every run there are as many sessions as good accepts, and the next good accept starts the session of that number |
| TunnelSystem.Projection | amgi_tunnel/server.hpp:46-61 | Every run of the tunnel with any number of sessions, seen from one of them, is a run of that session alone from its start |
| TunnelSystem.DifferentSessionsCommute | amgi_tunnel/session.hpp:123-293 | Events of different sessions commute |
| TunnelSystem.MembersAreThoseThatHaveNotLeft | amgi_tunnel/manager.hpp:19-28 | In every run of the whole tunnel, a session is in the set exactly until its own first leave |
| TunnelSystem.EverySessionKeepsItsOrder | amgi_tunnel/session.hpp:247-293 | In every run of the whole tunnel, what a session writes to a side is a prefix of what it has itself read from the other |
| TunnelObjects.SessionManager.Join | amgi_tunnel/manager.hpp:19-22 | The set gains exactly this session |
| TunnelObjects.SessionManager.Leave | amgi_tunnel/manager.hpp:24-28 | The session is stopped and the set loses exactly it, if it was there |
| TunnelObjects.TunnelSession.Start | amgi_tunnel/session.hpp:123-131 | The session joins and starts resolving |
| TunnelObjects.TunnelSession.Close | amgi_tunnel/session.hpp:139-173 | In place, what Tunnel.Close says |
| TunnelObjects.TunnelSession.ReadDone | amgi_tunnel/session.hpp:247-269 | A chunk read is written from the same buffer; a failed or empty read leaves |
| TunnelObjects.TunnelSession.WriteDone | amgi_tunnel/session.hpp:271-293 | A finished write is followed by the next read; a failed one leaves |
| TunnelObjects.TunnelSession.HandshakeDone | amgi_tunnel/session.hpp:200-215 | After the handshake both sides are read; a failed one leaves |
| TunnelObjects.TunnelSession.Complete | amgi_tunnel/session.hpp:139-293 | Any completion does in place one step of the session as a value, and removes it from the set exactly when the handler leaves |
| TunnelObjects.TunnelSession.Arrive | amgi_tunnel/session.hpp:247-269 | Arriving bytes fill the front of the buffer of their chain |
| TunnelObjects.TunnelSession.Depart | amgi_tunnel/session.hpp:271-293 | Departing bytes are those the buffer of their chain holds |
| TunnelServers.Deliver | amgi_tunnel/session.hpp:123-293 | An event of one session makes exactly one step of it and leaves every other session, its buffers and its place in the set exactly as they were |
| TunnelServers.TunnelServer.constructor | amgi_tunnel/server.hpp:23-44 | A new server has no session and waits for its first connection |
| TunnelServers.TunnelServer.AcceptCompleted | amgi_tunnel/server.hpp:46-61 | A finished accept does to all objects what TunnelSystem.Next says: a good one adds the waiting session to the sessions and to the set |
| TunnelServers.TunnelServer.Handle | amgi_tunnel/server.hpp:63-66 | Any event of any session does to all objects what TunnelSystem.Next says |

## Left out

- Sockets, name resolution, TLS and certificates: they appear only as completions of outstanding
  operations, with any outcome, in any order.
- The effect of shutting a TCP socket down on operations already started: the model records that it
  was asked for and lets them succeed or fail.
- Timing of a cancelled operation: any outstanding operation may fail or, if its bytes have already
  moved, succeed; the model allows more orders than the executor produces.
- The text that inet_ntop prints: a host is represented by the address bytes it is printed from.
- What a read past the end of a chunk may do beyond returning arbitrary bytes.
- Exceptions of the libraries, such as those for exhausted memory.
- Error values: only the classes that the proxy tells apart are kept.
- The widths of identifiers and byte counters: they are mathematical integers.
- Lifetimes through shared pointers and the tunnel's count of live sessions.
- The `connection` header field, which is never read, and `rtrim_copy`, which is never called.
- A second copy of the manager, session and handler tables for HTTP: the two are alike, so one
  manager serves both protocols and the current state says which handlers apply.
- Virtual dispatch: the current state object is a value, and a handler looks at it.
- `close_ssl` of the tunnel and `on_close` of the managers, which nothing calls, and the TLS server's
  acceptor, which repeats the plain one.
- Logging, endpoint texts, signal handling beyond the proxy's closed acceptor, the command line.
- Memory that an erased session's handler might still touch: the handlers touch none, and erased
  objects stay allocated in the model.
- A connection attempt of the tunnel that fails leaves its remote socket open in the model.
- A connection that the session map has lost is still driven by its outstanding operations; how
  the executor frees its streams afterwards is not modelled.
- HttpTheorems.OutputGrammar: for heads of other methods it bounds only what is sent back to the
  client; what they forward can be corrupted, and HttpForwarding.HeadGoesFirst says what is left.
- HttpTheorems.ForwardsWhatArrived: stated for CONNECT sessions, because of the same corruption.
- HttpTheorems.RelaysThroughTwoPipes: stated for CONNECT sessions, because of the same corruption.
- HttpTheorems.TotalsAtClose: stated for CONNECT sessions and before the head; the others have
  HttpForwarding.TotalsAtClose.
- HttpTheorems.NeverStuck: one operation for each direction is stated for CONNECT sessions, because
  the others only read from the server side.
