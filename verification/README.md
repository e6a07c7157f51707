# SwiftSSH in Dafny

SwiftSSH is a small SSH-2 stack: a packet layer with AES-CTR and HMAC, a Curve25519 key exchange,
password and public-key authentication, channels with flow control, and an SFTP server. This project
models all of that above the cryptographic primitives and proves what it is for.

The model is imperative where the program is: `SessionKeys`, `AesCipher`, byte streams, buffers and
cursors, `ChannelManager`, `UserDatabase`, the SFTP handler, the server's connection and the client's
connection are classes whose methods are proved against functions on values. Theorems about whole runs
are lemmas about those functions.

- **Bytes, Wire, Mpint, Packets** - big-endian numbers, UTF-8, length-prefixed strings, name lists,
  multiple-precision integers, framing and padding.
- **Crypto, Transport, Fifo, Authenticity, Version** - keystream positions, key derivation, sending and
  receiving under wrapping sequence numbers, the byte stream as a queue of packets, a keyed receiver fed
  arbitrary bytes, the version exchange.
- **Kex, Auth, Handshake, HandshakeProof, HandshakeRuns, HandshakeStreams, ClientConnection** - the exchange
  hash, the authentication requests, client and server as two programs over two byte streams, what holds in
  every state they can reach, also when bytes arrive piece by piece, and the client's program itself.
- **Channels, FlowControl, Messages** - channel numbers, windows, and the channel messages.
- **SftpCodec, SftpPaths, SftpConfinement, SftpFiles, SftpHandler, SftpRuns, SftpTransfers** - packets and
  attributes, lexical paths, the handler and its handle tables over whole runs, reads and writes over an
  abstract disk.
- **Session, Server, Traffic, Conduct, Accounting, ServerRuns, ServerConnection** - what a server session may
  do, what each message makes it do, what a log says was read and written and what became of channels,
  handles and files, how its first part is a run of the two-party model, and the server's routine on any
  input.
- **Answers, SftpAnswers, SftpSessions, Secrecy** - every message and every SFTP request as a client builds it
  against the answer as a client reads it, SFTP over a whole session, and what is on the wire under the keys.
- **HonestRuns, ClientCommand, CommandRuns, Programs** - each routine on the other end's bytes, the client's
  channel and command, and both programs on one connection from the version lines to the command's output.

HMAC, the keystream, the public-key function and the shared-secret function are arbitrary functions,
collected in `Crypto.Suite`; only the length of an HMAC and, where it is named as a precondition, the
commutativity of Diffie-Hellman are used. Random padding, cookies and secrets, the output of commands and
what they do to the files, and the answers of the file system are parameters, so every theorem holds for all
of them. Strings are byte sequences that are valid UTF-8.

Where the code and the RFCs or its own comments differ, the model follows the code:

- padding aligns the packet without its four length bytes, where section 6 of RFC 4253 aligns the whole;
- zero as a multiple-precision integer is one zero byte (`Mpint.ZeroBody`);
- the padding byte wraps when the padding exceeds 255, which takes a block size over 252
  (`Packets.UnframeInvertsFrame`, `Packets.PaddingByteWraps`); the program uses 8 and 16;
- a length field that makes the remaining length negative ends the connection (the `Panic` error);
- sequence numbers, `next_id` and `next_handle` wrap, the latter two as in a release build; what that costs is
  stated exactly (`Authenticity.OnlyNextIff`, `Channels.IdsNeverReusedIff`, `SftpRuns.ComesBackIff`);
- a saturated window breaks flow control (`FlowControl.GrantBalancesIff`, `FlowControl.RefusedAfterGrantIff`);
- a command's output goes out as one packet; one that does not fit ends the session and is lost
  (`CommandRuns.CommandServed`);
- every WRITE on a handle opened with TRUNC truncates the file (`SftpTransfers.TruncatingWrites`);
- `normalize_path` can pop the root component (`SftpConfinement.RenderedWithoutRoot`);
- a command is run and an SFTP request is handled even if the channel turns out to be unknown, and CLOSE is
  answered every time, since no channel is ever marked closed (`Server.PlanExec`, `PlanServe`, `PlanClose`).

## Model

| member | source | states |
|---|---|---|
| ServerConnection.HandleConnection | src/bin/server.rs:94-500 | on any bytes a client may send, for any randomness, command output, command effects and file-system answers: there is a log that is disciplined, replays against those bytes to exactly the bytes written, is one that key exchange, authentication and channel loop allow with the result returned, and accounts for the channels, handles and files returned; before the session it gives up only with the error of the point it is at, or where the packet it has to send does not fit |
| Session.WatchedIsDisciplined | src/bin/server.rs:191-260 | a log in which no event is objectionable on its own is disciplined as a whole: keys installed once, everything after them encrypted and MACed, exactly one USERAUTH_SUCCESS, directly answering a request in which a user of the database shows its password or one of its keys, and no channel or SFTP effect before it |
| Session.CredibleIff | src/bin/server.rs:219-255 | a request the server grants is exactly one in which a user of the database shows its password or one of its keys |
| Secrecy.SentIsEnciphered | src/transport/io.rs:19-55 | on any connection, the bytes written for a packet after the keys are installed are its frame, a bit changed exactly where the keystream of the session's key towards the client has one, and then the HMAC of the packet's number and frame; the keystream starts where all packets since the installation have left it |
| Secrecy.KeystreamIsNotReused | src/crypto/mod.rs:36-38 | so no part of the keystream is used for two packets |
| Secrecy.ReceivedIsTagged | src/transport/io.rs:60-130 | a packet received after the keys are installed lay in front of the server as a frame under the session's key towards the server, with the tag of the client's MAC key over its number and frame |
| Accounting.Accounted | src/bin/server.rs:94-500 | whatever became of the real channels, handles and files is what the logged effects, one after the other, make of them; in a session without USERAUTH_SUCCESS they are what they were at the start |
| Accounting.ServesAccounts | src/bin/server.rs:260-500 | along every run of the channel loop the final state is the fold of the logged effects over the initial one |
| Accounting.PlanIsHeaded | src/bin/server.rs:270-496 | a message has at most one effect, and it comes before any packet the message makes the server send |
| Accounting.SessionStaysInside | src/bin/server.rs:260-500 | a whole session in which no command is run leaves every file outside the SFTP root as it was |
| SftpSessions.RepliesInOrder | src/bin/server.rs:414-449 | over every run of the channel loop: the handler is given the requests that were received, in order, and the SFTP packets in what is sent are its replies, in order, up to one that could not be sent and ended the session |
| SftpSessions.ClientOpensAll | src/transport/io.rs:19-130 | a client with the server's sending half opens the bytes of a session to exactly the packets sent |
| SftpSessions.SftpOverConnection | src/bin/server.rs:94-449 | the same from the bytes of any connection: the requests among the first packets the client's bytes open to are what the handler is given, and the SFTP packets among what the server's bytes open to are its replies |
| Answers.SftpAnswered | src/bin/server.rs:414-449 | an SFTP request is handled and answered on its channel with one CHANNEL_DATA, in which the client reads the handler's reply; on an unknown channel it is handled and the session fails |
| Answers.DataWithoutSftpIsPassedOver | src/bin/server.rs:414-449 | data that holds no SFTP packet does nothing |
| Answers.RequestAnswered | src/bin/server.rs:340-411 | shell, pty-req and subsystem sftp get SUCCESS, every other type and every other subsystem FAILURE, if an answer is wanted; nothing changes |
| Answers.BadSubsystemFails | src/bin/server.rs:354-357 | a subsystem whose name cannot be read ends the session with the reader's error |
| Answers.BuiltRequestsSucceed | src/connection/mod.rs:287-318 | so the client's built shell and pty requests get SUCCESS |
| Answers.ExecAnswered | src/bin/server.rs:303-339 | a command is run on any channel; on a known one SUCCESS if wanted, the output, EOF and CLOSE follow |
| Answers.OpenAnswered | src/bin/server.rs:274-292 | the confirmation reads as the client's id, the server's, its window and its limit |
| Answers.OpenedChannel | src/bin/server.rs:274-292 | the new channel has the client's id, window and limit, and the others are left alone |
| Answers.AdjustAnswered | src/bin/server.rs:451-459 | exactly the window of one channel with that remote id grows, to 2^32 - 1 at most |
| Answers.EofAnswered | src/bin/server.rs:460-468 | EOF is noted on one channel with that remote id and not answered |
| Answers.CloseAnswered | src/bin/server.rs:469-483 | CLOSE is answered with CLOSE on a known channel and changes nothing |
| Answers.OthersArePassedOver | src/bin/server.rs:484-496 | DISCONNECT ends the session well, any other type is passed over |
| Answers.UnreadableFails | src/bin/server.rs:270-470 | a message that cannot be read ends the session with the reader's error and changes nothing |
| ServerRuns.LogIsServerRun | src/bin/server.rs:107-255 | every log that key exchange and authentication allow and the input bears out is a run of the server of the two-party model, with the same bytes read and written |
| ServerRuns.SessionBeginsAsServerRun | src/bin/server.rs:107-260 | so every session either reaches the session of such a run, with its keys, its output and the bytes it has left to read, or ends exactly where the run stops, with the same error and the same output and nothing done |
| ServerRuns.OnlyAcceptIsTooLarge | src/bin/server.rs:203-213 | of all that the server sends before the session only SERVICE_ACCEPT, which repeats the client's service name, can be too large |
| Conduct.LeadsOn | src/bin/server.rs:260-497 | one message carried out by its plan, with the channels and the SFTP state it leaves, extends a run of the channel loop |
| Conduct.LastTurn | src/bin/server.rs:260-500 | a plan that stops, fails, or meets a packet too large to send ends the loop with the result the code returns and the state the message leaves |
| Conduct.LosingEnds | src/bin/server.rs:261-268 | the end of the stream ends the loop well, every other receive error is returned, and neither changes the state |
| ServerConnection.Connection.Send | src/transport/io.rs:19-55 | the logged packet is what was sealed onto the stream; fails only for a payload over 34986 bytes once encrypted |
| ServerConnection.Connection.Recv | src/transport/io.rs:60-130 | the logged packet, or the logged error, is what the bytes in front of the reader amount to; a packet always takes bytes off the stream |
| ServerConnection.Connection.Greet | src/bin/server.rs:107-110 | version lines: the line sent and the line or error read are the logged ones |
| ServerConnection.Connection.HearOffer | src/bin/server.rs:117-135 | the client's KEXINIT and 32-byte public key, or the error of the branch that refuses them |
| ServerConnection.Connection.CompleteExchange | src/bin/server.rs:137-157 | the exchange result over both versions, both KEXINITs with their type byte, the host key and both public keys |
| ServerConnection.Connection.FinishExchange | src/bin/server.rs:159-178 | KEX_ECDH_REPLY, NEWKEYS out, NEWKEYS in, in that order, given up only with the error of its point or for a packet that does not fit |
| ServerConnection.Connection.InstallKeys | src/bin/server.rs:180-199 | the server encrypts with the server-to-client keys and decrypts with the client-to-server keys, once, right after NEWKEYS |
| ServerConnection.Connection.ExchangeKeys | src/bin/server.rs:107-199 | version and key exchange ends with the keys installed, or gives up with the error of the point it is at or for a packet that does not fit |
| ServerConnection.Connection.AwaitService | src/bin/server.rs:203-213 | SERVICE_REQUEST is accepted under its own name unless that does not fit a packet, and anything else refused with its error |
| ServerConnection.Connection.Authenticate | src/bin/server.rs:215-255 | the loop terminates, answers every request it can read, ends well only with USERAUTH_SUCCESS sent in answer to an accepted request, and otherwise with the error of the point it is at |
| ServerConnection.Connection.Judge | src/bin/server.rs:223-254 | a request is granted exactly when the database accepts its credential, which `Auth.AcceptedIff` puts in terms of the two maps |
| ServerConnection.Connection.HandleOpenMsg | src/bin/server.rs:274-292 | CHANNEL_OPEN: the channel accepted under the next id and confirmed under it |
| ServerConnection.Connection.Exec | src/bin/server.rs:303-339 | exec: the command is run, and may change any file, before the channel is looked up; SUCCESS if wanted, output, EOF and CLOSE follow, up to the first packet that does not fit |
| ServerConnection.Connection.ServeRequest | src/bin/server.rs:302-411 | each request type gets the reply of its own branch, only if one is wanted, and only exec changes anything |
| ServerConnection.Connection.ServeSftp | src/bin/server.rs:432-446 | the request is handled, and its reply sent on the channel if that is known; what the client reads is `Answers.SftpAnswered` |
| ServerConnection.Connection.HandleDataMsg | src/bin/server.rs:414-449 | only a well-framed SFTP packet has any effect, and its effect on handles and files is that of the handler |
| ServerConnection.Connection.HandleAdjustMsg | src/bin/server.rs:451-458 | WINDOW_ADJUST enlarges the remote window of a channel with that remote id, saturating, or does nothing |
| ServerConnection.Connection.HandleEofMsg | src/bin/server.rs:460-467 | EOF marks a channel with that remote id, or does nothing |
| ServerConnection.Connection.HandleCloseMsg | src/bin/server.rs:469-482 | CLOSE is answered whenever the channel is known, since none is ever marked closed |
| ServerConnection.Connection.Dispatch | src/bin/server.rs:270-496 | the plan of the message is carried out up to the first packet too large to send; channels and SFTP state end as that message leaves them |
| ServerConnection.Connection.ChannelLoop | src/bin/server.rs:260-500 | the loop terminates, its events are those of messages carried out one after the other, and it ends in the state they leave |
| ServerConnection.Connection.Serve | src/bin/server.rs:94-500 | the three phases in order; a session that ends before authentication leaves channels, handles and files alone |
| ClientConnection.RunClient | src/bin/client.rs:77-196 | on any bytes a server may send, the client writes what a run of its steps writes and ends as that run ends: authenticated, failed with the same error, or cut off where it would wait, with the error of that very read |
| ClientConnection.Connection.ExchangeKeys | src/bin/client.rs:91-141 | KEXINIT in, KEXINIT and KEX_ECDH_INIT out, then the reply |
| ClientConnection.Connection.TakeReply | src/bin/client.rs:111-141 | the exchange result over the fields of the reply, or the error of the branch that refuses it |
| ClientConnection.Connection.SendNewkeys | src/bin/client.rs:151-171 | NEWKEYS is still sent with the old keys; then the client encrypts client to server and decrypts server to client |
| ClientConnection.Connection.LogIn | src/bin/client.rs:184-196 | the password request, and success, refusal or protocol error by the answer's type |
| ClientCommand.OpenSession | src/bin/client.rs:198-222 | the channel is opened and announced under the next id, and confirmed with the fields of the answer, or the error of the branch that refuses it |
| ClientCommand.Listen | src/bin/client.rs:232-272 | the receive loop prints the data of every CHANNEL_DATA in order and ends with CLOSE, with the end of the stream, or with the error of a packet |
| ClientCommand.RunCommand | src/bin/client.rs:226-272 | the request, what is heard, and the answer to CLOSE |
| ClientCommand.RunClientCommand | src/bin/client.rs:77-272 | the whole client with a command, on any bytes a server may send: a run of the client's steps, and from its end the bytes written, the bytes printed and the result that opening, asking and listening give |
| ClientCommand.ReactsTo | src/bin/client.rs:238-270 | data is printed, standard error read and dropped, CLOSE ends the loop, all else is passed over, and what cannot be read is an error |
| ClientCommand.ConfirmationReadsBack | src/bin/client.rs:215-221 | the server's id, window and limit are read from their places in a confirmation |
| ClientCommand.BreaksAreReported | src/bin/client.rs:233-237 | only the end of the stream ends listening without an error |
| ClientCommand.RefusalIsReported | src/bin/client.rs:209-213 | any other answer to CHANNEL_OPEN is a refusal |
| ClientCommand.AskedWrites | src/bin/client.rs:227-262 | behind the request for the command goes CLOSE in answer to CLOSE, and nothing otherwise |
| ClientCommand.AnswerErrorsEnd | src/bin/client.rs:209-221 | an error in the answer to CHANNEL_OPEN is returned, with nothing printed and no command asked for |
| HandshakeRuns.NoCheckFails | src/bin/server.rs:107-255 | in every reachable state of client and server over two byte streams no "Expected ..." branch of either has fired; the client fails only if its credentials are refused or do not fit one packet |
| HandshakeRuns.ReceivedAsSent | src/transport/io.rs:19-130 | every packet is received under exactly the key epoch, sequence number, MAC key and keystream position it was sent with |
| HandshakeRuns.KeysAgree | src/bin/client.rs:155-171 | once both ends are encrypted, each sends with the keys the other receives with, under one session id |
| HandshakeRuns.MovesLowerRank | src/bin/client.rs:86-196 | every move lowers a measure that starts at 24 at most |
| HandshakeRuns.SomeoneMoves | src/bin/client.rs:86-196 | no reachable state before the end is a deadlock, whatever padding the two ends draw |
| HandshakeRuns.EveryRunCanBeFinished | src/bin/client.rs:86-196 | from every reachable state the handshake can be finished in at most 24 moves, with both ends encrypted under matching keys |
| HandshakeStreams.PartsAreWhole | src/bin/client.rs:86-196 | every run over streams that deliver their bytes in pieces of any size is, but for the waiting, a run over whole streams |
| HandshakeStreams.NothingFailsOverParts | src/transport/io.rs:60-189 | so over such streams too no check fails, packets meet the keys, counters and positions they were sent with, and the keys agree |
| HandshakeStreams.EveryPartialRunCanBeFinished | src/bin/client.rs:86-196 | and every such run can be finished in at most 72 deliveries and moves |
| HonestRuns.HonestServer | src/bin/server.rs:94-260 | fed what the client writes in any finished handshake, the server's routine writes exactly what the server writes there, and ends well with a session or finds the stream closed, with nothing done |
| HonestRuns.HonestClient | src/bin/client.rs:77-196 | fed what the server writes in any finished handshake, the client's routine writes exactly what the client writes there and ends as it ends there |
| CommandRuns.ServerRuns | src/bin/server.rs:294-339 | the client's exec request makes the server run that very command and send SUCCESS, the output, EOF and CLOSE |
| CommandRuns.ClientHears | src/bin/client.rs:232-272 | packets that fit, sealed one after the other, are reacted to one after the other, whatever follows them on the stream |
| CommandRuns.CommandServed | src/bin/server.rs:260-339 | the channel loop on a client's request for a command: the channel is opened, exactly that command is run, and the reply reads to the client as the confirmation and then the command's output; an output too large for a packet ends the session with that error and reads as nothing |
| Programs.PaddedFinish | src/bin/client.rs:86-196 | every handshake under way can be finished with the padding that the two programs will draw |
| Programs.BothFollow | src/bin/client.rs:77-196 | two programs that read each other's output follow every handshake with that padding, move by move |
| Programs.CommandEndToEnd | src/bin/client.rs:77-272 | client and server, each reading all that the other writes, from the first byte on: the credentials decide whether there is a session, with the client's error and an untouched server if not; if there is, exactly the command asked for is run and the client ends well having printed exactly what the command wrote, or nothing where that does not fit a packet; a command that does not fit is an error of the client's |
| Programs.Converse | src/bin/client.rs:77-272 | such connections exist: for all parties, commands and outputs and any handshake finished with the padding drawn, the server's routine is run on what the client is to write and the client's routine on what the server wrote, and it writes just that |
| HandshakeStreams.OpenPrefix | src/transport/io.rs:60-130 | a receive that does not run out of bytes does the same whatever follows them |
| Fifo.ByteStreamRefinesFifo | src/transport/io.rs:19-130 | for every interleaving of sends, partial deliveries and receives between matched ends: nothing fails, the bytes in flight are the frames of the undelivered packets, and what was received is a prefix of what was sent, across sequence wrap |
| Fifo.RecvReturnsOldest | src/transport/io.rs:60-130 | once its bytes are there a receive returns the oldest packet, whatever else has arrived |
| Fifo.RecvWaits | src/transport/io.rs:69-115 | with only part of a packet there the receiver waits |
| Fifo.Drains | src/transport/io.rs:60-130 | once the wire is empty, receiving as often as packets are missing delivers them all |
| Authenticity.AcceptedIsPrefixOfSent | src/transport/io.rs:116-129 | over arbitrary incoming bytes, if a MAC verifies only on what the sender MACed, the accepted packets are a prefix of the sent ones as long as, at every offer, fewer than 2^32 have been accepted and at most 2^32 more sent |
| Authenticity.OnlyNextIff | src/session/mod.rs:48-59 | that window is exactly when the receiver's sequence number names one message only, the next |
| Authenticity.AnyWithNumberIsAccepted | src/transport/io.rs:116-129 | outside it, any other message with that number, sealed for the receiver, is genuine and accepted |
| Authenticity.FirstIsReplayed | src/transport/io.rs:116-129 | a run of 2^32 packets sent and accepted from the start, after which the first one is accepted again, so that what is accepted is no longer a prefix of what was sent |
| Authenticity.ShortRunsArePaced | src/transport/io.rs:116-129 | every run of fewer than 2^32 packets stays inside the window |
| Transport.OpenInvertsSeal | src/transport/io.rs:19-130 | decrypting the first block and then the rest undoes encrypting the whole buffer; both ends move on equally |
| Transport.OpenWaits | src/transport/io.rs:69-121 | no proper prefix of a packet is accepted or refused |
| Transport.SealGoes | src/transport/io.rs:27-31 | sending fails exactly for payloads over 34994 bytes in the clear and 34986 encrypted |
| Transport.SealIs | src/transport/io.rs:19-55 | what is sent is the packet's frame, each bit changed exactly where the keystream has one, followed by the HMAC of its number and frame |
| Transport.OpensIff | src/transport/io.rs:60-130 | a packet is accepted exactly if its frame lies in front of the receiver under the half's keystream and with the tag it must have |
| Transport.ForgedIsRejected | src/transport/io.rs:110-125 | a whole packet under any other tag is refused |
| Transport.CutShort | src/transport/io.rs:60-110 | a stream that ends inside a packet's first block counts as closed, one that ends later is an error |
| Transport.SendPacket | src/transport/io.rs:19-55 | writes the sealed packet and moves keystream and wrapping sequence number on; on failure changes nothing |
| Transport.RecvPacket | src/transport/io.rs:60-130 | returns, consumes and leaves in the keys what opening the stream's front amounts to, for every input |
| Transport.SessionKeys.NextSendSeq | src/session/mod.rs:48-52 | returns the number and wraps at 2^32 |
| Transport.SessionKeys.NextRecvSeq | src/session/mod.rs:55-59 | returns the number and wraps at 2^32 |
| Version.VersionSurvivesIff | src/transport/io.rs:135-189 | a version line followed by any bytes comes back, consuming its length plus two, exactly when it is UTF-8, begins SSH-2.0-, has at most 253 bytes and no inner CR LF (section 4.2 of RFC 4253); it may end in CR |
| Version.SendVersionString | src/transport/io.rs:135-145 | appends the version and CR LF |
| Version.RecvVersionString | src/transport/io.rs:148-189 | the byte-by-byte loop terminates and returns, and consumes, what the scan of the stream says |
| Packets.FrameShape | src/packet/codec.rs:37-81 | for block sizes 8 to 252 serialising succeeds iff 6 plus the payload, rounded up to the block, is at most 35000; padding is 4 to 255 and the length field at least the block |
| Packets.PayloadLimits | src/packet/codec.rs:43-63 | the payload limits 34994 and 34986 of the two block sizes in use |
| Packets.UnframeInvertsFrame | src/packet/codec.rs:85-131 | whenever serialising succeeds, deserialising undoes it, for every padding and any trailing bytes, exactly if the padding length is at most 255; for block sizes up to 252 it is |
| Packets.UnframesIff | src/packet/codec.rs:85-132 | a packet is read exactly off its own layout: length, padding length, type, payload, and as much padding as it says |
| Packets.PaddingByteWraps | src/packet/codec.rs:46-72 | an input where it is not: with block size 253 a payload of 248 bytes comes back as 504 |
| Packets.Serialize | src/packet/codec.rs:37-81 | builds the frame, or the error |
| Packets.Deserialize | src/packet/codec.rs:85-131 | total on all bytes, with the error of each failing test |
| Wire.NameListSurvivesIff | src/packet/codec.rs:150-218 | a name list within the string limit survives write and read iff no name has a comma and the list is not the single empty name (section 5 of RFC 4251); what follows is left unread in any case |
| Wire.EncStringPrefixFree | src/packet/codec.rs:139-142 | length-prefixed strings are prefix-free |
| Wire.TakeStringInverts | src/packet/codec.rs:188-201 | a string of at most 35000 bytes is read back, leaving exactly what follows |
| Wire.TakeStringIff | src/packet/codec.rs:188-201 | a string is read exactly off its own bytes, within the limit, and nothing else is |
| Wire.TakeUtf8Iff | src/packet/codec.rs:204-208 | the same for text |
| Wire.TakeU32Iff | src/packet/codec.rs:229-233 | a number is read exactly off its own bytes |
| Wire.StringOnWire | src/packet/codec.rs:139-142 | on the wire a string is its length, most significant byte first, and its bytes |
| Wire.Buffer.WriteString | src/packet/codec.rs:139-142 | appends the length and the bytes |
| Wire.Buffer.WriteNameList | src/packet/codec.rs:150-153 | appends the joined names as one string |
| Wire.Buffer.WriteMpint | src/packet/codec.rs:171-185 | appends the length and the minimal two's-complement body |
| Wire.Cursor.ReadString | src/packet/codec.rs:188-201 | the string and the position behind it, or the error |
| Wire.Cursor.ReadUtf8 | src/packet/codec.rs:204-208 | the same, refusing invalid UTF-8 |
| Wire.Cursor.ReadNameList | src/packet/codec.rs:211-218 | the names between the commas; the empty string is the empty list |
| Mpint.BodyDenotesInput | src/packet/codec.rs:171-185 | the encoded bytes read as two's complement equal the unsigned input |
| Mpint.BodyIsMinimal | src/packet/codec.rs:171-185 | no two's-complement form of a nonzero value is shorter |
| Mpint.BodyEqualIff | src/packet/codec.rs:171-185 | two inputs encode equally iff they denote the same integer |
| Mpint.ZeroBody | src/packet/codec.rs:173-182 | zero is one zero byte, where section 5 of RFC 4251 asks for none |
| Mpint.BE32IsUnsigned | src/packet/codec.rs:161-233 | four bytes are read and written as their unsigned big-endian value |
| Mpint.BE64IsUnsigned | src/sftp/mod.rs:78-130 | eight bytes are, too |
| Mpint.EncodeMpintForHash | src/crypto/mod.rs:139-156 | agrees with write_mpint on every byte string |
| Crypto.MaskedTwice | src/crypto/mod.rs:36-38 | applying the keystream twice from one position is the identity |
| Crypto.MaskedSplit | src/crypto/mod.rs:36-38 | one call over a buffer equals two over its pieces |
| Crypto.MaskedIff | src/crypto/mod.rs:36-38 | the cipher's output is the data with a bit changed exactly where the keystream from its position on has one |
| Crypto.AesCipher.Apply | src/crypto/mod.rs:36-38 | in place, the keystream from the cipher's position on, which then moves on by the length of the data; bit by bit in `Crypto.MaskedIff` |
| Crypto.DeriveKey | src/crypto/mod.rs:102-136 | the first bytes of the key stream of these inputs; block by block in `Crypto.DerivedBlock` |
| Crypto.KeyBlocksAt | src/crypto/mod.rs:117-133 | byte i of the stream does not depend on how many blocks were asked for |
| Crypto.DerivedPrefix | src/crypto/mod.rs:102-136 | a shorter derivation is a prefix of every longer one |
| Crypto.DerivedBlock | src/crypto/mod.rs:113-133 | the first 32 bytes are the hash of K, H, the letter and the session id, and every further 32 bytes the hash of K, H and all bytes before them |
| Kex.TranscriptsEqualIff | src/transport/kex.rs:160-183 | two exchange-hash transcripts are byte-equal iff their seven strings are equal and their secrets are the same integer (section 8 of RFC 4253) |
| Kex.TranscriptReadsBack | src/transport/kex.rs:160-183 | read string by string a transcript is the two versions, the two KEXINITs, the host key and the two public keys, client before server, and K is left |
| Kex.InstalledKeys | src/bin/server.rs:180-199 | the six keys each end installs are the hashes with the letters A to F, each for its direction and use |
| Kex.KeysDiffer | src/bin/server.rs:180-199 | two of the four 32-byte keys of a session are equal only if the hash function has that very collision |
| Kex.ResultsAgree | src/transport/kex.rs:58-157 | with a commutative Diffie-Hellman, client and server complete with equal results |
| Kex.ComputeExchangeHash | src/transport/kex.rs:160-183 | hashes the transcript built field by field |
| Kex.KexClient.Complete | src/transport/kex.rs:58-92 | consumes the secret: a second call fails |
| Kex.KexServer.Complete | src/transport/kex.rs:111-157 | the same for the server |
| Kex.BuildKexinitPayload | src/transport/kex.rs:186-212 | cookie, ten name lists, flag and reserved field |
| Kex.KexinitLength | src/transport/kex.rs:186-212 | 178 bytes whatever the cookie, so it always fits |
| Kex.KexinitReadsBack | src/transport/kex.rs:186-210 | behind the cookie a KEXINIT reads as its ten lists, no guess, and a reserved zero |
| Handshake.ReplyReadsBack | src/bin/server.rs:159-170 | KEX_ECDH_REPLY reads as the host key, the server's public key, and the HMAC that stands in for a signature |
| Auth.PasswordRoundTrip | src/auth/mod.rs:78-91 | a built password request parses to its fields whatever follows |
| Auth.PubkeyRoundTrip | src/auth/mod.rs:94-114 | a built public-key request, signed or not, parses to its fields whatever follows |
| Auth.AcceptedIff | src/bin/server.rs:219-255 | a payload parses to a request the database accepts exactly if it is one, byte for byte, in which a user shows the password stored for it or one of the keys stored for it |
| Auth.ParsedIsLogin | src/auth/mod.rs:153-196 | whatever parses is a password or a public-key request, byte for byte |
| Auth.OtherMethodsAreRefused | src/auth/mod.rs:190-196 | a request by any other method is refused by name |
| Auth.AnswersReadBack | src/auth/mod.rs:117-143 | the server's answers read as the methods that may go on and the name of the service |
| Auth.Parse | src/auth/mod.rs:152-194 | method-dependent fields, and the error for any other method |
| Auth.BuildPasswordAuthRequest | src/auth/mod.rs:78-91 | the payload of the password method |
| Auth.BuildPubkeyAuthRequest | src/auth/mod.rs:94-114 | the payload of the publickey method |
| Auth.UserDatabase.AddPasswordUser | src/auth/mod.rs:41-44 | changes one user's password and nothing else |
| Auth.UserDatabase.AddPublicKey | src/auth/mod.rs:47-52 | adds one key to one user and nothing else |
| Channels.IdsCountUp | src/connection/mod.rs:65-134 | along every run the ids issued count up from the first and wrap at 2^32, and every channel is filed under its own, already issued id |
| Channels.IdsNeverReusedIff | src/connection/mod.rs:65-134 | no id is issued twice, even after removal, exactly in the runs of at most 2^32 allocations |
| Channels.ReplacesOnlyWrapped | src/connection/mod.rs:65-107 | a live channel is replaced by a new one only after 2^32 allocations |
| Channels.IdsWrapAround | src/connection/mod.rs:65-71 | 2^32 opens bring id 0 back, and one more puts a new channel in the place of the live channel 0 |
| Channels.RemoteLookupIsGet | src/connection/mod.rs:92-122 | if the peer numbers channels in order and opens arrive in order, looking up by remote id is single-valued and agrees with looking up by id in every reachable state |
| Channels.OthersAreLeftAlone | src/connection/mod.rs:65-175 | no operation touches any other channel, a removed one is gone, and only an allocation adds one |
| Channels.WindowsIff | src/connection/mod.rs:137-175 | data is taken and window consumed exactly as far as the window goes, and a grant adds to it up to 2^32 - 1 |
| Channels.ConfirmedChannel | src/connection/mod.rs:65-89 | a channel the client has opened and the server confirmed has these fields |
| Channels.ChannelManager.AcceptChannel | src/connection/mod.rs:92-107 | the new channel and the next id, nothing else |
| Channels.ChannelManager.ConfirmChannel | src/connection/mod.rs:74-89 | the three remote fields of a known channel, or the error and no change |
| Channels.ChannelManager.FindByRemoteId | src/connection/mod.rs:120-129 | some channel with the remote id, or none exactly when there is none |
| Channels.ChannelManager.RemoveChannel | src/connection/mod.rs:132-134 | removes that channel and returns it |
| Channels.ChannelManager.ReceiveData | src/connection/mod.rs:137-150 | takes the data off the local window and appends it, or refuses it without change |
| Channels.ChannelManager.ConsumeRemoteWindow | src/connection/mod.rs:153-164 | takes the amount off the remote window, or refuses without change |
| Channels.ChannelManager.AdjustLocalWindow | src/connection/mod.rs:167-174 | adds to the local window, saturating |
| FlowControl.NothingIsRefused | src/connection/mod.rs:137-174 | in every run whose grants do not push a window past 2^32-1, sender window plus data and adjustments in flight equal the receiver window, so data is never refused (section 5.2 of RFC 4254) |
| FlowControl.NothingIsRefusedBothWays | src/connection/mod.rs:65-174 | the same for both directions of a channel at once, with any operations on other channels of the two managers in between |
| FlowControl.StepBalances | src/connection/mod.rs:137-174 | each step keeps the balance and loses or duplicates no byte |
| FlowControl.GrantBalancesIff | src/connection/mod.rs:167-174 | a grant keeps the balance iff it does not saturate the window |
| FlowControl.RefusedAfterGrantIff | src/connection/mod.rs:137-174 | from a balanced state, a sender that keeps to its window can be refused before the next grant exactly if the grant saturates the window |
| FlowControl.OpeningBalances | src/connection/mod.rs:65-107 | opening, accepting and confirming leave both directions balanced |
| Messages.OpenRoundTrip | src/connection/mod.rs:191-204 | a built CHANNEL_OPEN parses back whatever follows |
| Messages.DataRoundTrip | src/connection/mod.rs:238-244 | built CHANNEL_DATA parses back whatever follows |
| Messages.RequestRoundTrip | src/connection/mod.rs:272-390 | every request parses back; exec, shell and pty-req are instances |
| Messages.OpenParsesIff | src/connection/mod.rs:330-343 | an open is read exactly off what its builder writes, with anything behind it |
| Messages.DataParsesIff | src/connection/mod.rs:353-362 | data is read exactly off what its builder writes, with anything behind it |
| Messages.RequestParsesIff | src/connection/mod.rs:375-390 | a request is read exactly off its recipient, type, any flag that means the same, and data |
| Messages.ExecRoundTrip | src/connection/mod.rs:272-284 | the server reads the command of a built exec request back |
| Messages.BuildChannelOpen | src/connection/mod.rs:191-204 | the payload of the open |
| Messages.BuildChannelData | src/connection/mod.rs:238-244 | the payload of the data |
| Messages.BuildExecRequest | src/connection/mod.rs:272-284 | the payload of an exec request |
| Messages.BuildShellRequest | src/connection/mod.rs:287-294 | the payload of a shell request |
| Messages.BuildPtyRequest | src/connection/mod.rs:297-318 | the payload of a pty request |
| Messages.ParseChannelOpen | src/connection/mod.rs:330-343 | the four fields, or the error |
| Messages.ParseChannelData | src/connection/mod.rs:353-362 | both fields, or the error |
| Messages.ParseChannelRequest | src/connection/mod.rs:375-390 | the fields and the rest as data, or the error |
| SftpCodec.AttrsSurviveIff | src/sftp/mod.rs:78-127 | attributes survive encoding, leaving exactly what follows, iff their flags match their fields |
| SftpCodec.HandlerAttrsAreWellFlagged | src/sftp/mod.rs:620-636 | what the handler sends is always in that domain |
| SftpCodec.SftpSurvivesFraming | src/bin/server.rs:425-435 | an SFTP packet survives the server's framing with any trailing bytes |
| SftpCodec.UnwrapsIff | src/bin/server.rs:424-434 | the server finds a packet in channel data exactly if the data begins with it |
| SftpCodec.SftpOnWire | src/sftp/mod.rs:146-154 | on the wire a packet is its length, type, id and data |
| SftpCodec.StatusReadsBack | src/sftp/mod.rs:193-199 | a STATUS reads as its code, message and language |
| SftpCodec.NamesReadBack | src/sftp/mod.rs:216-225 | a NAME reply reads as its entries, in order |
| SftpCodec.NameRepliesEqualIff | src/sftp/mod.rs:216-225 | NAME replies of any lengths are equal iff they list the same entries |
| SftpCodec.ReadReplyFits | src/sftp/mod.rs:474-486 | every READ reply fits one encrypted packet and its parser's limits |
| SftpCodec.EncodeAttrs | src/sftp/mod.rs:78-96 | flags and the present fields in order |
| SftpCodec.DecodeAttrs | src/sftp/mod.rs:99-126 | the flagged fields and the position behind them, or the error |
| SftpCodec.BuildSftpName | src/sftp/mod.rs:216-225 | count and entries in order |
| SftpConfinement.ResolvesIff | src/sftp/mod.rs:254-279 | for an absolute dot-free canonical root and the lexical fallback a request is accepted iff the joined path never climbs above / and means something under the root; the result is that meaning, free of dots |
| SftpConfinement.ClimbsIff | src/sftp/mod.rs:605-617 | climbing above / by counting components is what popping the root component amounts to |
| SftpConfinement.RenderedWithoutRoot | src/sftp/mod.rs:609-611 | a path whose root was popped is not absolute, so it is under no root |
| SftpPaths.NormalizePath | src/sftp/mod.rs:605-617 | the loop over components computes the fold of pushes and pops |
| SftpPaths.ResolvePath | src/sftp/mod.rs:254-279 | canonical form, fallback and prefix test, with the error |
| SftpPaths.RenderReadsBack | src/sftp/mod.rs:605-617 | a rendered component list reads back as itself |
| SftpRuns.TablesStaySound | src/sftp/mod.rs:281-460 | in every run stored paths lie under the root; as long as at most 2^32 handles have been issued, live handles are big-endian numbers issued so far and the tables are disjoint |
| SftpRuns.StaysApartIff | src/sftp/mod.rs:281-443 | a request keeps the two handle tables disjoint exactly unless it is granted the next handle while that handle is live in the other table |
| SftpRuns.AlwaysApartIff | src/sftp/mod.rs:281-443 | over a whole run of any length: the tables are disjoint at every point exactly if no request of the run collides in that way |
| SftpRuns.StaysInside | src/sftp/mod.rs:254-601 | no request changes, creates or removes a file outside the root, or moves the root or a stored path out of it |
| SftpRuns.NothingOutsideChanges | src/sftp/mod.rs:254-601 | so no run of requests does, whatever the packets and the answers of the file system, as long as the root itself stays where it is |
| SftpRuns.TablesClash | src/sftp/mod.rs:281-285 | with one handle more they need not be: a file kept open since the first request shares its handle with a new directory |
| SftpRuns.NumbersCountUp | src/sftp/mod.rs:281-285 | in every run the handles issued count up and wrap at 2^32 |
| SftpRuns.HandlesNeverReusedIff | src/sftp/mod.rs:281-285 | no handle is issued twice exactly in the runs that issue at most 2^32 |
| SftpRuns.IssuesIff | src/sftp/mod.rs:281-443 | a reply carries a handle exactly when the request is granted one and its number is next |
| SftpRuns.ComesBackIff | src/sftp/mod.rs:281-443 | a handle is issued again after its first issue exactly when 2^32 more have been issued |
| SftpRuns.ClosedStaysClosed | src/sftp/mod.rs:371-541 | until it is issued again, a closed handle answers "Invalid handle" to every well-formed READ, WRITE and READDIR, in every run |
| SftpRuns.OneListingPerHandle | src/sftp/mod.rs:371-406 | if two READDIRs on one handle are answered with names, the handle was issued again between them |
| SftpTransfers.WritesFold | src/sftp/mod.rs:488-541 | successful writes without TRUNC equal the fold of positional overwrites with zero-filled gaps, and touch no other file |
| SftpTransfers.TruncatingWrites | src/sftp/mod.rs:519-523 | with TRUNC only the latest write survives, after zeros |
| SftpTransfers.ReadsReconstruct | src/sftp/mod.rs:446-486 | reads of positive length advancing by what they return, short or not, collect the file from their start; the first EOF means all of it and comes within the file's length plus one reads |
| SftpAnswers.OpenDecidesWriting | src/sftp/mod.rs:421-541 | the flags of an OPEN decide for good what its handle can write: after any requests that neither close the handle nor are given it again, a WRITE is refused without flag 2, fails on a missing file without flag 8, starts from an empty file with flag 16, and otherwise overwrites the file at the path of the OPEN |
| SftpAnswers.WriteAnswered | src/sftp/mod.rs:488-541 | the same for one WRITE, with the code, the message and the file for every branch |
| SftpAnswers.ReadAnswered | src/sftp/mod.rs:446-485 | READ: bytes of the file from the offset on, as many as were asked for up to 32768 if the system does not return short, or EOF, or the error of the step that fails |
| SftpAnswers.AnswersBearId | src/sftp/mod.rs:288-306 | every answer bears the id of its request |
| SftpAnswers.StatAnswered | src/sftp/mod.rs:325-345 | a successful STAT reads as size, owner and mode of the metadata |
| SftpAnswers.RealpathAnswered | src/sftp/mod.rs:309-322 | REALPATH names the one path the request stands for |
| SftpAnswers.OpenAnswered | src/sftp/mod.rs:421-443 | OPEN hands out the next number, for the resolved path and the flags of the request |
| SftpAnswers.OpendirAnswered | src/sftp/mod.rs:348-368 | OPENDIR hands out the next number for a directory still to be listed |
| SftpAnswers.ReaddirAnswered | src/sftp/mod.rs:371-406 | the first READDIR lists everything the system lists, a further one is told that this was all |
| SftpAnswers.CloseAnswered | src/sftp/mod.rs:409-418 | CLOSE takes the handle out of both tables and leaves the others |
| SftpAnswers.ChangeAnswered | src/sftp/mod.rs:543-601 | a successful REMOVE takes the file away, and nothing else is touched |
| SftpAnswers.BadPathIsRefused | src/sftp/mod.rs:309-601 | a request whose path cannot be read is refused without effect |
| SftpAnswers.BadHandleIsRefused | src/sftp/mod.rs:371-541 | a request whose handle cannot be read is refused without effect |
| SftpAnswers.UnknownHandleIsRefused | src/sftp/mod.rs:371-541 | a request through a handle that is not open is refused without effect |
| SftpAnswers.Unsupported | src/sftp/mod.rs:288-306 | a request of any other type is refused without effect |
| SftpFiles.LastWriterWins | src/sftp/mod.rs:488-541 | after any run of writes each byte is that of its last writer, and the length is the furthest reach |
| SftpHandler.SftpServer.HandleRequest | src/sftp/mod.rs:288-306 | dispatch by packet type; state, disk and reply are those of the handler for it |
| SftpHandler.SftpServer.AllocHandle | src/sftp/mod.rs:281-285 | the big-endian number, and the next one |
| SftpHandler.SftpServer.HandleStat | src/sftp/mod.rs:325-345 | attributes or the error, no change |
| SftpHandler.SftpServer.HandleRealpath | src/sftp/mod.rs:309-322 | one name or the error, no change |
| SftpHandler.SftpServer.HandleOpendir | src/sftp/mod.rs:348-368 | a new directory handle only for a directory under the root |
| SftpHandler.SftpServer.HandleReaddir | src/sftp/mod.rs:371-406 | one listing, then end of directory |
| SftpHandler.SftpServer.HandleClose | src/sftp/mod.rs:409-418 | removes the handle from both tables |
| SftpHandler.SftpServer.HandleOpen | src/sftp/mod.rs:421-443 | a new file handle only for a path under the root |
| SftpHandler.SftpServer.HandleRead | src/sftp/mod.rs:446-486 | a chunk of at most 32768 bytes, EOF, or the error of its branch; a directory opens and then fails to be read |
| SftpHandler.SftpServer.HandleWrite | src/sftp/mod.rs:488-541 | the file is opened anew, truncated if the handle says so, and overwritten at the offset, or the error of the step that fails; by the flags of the OPEN in `SftpAnswers.OpenDecidesWriting` |
| SftpHandler.SftpServer.HandleChange | src/sftp/mod.rs:543-601 | mkdir, rmdir and remove: only remove takes a file away |

## Left out

- AES, SHA-256, HMAC and X25519 themselves, and random generation: arbitrary functions and arbitrary inputs.
- Host-key signatures, public-key signature verification and algorithm negotiation: the program does not check them.
- Sockets, tasks, `select!`, flushing, logging and command-line arguments: a connection is its incoming bytes and its outgoing bytes; a stream that ends is one on which a read fails.
- `execute_command`: the output is an arbitrary string, and the files afterwards are an arbitrary function of the files before, for each message.
- Other processes that change the files between two messages: the abstract disk changes only by SFTP requests and by commands the session runs.
- `canonicalize`, symlinks, directory contents and order, metadata and permissions: answers of an oracle for each request; two paths that name one file through links are different files of the abstract disk.
- Partial effects of a failed write are an arbitrary new content of that one file; the abstract disk holds regular files only, and that a path is a directory is an answer of the oracle.
- The interactive shell of the client (standard input, the two-way loop) and the lossy decoding of what it prints: with a command, the bytes handed to printing are modelled; what goes to standard error is parsed and dropped.
- `MessageType::from_u8`, `DisconnectReason`, `SessionState` and the constant tables: finite cases, taken as given.
- `build_channel_open_failure`, `build_window_adjust`, `read_mpint`, `active_count`: easy members of families that are modelled.
- Rekeying, SFTP INIT/VERSION, SETSTAT and FSTAT: the running program does not handle them.
- Kex.TranscriptsEqualIff: stated for fields shorter than 2^32 bytes, since `write_string` truncates longer lengths.
