# A model of the SIP stack's protocol core

This project models, in Dafny, the parts of the SIP stack in which a mistake is hardest to see: the transaction layer of
section 17 of RFC 3261, the framing of messages on a stream (section 18.3), the parsers and printers of SIP URIs, Via and
the other mandatory headers, the session descriptions of RFC 4566, and the offers and answers of RFC 3264.

* **Transactions.** `ClientMachine` and `ServerMachine` are machines of atomic steps; their theorems hold for every user and
  every schedule. `ClientTransactions` and `ServerTransactions` are the objects with their fields, on a virtual millisecond
  clock; a ghost history ties each object to a run of its machine, so that what holds of all runs holds of the object. What
  will arrive on a channel, and when, is a sequence that the channel is created with. `Network` composes one INVITE client
  and one INVITE server over a network that loses, duplicates and reorders. Sending is appending to a trace.
* **Framing.** `Framing` has the decoder over its buffer; `LengthSearch` says what length it finds in any header lines; `Chunking` shows that any way of cutting a stream into chunks gives
  the messages that were sent.
* **Parsers and printers.** `Scanners` is the cursor. For each parser there is a grammar, functions on the text in front of the
  cursor (`SipGrammar`, `MessageGrammar`, `SdpGrammar`), and a class whose methods do to the scanner exactly what these
  functions say (`SipParsers`, `SdpParsers`). The round trips of URIs, Via, request lines, From and To, Record-Route, header
  sections, whole messages, session descriptions and offers say exactly which values come back: each is an equivalence between
  reading back the same value and a condition on the fields that a caller can check. `OtherForms`,
  `Words`, `ParamMeaning` and `SdpForms` say what is read of texts that are never written, and `Examples` what some values look like on the
  wire. How the headers that play no part in
  the transactions read their values is a parameter: any readers that only move forward.
* **Headers and the wire.** `Headers` makes responses and ACKs and gives each message its key. `Wire` sends messages: written,
  cut into arbitrary chunks, framed and parsed. `Exchange` has the whole exchange of a request, its response and the ACK, each
  made from what was read of the one before, and matched to the transaction that waits for it.
* **Offers and answers.** `Negotiation` has the negotiator; `OfferAnswer` shows what its answers promise to the other side and
  which offers survive the wire.

A byte is a character below 256 and a text is its UTF-8 bytes. Times are milliseconds. Where the source would stop with a
panic, the model has an outcome of its own (`Panicked`, `Panic`, `Overflow`).

## Where the code and its documentation differ

The model follows the code:

* The scanner counts columns from 0 on the first line and from 1 on later ones.
* The ranges `200..299` and `300..699` leave out their upper ends; no status code is there.
* The deadline of an INVITE server in Completed is T4, not 64*T1; client intervals are not limited by T2.
* On reliable transport a 300-699 response to an INVITE is not acknowledged.
* A call for a provisional response leads to Proceeding even if a final response is found in front.
* An IPv6 host is written without its brackets; a URI header without a value comes back with an empty one.
* A bare URI in From or To is written without brackets, so that its own parameters come back as those of the header.
* An INVITE client in Proceeding has no timeout.
* A blank behind the comma between two Via values is an error; a display name `sip` needs a blank in front of the bracket.
* An rtpmap text for a codec that the source has no text for is not of the form of RFC 4566.
* A number of ports and a time to live of an address are written or allowed, but never read; the content of an unknown field of
  a description is read as the next field.
* A body without a Content-Type header is not read, and line breaks at the start of a body are lost.
* A branch may have colons and brackets, but as the tag of a response it is read only up to the first of them, and the
  response is lost.
* In a request line, a last URI parameter without name and value takes the version for its name.
* A media title is written as a `t=` line; a `b=` line is never read back.
* An answer leaves out the streams that were refused by port zero instead of refusing them in turn.

## Model

| member | source | states |
|---|---|---|
| `Channels.Receiver.Recv` | rssip-utils/src/peekable_receiver.rs:19-23 | a receive under a time limit takes a message that is there or comes in time, and otherwise ends at the limit with the channel as it was |
| `Channels.PeekableReceiver.Recv` | rssip-utils/src/peekable_receiver.rs:19-23 | the peeked message comes first, then the channel: what was to be received is the result followed by what is still to be received |
| `Channels.PeekableReceiver.Peek` | rssip-utils/src/peekable_receiver.rs:31-36 | looking ahead removes nothing from what is still to be received, and shows its front |
| `Channels.PeekableReceiver.RecvIf` | rssip-utils/src/peekable_receiver.rs:38-43 | the front is taken exactly if it satisfies the condition; otherwise nothing is removed and it stays the front |
| `Messages.FinalCodeRanges` | rssip/src/transaction/client.rs:118-127 | every final status code is in exactly one of the half-open ranges 200..299 and 300..699, so the range assertion for an ACK splits the final codes without a gap |
| `Messages.SameKey` | rssip/src/transaction/mod.rs:107-148 | two keys are equal exactly if role and branch are equal and the methods are equal or are INVITE and ACK; `AckFindsInvite` rests on it |
| `ClientMachine.RunInv` | rssip/src/transaction/client.rs:149-275 | in every run: the states go along the edges, the messages taken and still queued are those that arrived, and ACKs are sent exactly as the final response demands; the assertion and the unreachable arm are never met |
| `ClientMachine.StatesOfEveryRun` | rssip/src/transaction/fsm.rs:2-16 | in every run the states only go up and along the edges; no client is Confirmed, an INVITE client is never Trying and leaves Proceeding for Terminated only with a final response |
| `ClientMachine.AcknowledgementsOfEveryRun` | rssip/src/transaction/client.rs:165-206 | in every run: an INVITE answered 300-699 on unreliable transport has sent one ACK and one more per response absorbed, every other run none |
| `ClientMachine.ResponsesInArrivalOrder` | rssip/src/transaction/client.rs:208-217 | in every run the messages taken are, in arrival order, the provisional responses handed to the user, then the final one, then what the absorbing task took |
| `ClientMachine.NoRequestAfterProgress` | rssip/src/transaction/client.rs:225-248 | once Calling and Trying are left, no step sends the request again |
| `ClientMachine.CollectorGetsAll` | rssip/src/transaction/client.rs:149-217 | a user who asks for provisional responses until there is none and then for the final one, under every schedule of arrivals, intervals and timeouts: gets nothing but the leading provisional responses in order, then the first message that is none; ends without a final response only by a timeout or because that message is no response |
| `ClientMachine.CollectGetsAll` | rssip/src/transaction/client.rs:149-217 | that user gets all of them in as many calls as needed, whatever arrives and however many intervals run out while the calls wait, if each wait finds a message |
| `ClientTransactions.SixFit` | rssip/src/transaction/client.rs:227-239 | at most six doubled intervals from T1 fit between the creation and creation + 64*T1 |
| `ClientTransactions.ClientTransaction.Send` | rssip/src/transaction/client.rs:46-116 | creation sends the request once, starts in Calling or Trying and sets the timeout to 64*T1 later |
| `ClientTransactions.ClientTransaction.ReceiveRetransmitting` | rssip/src/transaction/client.rs:226-248 | over unreliable transport the k-th retransmission of a wait goes out T1*(2^k-1) after its start, at most six of them, none after the timeout; a message ends the wait when it comes, if it comes by the timeout, and else the wait ends Terminated at the timeout; the channel loses the result and nothing else |
| `ClientTransactions.UnansweredRequest` | rssip/src/transaction/client.rs:219-248 | a request that is never answered is sent again after 500, 1500, 3500, 7500, 15500 and 31500 ms, and not again before the timeout |
| `ClientTransactions.ClientTransaction.ReceiveResponseIf` | rssip/src/transaction/client.rs:219-275 | each arm of the wait: which ones retransmit, and that a message ends the wait when it comes, by the timeout or, for an INVITE in Proceeding, at any time; else the others time out |
| `ClientTransactions.ClientTransaction.WaitOnRecord` | rssip/src/transaction/client.rs:219-284 | a wait of the object is a stretch of a run of the state machine, and the request has been sent at most seven times |
| `ClientTransactions.ClientTransaction.ReceiveProvisionalResponse` | rssip/src/transaction/client.rs:149-163 | a matching response that comes in time is handed out and removed, any other stays in front, and in both cases the state is Proceeding afterwards; the rest of the channel is untouched |
| `ClientTransactions.ClientTransaction.ReceiveFinalResponse` | rssip/src/transaction/client.rs:165-206 | on a final response that comes in time: Terminated at once for reliable transport or 2xx to an INVITE, else Completed, with an ACK exactly for an INVITE, and an absorbing timer of 64*T1 or T4; a provisional in front is the error; the rest of the channel is untouched |
| `ClientTransactions.Collect` | rssip/src/transaction/client.rs:149-217 | the same user on the object and its clock: for any arrivals at any times, the codes are exactly the leading provisional responses and the result is the message behind them, all of them in time, or, not before the timeout, a timeout with nothing in the channel by then; what is left in the channel is what comes behind |
| `ClientTransactions.ClientTransaction.AbsorbRetransmissions` | rssip/src/transaction/client.rs:192-203 | the absorbing task repeats the ACK for each response when it comes, if it comes before the timer, and ends Terminated at the timer or at the first other message |
| `ServerMachine.RunInv` | rssip/src/transaction/server.rs:105-348 | in every run: the phase invariants, exactly one owner of the queue, a task that has the newest provisional responses, and nothing lost between the arrivals and who took them |
| `ServerMachine.StatesOfEveryRun` | rssip/src/transaction/server.rs:154-232 | in every run the states go along the edges and never down, only an INVITE server is Confirmed, and Completed is skipped exactly if an INVITE is answered with 2xx |
| `ServerMachine.OneOwnerOfTheQueue` | rssip/src/transaction/server.rs:119-191 | in every run the receiver is with exactly one of transaction, task and final loop, so both expectations of it hold; what the task took, then the loop took, then is queued, is what arrived |
| `ServerMachine.AnsweredWithNewest` | rssip/src/transaction/server.rs:322-342 | every message that the task picks up is answered with the newest provisional response handed over so far |
| `ServerMachine.NeverAnOlderOne` | rssip/src/transaction/server.rs:105-130 | in every run, what a later selection sends again is never older than what an earlier one sent: they are the responses at places a <= b in the order in which they were handed over |
| `ServerMachine.OnlyFinalAfterJoin` | rssip/src/transaction/server.rs:184-232 | after the join only the final response is sent, and no more messages are taken by the provisional loop |
| `ServerMachine.LateStep` | rssip/src/transaction/server.rs:165-191 | with the final response sent, a step sends a provisional one exactly if it is a selection that answers a message before the state is changed; for every method, every final code and both kinds of transport |
| `ServerMachine.ProvisionalAfterFinal` | rssip/src/transaction/server.rs:165-191 | in every run, a provisional response is on the wire behind the final one exactly if there was such a selection |
| `ServerMachine.ProvisionalAfterFinalHappens` | rssip/src/transaction/server.rs:322-342 | there are such runs, for any codes |
| `ServerTransactions.ServerTransaction.FromRequest` | rssip/src/transaction/server.rs:37-90 | a server starts in Proceeding for an INVITE, in Trying otherwise, and owns its queue |
| `ServerTransactions.ServerTransaction.SendProvisionalResponse` | rssip/src/transaction/server.rs:105-139 | a provisional response is sent and queued for the task, which is spawned by the first one; any other code is refused and changes nothing |
| `ServerTransactions.ServerTransaction.TaskSelect` | rssip/src/transaction/server.rs:322-342 | one biased selection: a state change ends the task, else a new response is adopted, else a message that is there is answered with the current one |
| `ServerTransactions.ServerTransaction.SendFinalResponse` | rssip/src/transaction/server.rs:154-191 | the final response is sent and the state settled; a loop follows exactly on unreliable transport unless an INVITE got 2xx, with deadline T4 or 64*T1 |
| `ServerTransactions.ServerTransaction.JoinTask` | rssip/src/transaction/server.rs:184-191 | the channel comes back from the task, or from the transaction if there never was one |
| `ServerTransactions.ServerTransaction.AwaitAck` | rssip/src/transaction/server.rs:191-222 | for any deadline and arrivals, every sending with its time: each is due exactly when its interval has run out after the one before, or when a message that is no ACK comes earlier; the loop ends with the first ACK, or at the deadline before which no more is due |
| `ServerTransactions.Unanswered` | rssip/src/transaction/server.rs:191-222 | with no message at all the response is sent again after 500, 1500 and 3500 ms, and not again before T4 |
| `ServerTransactions.CappedIntervals` | rssip/src/transaction/server.rs:208-213 | from the fourth on, an interval is four seconds |
| `ServerTransactions.ServerTransaction.RepeatUntil` | rssip/src/transaction/server.rs:224-232 | a server for another method repeats the response for each message when it comes, up to its deadline, and is then Terminated |
| `Network.RunInv` | rssip/src/transaction/mod.rs:73-105 | in every run of both machines over a network that loses, duplicates and reorders: each machine keeps its invariant and whatever was delivered had been sent by the other side |
| `Network.Agreement` | rssip/src/transaction/server.rs:154-222 | the final response a client takes is the one and only final response of the server |
| `Network.ConfirmedMeansAcknowledged` | rssip/src/transaction/server.rs:191-222 | if the server was ever Confirmed, the client took a 300-699 response, has sent an ACK and is Completed or Terminated, and that response is the only final one of the server |
| `Network.ConfirmedHappens` | rssip/src/transaction/server.rs:191-222 | there is a run in which the server is Confirmed |
| `Headers.TryFrom` | rssip/src/transport/incoming.rs:102-136 | the topmost Via and the last of each other mandatory header, or the first name that is missing |
| `Headers.MissingIsNamed` | rssip/src/transport/incoming.rs:102-136 | the header that is reported is the first of Via, From, To, Call-ID and CSeq that is not there |
| `Headers.CreateResponse` | rssip/src/core/endpoint/mod.rs:88-146 | status line, headers and no body of a response, as the specification that the lemmas below are about |
| `Headers.ResponseCopies` | rssip/src/core/endpoint/mod.rs:99-136 | a response repeats the Via headers in order, the topmost stamped with the source address, and the Record-Route headers; its mandatory headers are those of the request but for the To tag |
| `Headers.ResponsesAreTagged` | rssip/src/core/endpoint/mod.rs:121-131 | a response has a To tag exactly if the request had one, or its code is above 100 and the topmost Via has a branch |
| `Headers.PreparedBranch` | rssip/src/transaction/client.rs:63-83 | the branch under which a client waits is the one in the topmost Via that it sends |
| `Headers.PreparedKeeps` | rssip/src/transaction/client.rs:63-83 | a client transaction changes nothing in a request whose topmost Via has a branch, else only that branch, and without a Via it only puts its own in front |
| `Headers.ResponseFindsClient` | rssip/src/transaction/mod.rs:114-148 | the response to a request carries the key that its client registered exactly if the branch has the cookie |
| `Headers.AckFindsInvite` | rssip/src/transaction/client.rs:118-147 | the ACK made from a response has the key of the INVITE server; a CANCEL on that branch has neither that key nor the key of the client |
| `Headers.CreateAck` | rssip/src/transaction/client.rs:118-147 | the request line with the target of the request, and the mandatory headers of the response with the method of its CSeq replaced |
| `Headers.AckCopies` | rssip/src/transaction/client.rs:118-147 | an ACK has the Via, From, To and Call-ID of the response and the number of its CSeq, and no other headers |
| `Headers.TsxPlugin.GetEntry` | rssip/src/transaction/mod.rs:60-104 | a message goes to the entry of its key, or to none |
| `Framing.StreamingDecoder.Decode` | rssip/src/transport/decode.rs:29-93 | one call takes exactly the frame of the specification off the buffer, and leaves the buffer alone when it waits or fails |
| `Framing.StreamingDecoder.FindContentLength` | rssip/src/transport/decode.rs:50-74 | the loop over the header lines finds the last length that reads as a number, or the invalid text |
| `LengthSearch.LengthFound` | rssip/src/transport/decode.rs:50-74 | over any lines: the length found is n exactly if some line named Content-Length or l, in any case, has the number n, no later such line has a number, and the values of all such lines are text; likewise when none is found and when the search fails |
| `LengthSearch.NumberReads` | rssip/src/transport/decode.rs:69-71 | a number is read with white space around it, a plus sign and leading zeros; one that is too large is none |
| `LengthSearch.DecodingOfAnyLines` | rssip/src/transport/decode.rs:44-92 | behind a header section of any lines the decoder cuts off a body of the length found, waits for it, or fails |
| `LengthSearch.Keepalives` | rssip/src/transport/decode.rs:31-38 | two line breaks are a keep-alive request and one alone is a response |
| `Framing.Conserves` | rssip/src/transport/decode.rs:29-93 | a frame and the rest are the bytes that were there, and the rest is shorter |
| `Framing.DrainConserves` | rssip/src/transport/decode.rs:29-93 | the frames of a drained buffer and what is left are all its bytes |
| `Framing.CompleteIsStable` | rssip/src/transport/decode.rs:76-86 | once a message can be decoded, more bytes change neither it nor the start of the rest |
| `Framing.FramedRead.Read` | rssip/src/transport/tcp.rs:166-182 | a chunk is appended and frames are taken until the decoder waits or fails |
| `Chunking.Encode` | rssip/src/transport/outgoing.rs:100-131 | a message is its start line, its header lines, the length line, an empty line and its body |
| `Chunking.WriteBody` | rssip/src/transport/outgoing.rs:135-146 | the length of the body, an empty line and the body are appended |
| `Chunking.LastLengthDecides` | rssip/src/transport/decode.rs:50-74 | whatever other lines say, the length line that is written last decides |
| `Chunking.MessageCut` | rssip/src/transport/decode.rs:76-86 | a message that is all there is cut off exactly |
| `Chunking.MessageWaits` | rssip/src/transport/decode.rs:77-81 | a message that is not all there is waited for |
| `Chunking.AnyChunksGiveTheMessages` | rssip/src/transport/decode.rs:29-93 | for any messages among any keep-alive line breaks, and any chunks, the frames are exactly those messages in order, nothing is left, and the keep-alive frames account for every line break |
| `Scanners.PositionMeans` | rssip-utils/src/scanner/mod.rs:369-378 | the line is one more than the line feeds read, and the column counts from 0 on the first line and from 1 later |
| `Scanners.Scanner.ScanWhile` | rssip-utils/src/scanner/mod.rs:203-215 | the longest prefix of matching bytes is read, and the cursor stands behind it |
| `Scanners.Scanner.MustScanSlice` | rssip-utils/src/scanner/mod.rs:239-248 | the expected bytes are read as far as the buffer goes, so a truncated text is accepted |
| `Scanners.Scanner.MustRead` | rssip-utils/src/scanner/mod.rs:256-267 | the expected byte is read, or the cursor stays and the error tells which case it is |
| `Scanners.Scanner.ScanNumber` | rssip-utils/src/scanner/mod.rs:154-188 | the digits in front are read as a number up to a limit |
| `Scanners.Scanner.ScanNewline` | rssip-utils/src/scanner/mod.rs:286-293 | a carriage return, a line feed or both are read |
| `Scanners.Scanner.ScanWhileAsStr` | rssip-utils/src/scanner/mod.rs:314-319 | matching bytes are read and must be valid UTF-8 |
| `SipParsers.SipParser.ParseScheme` | rssip/src/parser.rs:532-548 | `sip` or `sips` is read with its colon; any other word is an error that leaves the cursor where it was; `UriReads` is the counterpart for written URIs |
| `SipParsers.SipParser.ParseUserInfo` | rssip/src/parser.rs:550-568 | a user part is read exactly if an at sign comes before the next blank, newline or closing bracket; a password is what follows a colon; without a user part the cursor stays |
| `SipParsers.SipParser.ParseHostPort` | rssip/src/parser.rs:477-512 | what is in brackets must be an address; anything else is an address or a name and must not be empty; a port follows a colon; `HostPortReads` and `V6HostMisread` say which hosts survive being written |
| `SipParsers.SipParser.ParamRef` | rssip/src/parser.rs:825-848 | a name and a bare or quoted value are read, with the cursor behind them; `ParamLoopReads` gives back what was written |
| `SipParsers.SipParser.ParseParams` | rssip/src/macros.rs:6-16 | the parameter loop ends on every text and puts each parameter into the value being built, in order |
| `SipParsers.SipParser.ParseUriHeaders` | rssip/src/parser.rs:587-598 | the header loop of a URI ends on every text and collects the headers in order |
| `SipParsers.SipParser.ParseUri` | rssip/src/parser.rs:401-463 | scheme, user, host, port, special and generic parameters and headers are read in that order, with the value, rest or error of the grammar that `UriRoundTrips` is about |
| `SipParsers.SipParser.ParseNameAddr` | rssip/src/parser.rs:465-475 | a display name, quoted or not, is followed by a URI in angle brackets; the value, rest or error is the one that `SipUriRoundTrips` is about |
| `SipParsers.SipParser.ParseSipUri` | rssip/src/parser.rs:381-399 | the lookahead tells a bare URI from a name-addr without moving the cursor; what is then read is what `SipUriRoundTrips` is about |
| `SipParsers.SipParser.ParseVia` | rssip/src/message/headers/via.rs:57-131 | the transport, the sent-by address, the parameters in any order, with an empty rport told from an absent one, and a comment; the value, rest or error is the one that `ViaRoundTrips` is about |
| `SipParsers.SipParser.ParseVias` | rssip/src/parser.rs:137-144 | the loop over Via headers joined by commas ends on every text and makes one header of each |
| `SipParsers.SipParser.CollectElems` | rssip/src/macros.rs:36-50 | the loop over elements joined by commas, for any reader of one element that only moves forward, ends on every text and keeps their order; `ListReads` is its counterpart |
| `SipParsers.SipParser.ParseRepeated` | rssip/src/parser.rs:129-135 | the loop in which each element behind a comma is a header of its own, for any reader |
| `SipParsers.SipParser.ParseDigest` | rssip/src/parser.rs:662-716 | the comma loops of challenges and credentials end on every text and put each parameter into the value being built, in order |
| `SipParsers.SipParser.ParseAuth` | rssip/src/parser.rs:647-735 | a scheme and, for Digest, that loop, for any other scheme parameters behind semicolons |
| `Auth.AuthIsForward` | rssip/src/parser.rs:647-735 | the readers of challenges and credentials only move forward on every text, as the header loop asks of its readers |
| `OtherForms.AuthReads` | rssip/src/parser.rs:647-716 | a written Digest challenge or credential is read with all its parameters in order, in quotes or not |
| `OtherForms.OtherSchemeReads` | rssip/src/parser.rs:651-659 | of another scheme, with its parameters behind semicolons |
| `ParamMeaning.ChallengeMeans` | rssip/src/parser.rs:662-687 | each field of a challenge has what the last parameter of its name says |
| `ParamMeaning.CredentialMeans` | rssip/src/parser.rs:689-716 | each field of a credential has what the last parameter of its name says |
| `SipParsers.SipParser.ParseHeaders` | rssip/src/parser.rs:120-323 | the header loop ends on every text, whatever the readers of the other kinds of header make of theirs, because every header name takes its colon |
| `SipParsers.SipParser.ParseStatusLine` | rssip/src/parser.rs:334-343 | version, code, the reason up to the end of the line, and all the line breaks behind it; `StatusLineReads` gives back what was written |
| `SipParsers.SipParser.ParseRequestLine` | rssip/src/parser.rs:345-358 | method, URI, version and all the line breaks behind it; `RequestLineRoundTrips` says which come back |
| `SipParsers.SipParser.ParseSipMsg` | rssip/src/parser.rs:89-331 | a text that starts with the version is a response, any other a request; a body is read exactly behind a Content-Type header, without the line breaks at its start; `MessageRoundTrips` says which messages come back |
| `SipReading.ParamLoopReads` | rssip/src/message/params/mod.rs:67-77 | the parameter loop on written parameters does what they do one after the other, whatever set of characters and whatever values they are put into |
| `SipReading.HostPortReads` | rssip/src/message/uri.rs:567-578 | a host name or IPv4 address, with or without a port, reads as itself |
| `SipReading.V6HostMisread` | rssip/src/message/uri.rs:567-578 | whatever is read where an IPv6 address was written is not an IPv6 address |
| `UriRoundTrip.ReadBackSame` | rssip/src/message/uri.rs:592-604 | what comes back for a header list is the list itself exactly if it is not empty and every header has a value |
| `UriRoundTrip.UriReads` | rssip/src/message/uri.rs:260-310 | every valid URI with a host that is not IPv6 is read, and the text behind it is left; without values, headers come back with empty ones |
| `UriRoundTrip.UriRoundTrips` | rssip/src/parser.rs:401-463 | a valid URI reads back as itself exactly if its host is not IPv6 and its headers have values |
| `UriRoundTrip.SipUriRoundTrips` | rssip/src/message/uri.rs:226-241 | the same for a URI bare or in a name-addr, with or without a display name |
| `ParamMeaning.UriParamsMean` | rssip/src/parser.rs:416-455 | URI parameters in any order and number: refused exactly if a transport is unknown or a time to live is no number; else the last one of each special name counts and the others are kept in order |
| `OtherForms.LooseParamsRead` | rssip/src/macros.rs:6-16 | parameters are also read with blanks around them and with values in quotes |
| `OtherForms.QuotedValueReads` | rssip/src/parser.rs:825-848 | a value in quotes may have any characters but a quote |
| `OtherForms.BareNameAddrReads` | rssip/src/parser.rs:465-475 | a display name without quotes is the word in front of the bracket, and the value comes back exactly if its URI does |
| `OtherForms.BareNameSipUriReads` | rssip/src/parser.rs:381-399 | the same where a bare URI may stand, unless the word is a scheme with the bracket right behind it |
| `OtherForms.BareNamePartyReads` | rssip/src/message/headers/to.rs:35-50 | and in From and To, with tag and parameters |
| `OtherForms.BracketReads` | rssip/src/parser.rs:477-512 | what is in brackets is read as an address, IPv6 or IPv4, with or without a port, and is an error if it is none |
| `OtherForms.V6Reads` | rssip/src/parser.rs:477-512 | an IPv6 host comes back where the brackets are written |
| `Words.V4Is` | rssip/src/parser.rs:495-506 | a host is an IPv4 address exactly if it is what is printed for that address |
| `Words.OtherSchemesFail` | rssip/src/parser.rs:532-548 | another scheme than sip and sips is an error |
| `Words.PortIs` | rssip/src/parser.rs:570-585 | a port is a number up to 65535, and anything else behind the colon an error |
| `Words.MethodIs` | rssip/src/message/method.rs:77-97 | a method is known by its name in capital letters only |
| `Words.TransportIs` | rssip/src/parser.rs:425-432 | a transport is known by its name in letters of any case |
| `RequestRoundTrip.RequestLineRoundTrips` | rssip/src/parser.rs:345-358 | a valid request line reads back as itself exactly if the URI would and no parameter without name and value ends it, which would take the version for its name |
| `ViaRoundTrip.ViaReads` | rssip/src/message/headers/via.rs:142-179 | every valid Via sent by a host that is not IPv6 is read, in all three cases of rport |
| `ViaRoundTrip.ViaRoundTrips` | rssip/src/message/headers/via.rs:57-131 | a valid Via reads back as itself exactly if its sent-by address is not IPv6 |
| `ParamMeaning.ViaParamsMean` | rssip/src/message/headers/via.rs:76-120 | Via parameters in any order and number: refused exactly if a number or address is none; else the last one of each special name counts, with the three cases of rport |
| `OtherForms.CommaViasRead` | rssip/src/parser.rs:137-144 | Via values joined by commas are read one by one in order |
| `OtherForms.BlankBeforeViaFails` | rssip/src/message/headers/via.rs:57-62 | a blank behind such a comma is an error |
| `ViaRoundTrip.ViaLineReads` | rssip/src/parser.rs:371-379 | the name of a written Via line is read and its value is next |
| `MessageRoundTrip.PartyRoundTrips` | rssip/src/message/headers/to.rs:35-50 | a valid From or To value reads back as itself exactly if its host is not IPv6, and it is a name-addr whose URI headers have values or a bare URI without parameters and headers |
| `MessageRoundTrip.CSeqReads` | rssip/src/message/headers/cseq.rs:31-45 | a written CSeq reads as itself for every known method |
| `MessageRoundTrip.RouteRoundTrips` | rssip/src/message/headers/record_route.rs:27-42 | a valid Record-Route reads back as itself exactly if its host is not IPv6 and its URI headers have values |
| `MessageRoundTrip.ListReads` | rssip/src/macros.rs:36-50 | a written list is read element by element, for any reader that gives back each element up to the next comma |
| `MessageRoundTrip.HeadersRoundTrip` | rssip/src/parser.rs:120-323 | a written header section is read as the same headers in the same order exactly if each header is plain, a check on its fields; for the other kinds of header this holds for any readers that give back what was written |
| `OtherForms.CompactNames` | rssip/src/parser.rs:137-170 | the compact names v, f, t, i and l stand for Via, From, To, Call-ID and Content-Length |
| `OtherForms.LooseNameReads` | rssip/src/parser.rs:371-379 | blanks may stand on both sides of the colon behind a header name |
| `OtherForms.LineBreaks` | rssip-utils/src/scanner/mod.rs:286-293 | a line ends with a carriage return and a line feed, or with either alone |
| `OtherForms.RepeatedRead` | rssip/src/parser.rs:129-135 | where a line can give several headers, each element between commas is one, in order |
| `Wire.StatusLineReads` | rssip/src/parser.rs:334-343 | a written status line reads as its code and reason |
| `OtherForms.StatusCodeReads` | rssip/src/parser.rs:514-525 | a status code is three digits of a known code, with blanks around it or not |
| `OtherForms.TruncatedIsAccepted` | rssip-utils/src/scanner/mod.rs:239-248 | a text is refused exactly if it differs from the expected word as far as both go |
| `Wire.MessageRoundTrips` | rssip/src/transport/outgoing.rs:96-146 | a valid message, request or response, is read back with its line, all its headers and its body exactly if line and headers are plain, and there is a body exactly if there is a Content-Type header, and it does not start with a line break |
| `Words.BodyIsRead` | rssip/src/parser.rs:237-241 | a message that is read has a body exactly if it has a Content-Type header under its full or its compact name |
| `Wire.MessagesCrossTheStream` | rssip/src/transport/tcp.rs:166-182 | messages sent over a stream, among keep-alives and in any chunks, arrive in order, and each is read as it was sent exactly if it is plain |
| `Examples.UriExample` | rssip/src/message/uri.rs:260-310 | a URI with all its parts, as it is written |
| `Examples.ViaExample` | rssip/src/message/headers/via.rs:142-179 | a Via, as it is written |
| `Examples.HeaderExamples` | rssip/src/message/headers/mod.rs:263-270 | one line for each kind of header, as it is written |
| `Examples.MessageExample` | rssip/src/transport/outgoing.rs:96-146 | a request and a response, as they are written |
| `Exchange.ResponseReachesClient` | rssip/src/core/endpoint/mod.rs:88-146 | from a valid, plain request: the response that a server makes, written and sent back, can be read exactly if the request has a To tag, or the code is 100, or the branch is made of token characters; and then it has the key that the client registered |
| `Exchange.AckReachesServer` | rssip/src/transaction/client.rs:118-147 | from a valid, plain INVITE: if the client can read the response, the ACK that it makes from it comes back at the server exactly if the URI of the INVITE does so in a request line, and then it has the key of the INVITE's transaction |
| `SdpValues.SessionDescription.SetRepeatTimes` | rssip-media/src/sdp/mod.rs:460-467 | repeat times go to the last time description; without one nothing changes and the failure is told |
| `SdpValues.SessionDescription.Encode` | rssip-media/src/sdp/mod.rs:45-172 | the lines of a description in their order |
| `SdpParsers.SdpParser.ParseSdp` | rssip-media/src/sdp/parser.rs:50-119 | the loop ends on every text, and the description that is built has the value that the grammar function gives |
| `SdpParsers.SdpParser.ParseContent` | rssip-media/src/sdp/parser.rs:56-113 | an unknown field reads nothing; any other has its value put where its setter puts it, and `FieldsKeep` and `SdpRoundTrips` say what that makes of whole texts |
| `SdpParsers.SdpParser.ParseOrigin` | rssip-media/src/sdp/parser.rs:139-179 | the words of an origin, its numbers within 64 bits, with the cursor behind it; `OriginReads` gives back what was written |
| `SdpParsers.SdpParser.ParseConnectionInfo` | rssip-media/src/sdp/parser.rs:181-218 | network, address type and address, in that order; `ConnectionReads` gives back what was written |
| `SdpParsers.SdpParser.ParseMediaDescription` | rssip-media/src/sdp/parser.rs:220-268 | media type, port, protocol and formats to the end of the line; `MediaLineReads` and `NoFormatsMisread` say which lines come back |
| `SdpParsers.SdpParser.ParseFormats` | rssip-media/src/sdp/parser.rs:245-255 | the loop over formats ends on every text and keeps their order |
| `SdpParsers.SdpParser.ParseRepeatTimes` | rssip-media/src/sdp/parser.rs:286-307 | interval, duration and offsets without a sign; `RepeatReads` gives back what was written |
| `SdpReading.OriginReads` | rssip-media/src/sdp/parser.rs:139-179 | a written origin line is read and sets the origin |
| `SdpReading.ConnectionReads` | rssip-media/src/sdp/parser.rs:181-218 | a written connection line is read and goes to the level it was written at |
| `SdpReading.MediaLineReads` | rssip-media/src/sdp/parser.rs:220-268 | a written media line is read and starts a new media description |
| `SdpReading.RepeatReads` | rssip-media/src/sdp/parser.rs:286-307 | a written repeat line without negative numbers is read and goes under the last time line |
| `SdpRoundTrip.MediaAttributesRead` | rssip-media/src/sdp/mod.rs:433-439 | attributes written behind a media line belong to that media description |
| `SdpRoundTrip.RepeatsRead` | rssip-media/src/sdp/mod.rs:460-467 | repeat lines written behind a time line belong to it |
| `SdpRoundTrip.BandwidthNeverReads` | rssip-media/src/sdp/parser.rs:309-321 | no bandwidth line is ever read, because the colon is still there when the number should begin |
| `SdpRoundTrip.NoFormatsMisread` | rssip-media/src/sdp/parser.rs:232-243 | a media line without formats is never read |
| `SdpRoundTrip.TitleMisread` | rssip-media/src/sdp/mod.rs:137-139 | the title of a media description is either an error or one more time description |
| `SdpForms.PortCountMisread` | rssip-media/src/sdp/parser.rs:220-243 | a media line with a number of ports is never read |
| `SdpForms.TimeToLiveMisread` | rssip-media/src/sdp/parser.rs:181-218 | a connection line with a time to live is never read |
| `SdpForms.UnknownFieldReadsOn` | rssip-media/src/sdp/parser.rs:50-119 | the content of an unknown field is read as the next field |
| `SdpForms.AnyLineBreaks` | rssip-media/src/sdp/parser.rs:50-119 | lines may end in any number of line breaks of any kind |
| `SdpForms.OtherVersionsFail` | rssip-media/src/sdp/parser.rs:56-113 | only version 0 is accepted |
| `SdpForms.RepeatNeedsTime` | rssip-media/src/sdp/mod.rs:460-467 | repeat times without a time line are an error |
| `Words.MediaTypeIs` | rssip-media/src/sdp/parser.rs:220-231 | a media type is known by its name, except that of an application |
| `Words.ProtocolIs` | rssip-media/src/sdp/parser.rs:236-243 | a protocol is known by its name, plain UDP in small or in capital letters |
| `SdpRoundTrip.FieldsKeep` | rssip-media/src/sdp/parser.rs:50-119 | what every description has that was read from any text: no bandwidth, no port count, no application media, no negative repeat times |
| `SdpRoundTrip.SdpRoundTrips` | rssip-media/src/sdp/mod.rs:45-172 | a valid description reads back as itself exactly if it is plain, a check on its fields |
| `Examples.SdpLineExamples` | rssip-media/src/sdp/mod.rs:45-172 | lines of a description, as they are written |
| `Examples.SdpOrderExample` | rssip-media/src/sdp/mod.rs:45-172 | the order of all the lines of a description |
| `Negotiation.Negotiator.SetRemoteOffer` | rssip-media/src/negotiator.rs:65-73 | the offer is taken in the states Initial and LocalOffer, and refused without effect in all others |
| `Negotiation.Negotiator.SetLocalOffer` | rssip-media/src/negotiator.rs:75-83 | the offer is taken in the states Initial and RemoteOffer, and refused without effect in all others |
| `Negotiation.Negotiator.CreateOffer` | rssip-media/src/negotiator.rs:86-239 | the offer that the round trip is about, made without changing the negotiator |
| `OfferContent.OfferMeans` | rssip-media/src/negotiator.rs:116-238 | an offer speaks for the address it is made with, and has one stream for each asked for, with its port and the payload types of its codecs in order |
| `OfferContent.CodecsDescribed` | rssip-media/src/negotiator.rs:125-171 | the text for a codec describes it as RFC 4566 has it exactly if the codec is one of the four standard ones; for any other there is a slash where the blank belongs |
| `OfferContent.OfferAttributesAre` | rssip-media/src/negotiator.rs:185-203 | only the last stream has the packet times and the direction |
| `Negotiation.Negotiator.CreateAnswer` | rssip-media/src/negotiator.rs:242-354 | the answer that the lemmas are about; both expectations of an offer hold, and after a failure state and answer are as before |
| `OfferContent.AnswerMeans` | rssip-media/src/negotiator.rs:344-348 | an answer keeps the origin, address and all other session fields of the answerer; the times are those of the offer |
| `Negotiation.Negotiator.ProcessAnswer` | rssip-media/src/negotiator.rs:357-404 | an answer whose streams match is taken and ends the negotiation; otherwise nothing changes |
| `OfferAnswer.FormatsAreCommon` | rssip-media/src/negotiator.rs:318-334 | the formats of an answer are exactly the local ones that were also offered, in the local order |
| `OfferAnswer.StreamsAnswerPairs` | rssip-media/src/negotiator.rs:252-342 | the streams of an answer correspond in order to exactly the pairs of streams with both ports in use |
| `OfferAnswer.AnswerMadeIff` | rssip-media/src/negotiator.rs:252-332 | there is an answer exactly if paired streams match and the formats of the answered pairs are static payload types |
| `OfferAnswer.DirectionsFit` | rssip-media/src/negotiator.rs:265-316 | an answered stream neither sends where the offer does not receive nor receives where it does not send, and has exactly one direction if the offer has one |
| `OfferAnswer.DirectionIs` | rssip-media/src/negotiator.rs:265-316 | exactly when an answered stream sends and receives: if the offer receives or sends, and the local stream does so itself or the offer goes both ways; without a direction in the offer the attributes are the local ones |
| `OfferAnswer.FirstDirectionIs` | rssip-media/src/negotiator.rs:265-281 | the direction that counts is that of the first attribute with one of the four names |
| `OfferAnswer.LivePlacesAre` | rssip-media/src/negotiator.rs:252-263 | the places of the answered pairs: increasing, and exactly those with both ports in use |
| `OfferAnswer.OffererTakesAnswerIff` | rssip-media/src/negotiator.rs:357-404 | the offerer can process the answer exactly if the i-th stream of the offer has the type and protocol of the i-th one that is answered, for all i |
| `OfferAnswer.OffererTakesAnswer` | rssip-media/src/negotiator.rs:357-404 | in particular if no stream of a pair was refused |
| `OfferAnswer.RefusedStreamBreaksOfferer` | rssip-media/src/negotiator.rs:261-263 | with the first of two streams refused, the second one a video stream, processing the answer fails exactly if the first was no video stream |
| `OfferAnswer.OfferRoundTrips` | rssip-media/src/negotiator.rs:116-238 | an offer made from valid streams reads back from the wire as itself exactly if no stream is of the application type and each has a codec |

## Left out

- Sockets, TLS, WebSocket, DNS, the endpoint and its plugins, logging: they are input and output around the modelled core.
- RTP and media sessions, keys of the predecessors of RFC 3261, and printing of authentication other than Digest: they are not implemented in the source.
- The other kinds of SIP header: their readers, but for those of challenges and credentials, are parameters that are assumed to move only forward, and what one of them reads is a text; how each of them is written is not part of this model, except that a list is written with commas.
- The text of an IPv6 address stands for the address: the parser and printer of the standard library are not part of this model, and its `IsV6Text` accepts more than they do. The theorems say that such a host never comes back where it is written without brackets.
- Where in the text a parser failed: the kind of failure and the text left are modelled, the position inside the error is not; the scanner's own position is.
- Capacity of the channels, waiting senders, and messages that arrive before a transaction is registered.
- Waits that the user cancels, states that the user sets by hand, and keys that are used again while they are registered.
- Random branches and tags: they are parameters, and branches are assumed to be distinct where two transactions meet.
- The end of a spawned task by an error of the transport: sending never fails in this model.
- Dialogs, CSeq order and the rewriting of route sets.
- Framing.StreamingDecoder.Decode: a size that does not fit a machine word is a failure of its own, because the addition panics in debug builds and wraps in release builds; reserving space in the buffer is left out.
- Chunking.AnyChunksGiveTheMessages: how many of the line breaks count as requests depends on the chunks and is not stated.
- ServerTransactions.ServerTransaction.TaskSelect: the three arms of the selection are one atomic step each.
- ClientTransactions.ClientTransaction.ReceiveRetransmitting: retransmissions in the model take no time to send.
- UriRoundTrip.UriRoundTrips: generic parameters must not have the name of a special one, and every part is made of the characters that the parser reads in its place.
