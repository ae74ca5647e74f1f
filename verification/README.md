# Proofs about the load-simulation server

A model of the server's four cores and proofs of what each is relied upon for.

**The incremental HTTP/1.x parser** (`ParserTypes`, `Transition`, `ParserRun`, `ParserInvariant`, `Execute`; messages in
`RequestTarget`, `RequestLine`, `StatusLine`, `HeaderLines`, `HeaderBlock`, `HeaderFault`, `LineFault`, `Framing`, `ChunkedBody`,
`Messages`, `KindFound`, `HeaderLimit`, `Serving`, `CharTables`; cuts in `MarkedData`, `SplitInvariance`, `AnyCut`,
`PlainStreams`, `BareCr`, `FailingCut`; calls in `ParserCalls`, `CallGrammar`, `KindGrammar`, `HttpParser`).
`Transition.Dispatch` is the `switch` of `http_parser_execute`, one pass over one byte: the new parser, the mark it
sets, the data it flushes, the callbacks it makes, and whether it goes on, looks at the byte again, stops or fails.
`ParserRun.Run` applies it byte by byte and is the meaning of a stream. `Execute.ExecuteBuffer` is the loop as it is
written, with marks into the buffer, unrolled fast-forward loops and bodies taken in gulps, and refines `Run`. All
statements about streams are proved on `Run` and so hold of the loop. Two callback traces are compared after adjacent
data of one kind is merged, as a caller of the parser has to do. `ParserCalls` is the parser over sequences of calls,
those with an empty buffer at the end of the stream included; the class in `HttpParser` refines it call by call. What a
stream means is stated on its text: `Messages.RequestText` and `ResponseText` write a message from its parts, and the
theorems of `Messages` say that the parser reads back what was written, for any number of messages on a connection.

**The URL splitter** (`Url`, `UrlRoundTrip`, `UrlForms`, `TargetUrls`). `Url.Owners` says which field each byte of a URL
belongs to, from the two transition functions alone; the three loops of `http_parser_parse_url` are proved to find
exactly those ranges.

**The response printer** (`DynamicString`, `ResponseHeader`), with its growing buffer, and the round trip with the parser.

**The connection life cycle** (`Pool`, `ContextPool`, `TriggerGuard`, `Lifecycle`, `SendPipeline`, `HttpDelivery`,
`HttpSession`). Objects changed under one lock, or by one handler at a time, are classes; what threads do to each other
is a transition system whose actions are the atomic steps of the code, and its theorems are about every run.
`SendPipeline` is the session under any protocol, `HttpDelivery` the HTTP service on it.

**The lock manager of the VScript machine** (`Vm`), as an interleaving of LOCK, UNLOCK and clean-up.

Facts about the code that came out of the proofs:

- After a CR in a header value that is not followed by LF, the parser drops the rest of the value up to the end of the
  buffer. If there is any of it beyond the byte behind the CR, the callbacks depend on where buffers end
  (`BareCr.SplitMatters`, `SplitInvariance.UnmarkedCut`).
- A stream that fails while data is under a mark never has those bytes called back, so its callbacks depend on where
  buffers end (`FailingCut.FailureMatters`). These two are the only cases (`AnyCut.EveryCutAgrees`).
- The end of the stream inside a body without a length completes the message but leaves the parser in that body; a
  second such call, or more data, breaks the order of callbacks (`CallGrammar.EndedTwice`, `CallGrammar.CallsInGrammar`).
- The test for a trailing space at src/http_parser.cpp:1581-1591 looks at the byte before a token byte, which inside
  a field cannot be a space; that branch is never taken and is not in the model.
- `prepare_for_shutdown_` is not cleared when a write breaks while it is set, and then closes the next connection of
  the session (`SendPipeline.MarkExact`, `SendPipeline.MarkReachesNextUse`). It takes a protocol that reads while it
  sends; the HTTP service does not, and on a context that is not stopped never sets it (`HttpDelivery.HttpNeverMarks`).

## Model

| member | source | states |
|---|---|---|
| `Execute.ExecuteBuffer` | src/http_parser.cpp:602-2156 | The loop with its marks, gulps and fast-forwarding leaves the parser, byte counts and merged callbacks of the byte-at-a-time meaning; the data that a failing call drops are exactly the bytes from the mark up to the byte at fault |
| `HttpParserObject.HttpParser.Execute` | src/http_parser.cpp:602-660 | A parser in error does nothing; an empty buffer completes a body that runs to the end of the stream, is accepted between messages and is an error elsewhere; any other buffer is parsed as above |
| `HttpParserObject.HttpParser.ExecuteAll` | src/http_parser.cpp:602-660 | A sequence of calls leaves what the value model of calls says, to which the statements about sequences of calls apply |
| `Execute.SkipTokens` | src/http_parser.cpp:1497-1551 | The unrolled field loop skips only tokens, stops at the first byte that is none, and never looks beyond the buffer |
| `Execute.SkipPlain` | src/http_parser.cpp:1675-1745 | The unrolled value loop skips only bytes the value states ignore and never looks beyond the buffer |
| `Execute.GulpSim` | src/http_parser.cpp:1936-1969 | Taking min(content_length, bytes left) at once is taking them one by one |
| `ParserRun.AgainLowersRank` | src/http_parser.cpp:689-697 | Looking at a byte again always lowers the rank of the state, so re-execution ends |
| `ParserInvariant.RunKeepsInv` | src/http_parser.cpp:689-2107 | At most one mark is set and it fits the state; lengths are positive in data states and within int64; chunk states are chunked; matchers are within their literals; the "unhandled state" and "unknown header state" branches are unreachable |
| `ParserCalls.CallsStaySane` | src/http_parser.cpp:602-2156 | Over any sequence of calls, end-of-stream calls included, the branches called impossible stay out of reach and the parser is left fit for its next call |
| `SplitInvariance.FeedKeepsInv` | src/http_parser.cpp:652-684 | Over buffers, re-entry marks included, the machine invariant holds of every call's end |
| `SplitInvariance.SplitInvariant` | src/http_parser.cpp:652-684 | Feeding the pieces of a stream leaves the state, counts and trace of one call on the whole stream, also when it stops or fails; only a mark still set at the end began later if it was cut |
| `SplitInvariance.SplitExact` | src/http_parser.cpp:2118-2155 | What has been called back is the same as well if and only if the stream does not fail over data under a mark that was set before the last cut |
| `SplitInvariance.UnmarkedCut` | src/http_parser.cpp:1797-1818 | At a cut inside a value after a bare CR, with a byte to follow that is not in error, the traces of the two runs agree in the end if and only if that byte ends the value, whatever comes after |
| `AnyCut.EveryCutAgrees` | src/http_parser.cpp:602-2156 | For a stream whose headers do not exceed the limit: every cut leaves the state and counts of one call, and all cuts make the same callbacks if and only if the stream does not fail with bytes under a mark and no header value in it goes on after it has lost its mark to a bare CR |
| `AnyCut.LapseDiffers` | src/http_parser.cpp:1797-1818 | A stream in which a value does go on so makes different callbacks for a cut around the byte or for one behind it |
| `AnyCut.CutDiffers` | src/http_parser.cpp:2142-2155 | A stream that does fail so makes different callbacks when cut before the byte at fault |
| `PlainStreams.TextWithoutBareCr` | src/http_parser.cpp:1797-1818 | It is enough for the second of those conditions that every CR of the stream is followed by LF |
| `ParserCalls.CutCalls` | src/http_parser.cpp:602-2156 | The same for sequences of calls on the parser: the same parser for every cut, and the same callbacks for every cut under exactly those conditions |
| `ParserCalls.CutCallsInUse` | src/http_parser.cpp:602-2156 | So for every parser in use, after initialisation and any earlier calls that have left no error |
| `FailingCut.FailureMatters` | src/http_parser.cpp:2142-2155 | The request `GET /a` followed by a control byte: in one buffer its URL is never called back, and cut before that byte it is |
| `BareCr.SplitMatters` | src/http_parser.cpp:1797-1818 | A concrete stream with a bare CR whose callbacks differ between two cuts |
| `EventGrammar.RunInGrammar` | src/http_parser.cpp:1835-2101 | The callbacks of every run of a request or response parser, failing ones included, are accepted by the automaton for pipelined messages |
| `CallGrammar.CallsInGrammar` | src/http_parser.cpp:602-2156 | Over any sequence of calls, end-of-stream calls included, the callbacks follow the grammar if and only if no call is made after the end of the stream has completed a body without a length |
| `CallGrammar.ParserInGrammar` | src/http_parser.cpp:2165-2177 | From initialisation: a request parser follows the grammar whatever the calls, a response parser exactly under that condition |
| `KindGrammar.AnyParserInGrammar` | src/http_parser.cpp:704-760 | The same for a parser of any kind: once the stream has shown its kind the grammar of that kind holds exactly under that condition, and before that no more than message_begin is called back |
| `CallGrammar.EndedTwice` | src/http_parser.cpp:631-637 | A response without headers and the end of the stream signalled twice: message_complete is repeated |
| `EventGrammar.MessagesAlternate` | src/http_parser.cpp:913-919 | At every point of an accepted trace at most one message is under way, and none exactly where the automaton is idle |
| `RequestLines.TargetExact` | src/http_parser.cpp:1013-1318 | A word is taken for a request target if and only if it is one: a path, an absolute URL, or for CONNECT a server, each with a query and a fragment where these may be; it is then reported as it stands |
| `RequestTargets.SpellExact` | src/http_parser.cpp:1013-1318 | The states of the parser over a target say exactly whether its bytes are a target, in the sense of that grammar |
| `RequestLines.VersionExact` | src/http_parser.cpp:1320-1438 | What follows the target is taken for a version if and only if it is spaces, an H, four bytes, and two numbers of at most 999 with a dot between them |
| `RequestLines.RunPart` | src/http_parser.cpp:1354-1438 | A number of a version, in request and status lines alike, is accepted if and only if it is at most 999, and stored as its value |
| `RequestLines.RunRequestLine` | src/http_parser.cpp:913-1449 | For every method, target and version other than 0.9, with CR LF or LF behind it and empty lines before it: the message begins, the target is reported as it stands, method and version are stored, and the headers start |
| `StatusLines.RunStatusLine` | src/http_parser.cpp:732-911 | For every version, code and reason, or none: the message begins, the reason is reported as it stands, version and code are stored, and the headers start |
| `StatusLines.StatusExact` | src/http_parser.cpp:777-911 | What follows the slash is taken for the rest of a status line if and only if it is one: two numbers of at most 999 with a dot between them, spaces, a code of at most 999, and no reason or one behind a space |
| `StatusLines.RunCode` | src/http_parser.cpp:846-890 | A status code is accepted if and only if it is at most 999, and stored as its value |
| `HeaderBlocks.RunLines` | src/http_parser.cpp:1451-1834 | Any list of headers, each line ending in CR LF or LF and continued on any number of lines, is reported name by name and value by value, a fold counting as one space; the parser keeps the last Content-Length, whether some Transfer-Encoding is chunked, and whether there is an Upgrade |
| `HeaderFaults.HeaderExact` | src/http_parser.cpp:1451-1723 | A header that is not interpreted is refused, as an invalid token, exactly when its name has a byte that is no token byte or is empty, or its value a byte behind the first that is no header character and is not escaped |
| `HeaderFaults.LengthExact` | src/http_parser.cpp:1659-1771 | A Content-Length is refused exactly when it is no number, or is larger than the limit |
| `HeaderFaults.EmptyIsRefused` | src/http_parser.cpp:1613-1624 | Content-Length, Transfer-Encoding and Upgrade without a value are refused, each with its own error |
| `LineFaults.RequestLineNeedsLf` | src/http_parser.cpp:1440-1449 | A CR at the end of a request line that is not followed by LF is refused |
| `LineFaults.BlankLineNeedsLf` | src/http_parser.cpp:1835-1842 | So is one on the blank line behind any list of headers |
| `LineFaults.BareCrInCoding` | src/http_parser.cpp:1797-1818 | A CR in a transfer coding that is not followed by LF is reported as a space and loses the byte behind it, and a "chunked" before it takes effect |
| `LineFaults.SizeIsHex` | src/http_parser.cpp:1988-2032 | A chunk size that does not start with a hexadecimal digit, or ends in anything but CR, a semicolon or a space, is refused |
| `LineFaults.ResponseStartsWithH` | src/http_parser.cpp:739-755 | A response that does not start with H is refused |
| `LineFaults.KindIsHeadOrHttp` | src/http_parser.cpp:715-730 | A message of unknown kind that starts with H is refused unless E or T follows |
| `HeaderLimit.OverflowExact` | src/http_parser.cpp:2118-2127 | A call that ends inside the headers fails exactly when they have more than 80 KiB, and else leaves what the stream means |
| `HeaderLimit.LongPathOverflows` | src/http_parser.cpp:2118-2127 | A request whose path alone is longer than that is refused |
| `Framing.HeadFrames` | src/http_parser.cpp:1835-1934 | What follows the headers: CONNECT, and an upgrade without a body, leave HTTP; else a chunked Transfer-Encoding starts chunks whatever Content-Length says; else a length starts a body of that length or completes the message; and without one a request, or a response of 1xx, 204 or 304, is complete, and any other response has a body to the end of the stream |
| `Messages.RequestRoundTrip` | src/http_parser.cpp:913-2101 | A whole request is read back: for every method, target, version and list of headers, and the body that these announce, in chunks or by its length, everything is reported as it stands, method and version are stored, and the parser stops behind the last byte, ready for the next request or at the end of HTTP |
| `Messages.RequestsRoundTrip` | src/http_parser.cpp:913-2101 | Any number of such requests on a connection are read back one by one, each with its own headers and body |
| `Messages.OldestRoundTrip` | src/http_parser.cpp:1400-1428 | A request of version 0.9 is complete with its first line |
| `Messages.VersionlessRoundTrip` | src/http_parser.cpp:1144-1318 | So is one whose first line ends with a target that is not a bare server; its version is stored as 0.9 |
| `Messages.ResponseRoundTrip` | src/http_parser.cpp:732-2101 | A whole response is read back in the same way |
| `Messages.ResponsesRoundTrip` | src/http_parser.cpp:732-2101 | So is any number of them |
| `Messages.UndelimitedRoundTrip` | src/http_parser.cpp:1921-1975 | A response that announces no body has all the bytes behind its head for one |
| `KindFound.RequestIsFound` | src/http_parser.cpp:692-731 | A parser that has not been told what it reads runs on a request, whatever its method, exactly as a parser of requests |
| `KindFound.ResponseIsFound` | src/http_parser.cpp:692-731 | And on a response as a parser of responses, if its second byte is the T of HTTP |
| `Serving.RequestsInPieces` | src/http_parser.cpp:602-2156 | Requests that arrive in any pieces: the calls of the parser make the callbacks of those requests, one after the other, and leave it between two requests |
| `Serving.EndBetweenRequests` | src/http_parser.cpp:624-650 | The end of the stream behind the last of them makes no callback and is no error |
| `Serving.EndInsideBody` | src/http_parser.cpp:624-650 | Inside a body it is an error, and what has arrived of the body has been reported |
| `Serving.EndOfUndelimited` | src/http_parser.cpp:631-637 | It completes a body that nothing delimits |
| `CharTables.TokensAreTchars` | src/http_parser.cpp:183-216 | The token table is `tchar` of section 3.2.6 of RFC 7230 |
| `CharTables.HexDigitsByValue` | src/http_parser.cpp:218-233 | The hex table gives each hexadecimal digit its value and every other ASCII byte -1 |
| `CharTables.UserinfoIsByGrammar` | src/http_parser.cpp:402-409 | User information is made of the characters of section 3.2.1 of RFC 3986 |
| `CharTables.VisibleCharacters` | src/http_parser.cpp:235-272 | Which ASCII bytes a target and a header value may have |
| `Numbers.ContentLengthExact` | src/http_parser.cpp:1755-1770 | A Content-Length value is accepted if and only if it is at most 9223372036854775799, and its true value is stored |
| `Numbers.ChunkSizeExact` | src/http_parser.cpp:1988-2032 | A chunk size is accepted if and only if it is at most 2^63-1, and its true value is stored |
| `ChunkedBody.ChunkedRoundTrip` | src/http_parser.cpp:1988-2101 | Decoding inverts chunked encoding (section 4.1 of RFC 7230): each chunk is announced with its size, delivered whole and closed, the last chunk brings any trailer lines and ends the message once, and the parser is back at its start |
| `ChunkedBody.IdentityRoundTrip` | src/http_parser.cpp:1936-1986 | A body with a length delivers exactly that many bytes and completes the message |
| `HeaderLines.FieldRecognition` | src/http_parser.cpp:1497-1596 | A field is taken for Content-Length, Transfer-Encoding or Upgrade exactly when it is that name, in any case |
| `HeaderLines.RunHeader` | src/http_parser.cpp:1451-1834 | A header that the parser does not interpret, empty or with quoted strings and escaped bytes of any kind in it, is reported as it stands and changes nothing else |
| `HeaderLines.RunUpgradeHeader` | src/http_parser.cpp:1642-1648 | An Upgrade line raises the flag that asks to leave HTTP |
| `HeaderLines.RunLengthHeader` | src/http_parser.cpp:1451-1834 | A Content-Length line sets the body length to its value |
| `HeaderLines.CodingRecognition` | src/http_parser.cpp:1625-1813 | A Transfer-Encoding line turns chunked framing on exactly when its value is "chunked", in any case, with any spaces after it |
| `Methods.RunLetters` | src/http_parser.cpp:958-1013 | While a method is read, its bytes are the first `index` letters of the method under match |
| `Methods.MethodExact` | src/http_parser.cpp:921-1013 | A word and a space are taken for a method if and only if the word is the name of that method |
| `ResponseRoundTrip.HeaderRoundTrip` | src/http_parser.cpp:739-911 | Parsing a printed header yields its code, version, reason and length and stops exactly where the body starts |
| `ResponseRoundTrip.StreamRoundTrip` | src/http_parser.cpp:739-1986 | Any number of printed replies with their bodies parse back into exactly their events |
| `Url.ParseUrl` | src/http_parser.cpp:2331-2443 | A URL is accepted exactly when the two transition functions, the CONNECT rule and the port limit accept it; then every field's range is exactly the bytes that field owns, fields are nonempty, in bounds, disjoint and in order, a schema implies a host, and the port is the value of its digits |
| `Url.ScanUrl` | src/http_parser.cpp:2340-2404 | The first loop sets each range to exactly the bytes of its field, all of the server part being host |
| `Url.ParseHost` | src/http_parser.cpp:2257-2328 | The second loop divides the server part into exactly user information, host and port |
| `Url.ReadPort` | src/http_parser.cpp:2417-2439 | The value of the digits, if and only if it is at most 65535 |
| `Url.OwnersOrdered` | src/http_parser.cpp:454-600 | In an accepted URL the fields come in the order schema, user information, host, port, path, query, fragment |
| `UrlRoundTrip.UrlRoundTrip` | src/http_parser.cpp:2331-2443 | Every well-formed absolute URL written from its parts is accepted, and every byte goes back to the part it was written for |
| `UrlForms.PathRoundTrip` | src/http_parser.cpp:454-600 | So is a path, or an asterisk, with or without query and fragment, for which no schema and no server is needed |
| `UrlForms.ConnectRoundTrip` | src/http_parser.cpp:2411-2415 | So is, for CONNECT, a host and a port |
| `UrlForms.BytesOfTheirField` | src/http_parser.cpp:2183-2255 | In an accepted URL every field is made of bytes of its own kind, and the bytes of no field are delimiters |
| `TargetUrls.PathTargetsAreUrls` | src/http_parser.cpp:454-600 | What starts like a path is taken for a request target if and only if the splitter accepts it as a URL |
| `DynamicStrings.GrowthExact` | src/dynamic_string.hpp:196-228 | `printf` returns if and only if the text fits, or the capacity is at most 512 and the total is below twice the capacity or between 1 and 512; otherwise every attempt fails forever |
| `DynamicStrings.DynamicString.Printf` | src/dynamic_string.hpp:196-228 | Whenever it returns at all: at most two resizes, the capacity that follows, and the old contents followed by the text |
| `DynamicStrings.DynamicString.Resize` | src/dynamic_string.hpp:170-186 | A new buffer of the given capacity with the same contents |
| `ResponseHeader.HttpResponseHeader.Prepare` | src/http_header.hpp:395-452 | Returns from a buffer of any capacity and leaves exactly the header text in it |
| `ResponseHeader.PrintParse` | src/http_header.hpp:395-452 | For every code in 100..999 and length below 2^31, parsing what is printed gives back code, version, reason and length and stops at the body |
| `ResponseHeader.PrintedLengthExact` | src/http_header.hpp:53-54 | The printed length is the length if and only if it is below 2^31, for the format takes an int |
| `Pools.Pool.New` | src/pool.hpp:179-190 | Rejects an eager pool without limit; an eager pool holds all its items on the stack, none in flight |
| `Pools.Pool.TryBorrow` | src/pool.hpp:328-353 | The item put back last, or a new one, or none if and only if nothing is free and the limit is in flight |
| `Pools.Pool.Borrow` | src/pool.hpp:240-251 | Lends an item now or not at all, and always without a limit |
| `Pools.Pool.BorrowOrWait` | src/pool.hpp:261-277 | Lends an item, or registers the one waiter, or fails if and only if somebody already waits |
| `Pools.Pool.PutBack` | src/pool.hpp:279-285 | The item goes to the waiter and stays in flight, or is the next to be lent |
| `Pools.InFlightCount` | src/pool.hpp:355-372 | Items on the stack and items in flight are together all items |
| `Pools.SoundCount` | src/pool.hpp:241-372 | In every sound pool the counter is the number of items in flight, within the limit, and a waiter implies that nothing is free |
| `TriggerGuards.ArmedGuardsBlock` | src/syncronization_utils.hpp:80-159 | In every interleaving the count is the number of live armed guards, a guard tests true exactly while armed, and a triggered guard has none |
| `TriggerGuards.NothingAfterTrigger` | src/server.hpp:161-232 | After the trigger no guard is armed or tests true, and neither registering an accept nor starting a session is possible |
| `TriggerGuards.DoneStays` | src/server.hpp:161-232 | So the number of accepts registered and sessions started stays what it was |
| `TriggerGuards.AcquireArms` | src/syncronization_utils.hpp:144-151 | Making a scoped guard arms it and counts it, unless the guard has been triggered |
| `TriggerGuards.ArmedGuardServes` | src/server.hpp:200-218 | An armed guard tests true, and then accepts are registered and sessions started under it |
| `TriggerGuards.FirstAccept` | src/server.hpp:194-204 | So the first guard of a server lets its first accept be registered |
| `TriggerGuards.UnarmedGuardRefuses` | src/server.hpp:200-218 | Under one that is not armed, neither is |
| `TriggerGuards.ReleaseLowers` | src/syncronization_utils.hpp:87-96 | The end of its scope takes a guard back, with its count if it was armed |
| `TriggerGuards.TriggerGoesOff` | src/syncronization_utils.hpp:135-142 | Triggering goes off if no armed guard is alive and else waits, the same for a thread that is woken |
| `ContextPools.FirstInTurn` | src/io_context_pool.hpp:111-135 | The next in the order of service is the first active context that the cursor comes to |
| `ContextPools.LSContextPool.GetContextRoundRobin` | src/io_context_pool.hpp:111-135 | Returns and holds the next active context in the order of service, within one round of the contexts |
| `ContextPools.Rotates` | src/io_context_pool.hpp:111-135 | A call leaves the order of service as it was, with the context just returned at the end |
| `ContextPools.Fair` | src/io_context_pool.hpp:111-135 | From any cursor, as many calls as there are active contexts return each of them exactly once |
| `ContextPools.LSContextPool.AddContext` | src/io_context_pool.cpp:68-89 | Takes up the first reusable context, or appends one, or refuses at the limit; a new context stays even when its thread count is refused |
| `ContextPools.LSContextPool.DeactivateContext` | src/io_context_pool.cpp:103-132 | The context becomes inactive, and nothing else changes, exactly if it is there, active, not the only active one, and not held; each other outcome has its own condition, and changes nothing |
| `ContextPools.DeactivateExact` | src/lscontext.hpp:196-211 | The same of the specification function, on which the transition system of the life cycle rests |
| `ContextPools.AddExact` | src/io_context_pool.cpp:68-89 | The first inactive context without sessions is taken up with the given threads; without one there is a new one while there is room; each refusal has its own condition |
| `ContextPools.LSContextPool.ActiveContextsCount` | src/io_context_pool.cpp:91-101 | The size of the set of active contexts |
| `ContextPools.AddIsSafe` | src/io_context_pool.cpp:68-89 | Adding keeps the limit, every active context and all counts |
| `ContextPools.DeactivateIsSafe` | src/io_context_pool.cpp:103-132 | Deactivating leaves another context active, never touches a held one, and changes no count |
| `Lifecycle.NextKeepsInv` | src/server.hpp:194-232 | Every atomic action of accepting, setting up, closing and reconfiguring keeps the invariant |
| `Lifecycle.PlacementIsSafe` | src/lscontext.hpp:196-211 | In every run a held context is active, some context is active, and the limit is kept |
| `Lifecycle.InactiveNeverRises` | src/server.hpp:194-232 | The session count of an inactive context never rises |
| `Lifecycle.NothingUnderflows` | src/session.hpp:566-598 | No count goes below zero and no session is put back twice, whatever close attempts come and however late |
| `Lifecycle.LateCloseDoesNothing` | src/syncronization_utils.hpp:108-133 | A close attempt on a free session, or on one not yet made ready, changes nothing |
| `Lifecycle.CloseFrees` | src/session.hpp:516-598 | A session in use is closed by the first attempt: closing, returning the context, putting the session back and leaving the once flag are possible one after the other, and leave the session free, its flag used up, its context's count and the count in flight one less, and nothing else changed |
| `Lifecycle.AcceptFree` | src/server.hpp:194-232 | With a free session, a connection is accepted in the four steps of the chain: the session is in use on the chosen context, which counts it and is no longer held |
| `Lifecycle.AcceptNew` | src/server.hpp:194-232 | The same with a new session, when none is free and the limit is not reached |
| `Lifecycle.RefusalReturnsHold` | src/server.hpp:220-226 | A connection that cannot be accepted only returns the hold |
| `Lifecycle.BorrowExact` | src/pool.hpp:328-353 | A session can be borrowed, a free or a new one, unless the pool is limited and all of its sessions are in flight |
| `Lifecycle.ReconfigureExact` | src/server.hpp:178-191 | Adding and deactivating a context do what the pool answers, and touch no session |
| `Lifecycle.FirstChoice` | src/server.hpp:194-198 | The first connection goes to the first context, or to the second if the acceptor shares the first one |
| `Lifecycle.ChooseInTurn` | src/server.hpp:194-198 | The chain holds the next active context in turn |
| `Lifecycle.Conservation` | src/session_pool.hpp:73-87 | Sessions in flight are those the contexts count, the one borrowed but not yet counted, and those finalised but not yet put back |
| `Lifecycle.ChainGoesOn` | src/server.hpp:194-232 | The accept chain is never stuck except for the closer that is just leaving the once flag |
| `SendPipeline.NextKeepsInv` | src/session.hpp:369-552 | Every handler keeps the pipeline invariant, whatever the protocol on top answers |
| `SendPipeline.PipelineIsSafe` | src/session.hpp:295-552 | In every run, over any number of connections: a write is in flight if and only if the queue is not empty, until a write fails the wire is a prefix of what was sent, a finalised session has neither a write nor a read, and a requested close is done, posted, or marked while a write is in flight |
| `SendPipeline.ClosingIsRecorded` | src/session.hpp:515-552 | However closing is asked for, it loses no read and nothing that was to be sent; with nothing to send the session is finalised, and else marked |
| `SendPipeline.ReadsAreCounted` | src/session.hpp:420-552 | A read that is over is no longer outstanding, and but for a read that is started no handler changes their number |
| `SendPipeline.FinalisedIdle` | src/session.hpp:515-529 | No step finalises a session and leaves a write in flight |
| `SendPipeline.MarkExact` | src/session.hpp:515-529 | Whenever the queue is empty, also in the next use of the session, the mark for closing is set if and only if the queue last became empty by a write that broke under it |
| `SendPipeline.BrokenMeans` | src/session.hpp:468-512 | A handler records a break under the mark exactly when its write broke and the mark was set |
| `SendPipeline.MarkMayStay` | src/session.hpp:468-512 | For a protocol that reads while it sends: a run that leaves the mark set in a finalised session |
| `SendPipeline.MarkReachesNextUse` | src/session.hpp:252-259 | The connection after it is closed behind its first output although nothing in it asked for that |
| `HttpDelivery.NextKeepsInv` | src/http.hpp:161-332 | Every handler of the HTTP service keeps: it reads or writes, never both, writes only a response, sends nothing after a failed write, and accounts for its download |
| `HttpDelivery.DeliveryIsSafe` | src/http.hpp:161-332 | In every run the wire is a prefix of what was sent, also after a failed write, and what was sent of a response is its header and the part of the download that is not left |
| `HttpDelivery.HttpNeverMarks` | src/http.hpp:161-332 | As long as its context is not stopped, the HTTP service never sets the mark for closing, never has two closes posted, and is always reading, writing, about to close, or finalised |
| `HttpDelivery.DownloadIsExact` | src/http.hpp:161-189 | When the last write of a response is over, exactly the download size has gone out after the header |
| `HttpDelivery.DownloadTakes` | src/program.hpp:345-357 | The body goes out in pieces of at most 64 KiB, as many as the size rounded up; as many completions later the whole download has been sent, and the session reads the next request if the connection is to be kept alive, and has one more attempt to close posted if not |
| `HttpDelivery.LastWrite` | src/http.hpp:161-189 | When the last write is over, a connection to be kept alive reads on and asks for no closing; any other does not read, and an attempt to close is posted |
| `HttpDelivery.NextPiece` | src/http.hpp:161-169 | With some of the download left, its next piece of at most 64 KiB is the next write |
| `HttpDelivery.BrokenWrite` | src/session.hpp:478-483 | A write that breaks is the last one: the queue is dropped, nothing is read, and an attempt to close is posted |
| `HttpDelivery.AfterRead` | src/http.hpp:212-321 | A failed read or a refused request asks for closing and is the last read; part of a request is read on; a whole one is answered |
| `HttpSessions.HttpSession.Send` | src/session.hpp:294-303 | A write is started exactly if none is in flight; the invariant is kept |
| `HttpSessions.HttpSession.CloseOnce` | src/session.hpp:515-529 | Afterwards the session is finalised, or marked with a write in flight; a write in flight is left alone |
| `HttpSessions.HttpSession.SendEvent` | src/session.hpp:468-512 | The whole new state after a write; on the fields: the next buffer, the next piece, reading on with keep-alive, an attempt to close without it, and after a broken write an empty queue and an attempt to close |
| `HttpSessions.HttpSession.ReceiveEvent` | src/session.hpp:420-450 | The whole new state after a read; on the fields: a whole request is answered with a write in flight and no read pending, a failed read or a refused request has an attempt to close posted and no read, part of a request is read on |
| `HttpSessions.HttpSession.GetData` | src/program.hpp:345-357 | A piece of at most 64 KiB that is only short when nothing is left |
| `HttpSessions.HttpSession.AbortedReceiveEvent` | src/session.hpp:420-432 | The report of an aborted read asks for closing, and nothing else changes |
| `HttpSessions.HttpSession.RunPostedClose` | src/session.hpp:515-552 | A posted attempt finalises the session or marks it with a write in flight |
| `HttpSessions.HttpSession.SessionStart` | src/session.hpp:242-260 | The next connection starts reading, and the mark for closing is not cleared |
| `Vm.MutualExclusion` | src/lsvm.hpp:118-185 | In every interleaving in which UNLOCK is issued only by the holder, or at least takes effect while no other session holds the resource, at most one session holds a resource |
| `Vm.RecordExact` | src/lsvm.hpp:147-167 | The record of holders is truthful throughout a run if and only if every UNLOCK in it takes effect while no other session holds the resource |
| `Vm.DisciplineIsHarmless` | src/lsvm.hpp:118-185 | It is enough for that that UNLOCK is issued only by the holder |
| `Vm.CleanupIsExact` | src/lsvm.hpp:169-185 | A finished clean-up leaves its session holding nothing, and no step of one takes a resource from another session |
| `Vm.UnlockExact` | src/lsvm.hpp:147-167 | One UNLOCK keeps the holders truthful if and only if no other session holds the resource |
| `Vm.UndisciplinedUnlock` | src/lsvm.hpp:147-167 | A run of three sessions after which two hold the same resource |
| `Vm.LockTakes` | src/lsvm.hpp:118-145 | LOCK of a resource that is free, or was never named, takes it and touches no other |
| `Vm.LockWaits` | src/lsvm.hpp:118-145 | LOCK of one that is taken waits, and can only be cancelled, without effect |
| `Vm.UnlockFrees` | src/lsvm.hpp:147-167 | UNLOCK frees the resource, so that a session waiting for it can take it, and touches no other |
| `Vm.CleanupGivesWay` | src/lsvm.hpp:169-185 | While a clean-up sweeps nobody looks up a resource, and its end lets every idle session go on |
| `Vm.LSVirtualMachine.LookUp` | src/lsvm.hpp:122-130 | Makes a resource free on its first look-up, as the transition system's first step of LOCK and UNLOCK |
| `Vm.LSVirtualMachine.TryLock` | src/lsvm.hpp:134-144 | One round of the wait loop takes the resource exactly if it is free, as the system's step does |
| `Vm.LSVirtualMachine.GiveUp` | src/lsvm.hpp:134-144 | A cancelled LOCK leaves every resource as it is |
| `Vm.LSVirtualMachine.Unlock` | src/lsvm.hpp:147-167 | Frees the one resource and nothing else, as the system's step does |
| `Vm.LSVirtualMachine.Cleanup` | src/lsvm.hpp:169-185 | The sweep is a run of the system's visits by one session, and frees what that session holds and nothing else |

## Left out

- Callbacks that fail, pausing the parser, and the callback results that come of them: the service's callbacks return
  zero. Whether a message has a body by the answer of `on_headers_complete` is one constant per parser.
- The buffer that `on_headers_complete` is given, and the strict build of the parser.
- EveryCutAgrees: the header limit is counted by the parser's own `nread` at every prefix of the stream; the general
  statement is `SplitInvariance.SplitExact`, which asks it only at the cuts.
- CutCalls: for streams that do not end in an upgrade, after which the bytes are no longer the parser's.
- RunLines: a Content-Length on more than one line, and values of Transfer-Encoding and Upgrade with escaped control
  characters in them, are not covered.
- HeaderExact: names without a colon and values without line ends; what comes before the first colon is the name.
- ResponseIsFound: without that T the parser of responses goes on, and the one that has not been told fails.
- RequestsInPieces: requests that do not leave HTTP, with headers within the limit and no value that goes on after a bare CR.
- BytesOfTheirField: `lo` and `hi` are the bounds of the server part, if there is one.
- ChunkSizeExact: the digits are ASCII; the hex table gives bytes from 128 on the value zero, and `Transition` keeps that.
- ParseUrl: buffers of at most 65535 bytes, the range of the offsets, and a host range that the caller has zeroed,
  as the code reads it for a schema without a host.
- GetContextRoundRobin: called by one thread at a time, as the one accept chain does; the cursor is not protected by the shared lock.
- AddContext: the capacity of the vector is exactly what was reserved. Threads are a number.
- PlacementIsSafe: no forced stop, and no trigger of the shutdown guard, after which holds are deliberately not returned.
- NothingAfterTrigger: safety only; that a waiting trigger is woken is not stated, since a release notifies without the mutex.
- PipelineIsSafe: the buffers that are queued are values; that the one send buffer is refilled only with no write in
  flight follows from the queue being empty then. After a failed write a protocol may send again, of which only the
  HTTP service says more (`HttpDelivery.DeliveryIsSafe`: it does not).
- HttpNeverMarks: with a stopped context a close is both posted and made at once; what is left posted then is not excluded
  from a later use, which the server's forced stop does not have.
- MutualExclusion: the time-out of a wait is a retry, and the map of resources is looked up in one step.
- `Lifecycle`, `TriggerGuards` and the run theorems of `Vm`, `SendPipeline` and `HttpDelivery` are transition systems on values, not
  objects, since their subject is the interleaving of threads; a session there takes any free item of the pool, of
  which the last one put back is a case.
- `Pool::recover`, the statistics of pools and sessions, and the owner recorded on a hand-off to a waiter.
- Failure of `snprintf` and of allocation.
- Reading beyond whether a read is pending and what it brings: expected lengths, and the request header's own fields.
- VScript parsing and instructions other than locks, `Program::feed`, sockets, strands and threads, gRPC control,
  configuration, signals, logging.
