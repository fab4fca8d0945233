# libstrophe in Dafny

A model of libstrophe, a client library for XMPP written in C, and proofs about it. The
model follows the C code, branch by branch; where the code and its comments disagree it is
the code that is modelled. The project consists of the `.dfy` files beside this one;
`dafny verify dfyconfig.toml` checks all of them.

Most parts come as a pair. One half is imperative and has the form of the C code: arrays
and cursors for buffers, classes for structs that are updated in place, loops with
invariants. Its methods promise that they compute a function, or take the step of a
specification. The other half is that specification, and what is proved about it by lemmas.

| files | part of the library | main results |
|---|---|---|
| `Buckets`, `HashTable` | hash table and iterator | a finite map; what the iterator leaves out |
| `Format`, `Printer`, `PrintedNumbers` | bounded `printf` | the bounded formatter refines the unbounded one; what each directive prints |
| `Stanzas`, `Renderer` | printing of stanzas | the two passes give the text exactly |
| `Xml`, `Building`, `Parser`, `RoundTrip` | building of stanzas | printing and building undo each other, and when |
| `RefCount`, `Copying` | life and copying of stanzas | counts are conserved; what a copy is |
| `Sending`, `SendQueue`, `Delivery` | send queue | nothing is lost or reordered; stanzas arrive |
| `Negotiation`, `Connection` | negotiation, handlers, event loop | the state machine, and a connection object that refines it |
| `Meanings`, `OfferRuns` | what stanzas say and features offer | texts name mechanisms; the offered one is asked for |
| `AuthSafety`, `RequestsSent`, `BadHeader` | authentication | safety over whole runs against any server, and where it ends |
| `NegotiationOrder`, `Heeding`, `LateFeatures` | order of the negotiation | what features offer is heeded; order and bounds over whole runs, and where they end |
| `Dispatch`, `IdChains`, `IdDispatch`, `LostHandler` | stanza handlers | dispatch under re-entrant registration; what an id's chain loses |
| `Frames`, `Clocks`, `Timers`, `TimerPass`, `Waiting` | timed handlers | what a pass fires; spacing over whole runs; which replies are waited for |
| `Words`, `Narrowing`, `Streams`, `Sha1`, `Sha1Context`, `Sha1Vectors`, `Md5`, `Md5Context`, `Md5Vectors` | digests | FIPS 180-1 and RFC 1321, streamed, with known answers |
| `Base64`, `Directives`, `DigestMd5` | SASL codecs | round trips; the DIGEST-MD5 response of RFC 2831 |
| `DnsNames`, `DnsBuffer` | DNS messages | names with compression; printing and parsing |

Some things that one would like to prove are not so. In these cases the code is kept as it
is, an input that shows it is given or the exact condition is proved:

- A stream header that is not accepted disconnects, but the open handler is called all the
  same, and what follows in the same chunk is dispatched. A server can so make the
  connection `authenticated` without anything having been asked
  (`BadHeaders.AuthenticatedUnasked`). Milestones still come in order on all runs
  (`AuthSafety.RunsAreSafe`), and each request among them was really sent if and only if no
  such header came before it (`RequestsSent.RequestsWereSent`).
- The features timeout starts the negotiation but leaves the handler of the features
  registered. Order and "at most once" hold on every run up to features that are read after
  that timeout (`NegotiationOrder.NegotiationIsOrdered`). The call of `_auth` that the first
  such features lead to is in order if and only if they offer neither TLS nor a mechanism that
  is not left, and something was tried right after the call before (`LateFeatures.LateCallIff`);
  what is tried next is then in order if and only if it is not the legacy request for the
  second time (`LateFeatures.LateRequestIff`). Two runs show that both happen: starttls after
  a credential (`LateFeatures.OrderIsLost`), and the password sent twice
  (`LateFeatures.AskedTwice`).
- When a handler of an id returns false, the handlers of the user that were passed over
  right before it are unlinked with it. A handler is so lost if and only if it is the user's,
  the connection is not authenticated, and a handler of the library comes later in the chain
  (`IdDispatch.LostIff`); `LostHandlers.LosesHandler` is a run on which it happens.
- The iterator of the hash table finds only the head of the chain of the last bucket;
  printing and copying lose the other attributes there (`RoundTrip.ShownIffComplete`,
  `Copying.CopyIsSameIff`).
- The index of a bucket can be negative for keys with bytes of 128 or more
  (`Buckets.IndexInRange` says when).
- A print that starts when exactly the length of the buffer has been written sets the byte
  behind its end to zero; `Renderers.ToText` says when, for stanzas with errors too.
- `fmtint` keeps 19 digits of numbers with 20 or more (`Formats.DigitsDenote`).
- A number printed with the flag `0`, a precision above its digits and a larger width can be
  narrower than that width, because the zeros of the precision are taken out of those of the
  width: `PrintedNumbers.Fits` has the exact condition, `PrintedNumbers.IntIs` proves it for
  every number, and `PrintedNumbers.WidthIsMissed` is an example.
- `SHA1_Update` keeps the high word of its count right for pieces of less than 2^29 bytes
  and, of the longer ones, only for those that make the low word wrap anyway
  (`Sha1Contexts.HighIsRight`).
- `base64_encode` runs out of its buffer for less than two bytes; decoding an encoding is
  proved for every text that is not empty, and encoding a decoding exactly for the canonical
  texts (`Base64.EncodeOfDecoded`).
- The test whether a DNS name fits its buffer leaves out the dots and the final zero: of the
  names it lets through, those whose dots do not fit are copied past the end
  (`DnsBuffers.CopyStaysInsideIff`; `DnsBuffers.TestIsTooWeak` gives a message).
- `xmpp_stanza_add_child` takes any stanza as a child. Lists and counts stay right if and only
  if the child has no parent and no `next` link from a list it was in, and nothing above the
  new parent is added to it (`RefCounts.AddKeepsIff`).
- A DNS name with an empty word, with a word of more than 63 bytes or with a dot at its end
  is never read back as it was printed (`DnsNames.PrintedIsReadIff`).

## Model

| member | source | states |
|---|---|---|
| Buckets.IndexInRange | src/hash.c:110-124 | the index is below the length in absolute value; it is negative exactly when an odd number of key bytes have the top bit and the hash is no multiple of the length, so never for 7-bit keys |
| Buckets.HashOfXmlns | src/hash.c:110-124 | the hash and the index of the key `xmlns`, byte by byte |
| Buckets.HashOfHighKey | src/hash.c:110-124 | a key of one byte 0xE9 has a negative hash, and the index -7 among 8 buckets |
| Buckets.SignedIs | src/hash.c:112-118 | the hash as a signed number of 32 bits |
| Buckets.RemainderIs | src/hash.c:123 | the remainder is what is left of a multiple of the length, and has the sign of the hash |
| Buckets.AddIsUpdate | src/hash.c:130-155 | adding keeps every key once and in its own bucket, and updates the map the table stands for |
| Buckets.DropIsRemoval | src/hash.c:180-209 | dropping keeps every key once and in its own bucket, and removes the key from the map |
| Buckets.EnumeratedKeys | src/hash.c:249-277 | what the iterator yields has no repeats and only keys of the table, and is all of them if and only if the last chain has at most one entry; the size is that of the map |
| HashTables.HashKey | src/hash.c:110-124 | the walk along the key computes the index |
| HashTables.HashTable.Add | src/hash.c:130-155 | the linked table stands for the updated map, the key at the head of its chain |
| HashTables.HashTable.Get | src/hash.c:158-177 | the value in the map, or NULL |
| HashTables.HashTable.Drop | src/hash.c:180-209 | the linked table stands for the map without the key; -1 exactly if the key was not there |
| HashTables.HashTable.NumKeys | src/hash.c:211-214 | the number of keys of the map |
| HashTables.HashIterator.Next | src/hash.c:249-277 | the next of the enumerated keys, one by one, then NULL for good |
| Formats.DigitsDenote | src/snprintf.c:474-490 | the digits denote the number if and only if it has less than 20 of them |
| PrintedNumbers.ArgumentsAreUsed | src/snprintf.c:276-390 | each conversion takes one argument, and what follows it those after that; `%%` takes none |
| PrintedNumbers.IntIs | src/snprintf.c:451-542 | for every number, flags, width and precision: spaces, the sign if and only if the number is negative or one is asked for, zeros, digits of the base without a leading zero, spaces, each of its exact length; the digits denote the amount if and only if it is below the 19th power of the base; when the whole is narrower than its width |
| PrintedNumbers.WidthIsMissed | src/snprintf.c:493-502 | `%010.4d` of 7 is printed in seven characters |
| PrintedNumbers.StrIs | src/snprintf.c:410-447 | the string, or `<NULL>`, up to the precision, and spaces up to the width on the side that the flag says |
| PrintedNumbers.DirectiveIs | src/snprintf.c:179-277 | every directive of flags, width, precision, size and conversion is read as it is written: a flag is set if and only if its character is there, and width and precision are what their digits denote |
| PrintedNumbers.IntegerIs | src/snprintf.c:277-319 | every directive of an integer, with every argument: the same of the text that the format prints; unsigned conversions print the argument modulo 2^32 or 2^64 |
| PrintedNumbers.SignedIs | src/snprintf.c:279-287 | `%d` and `%i` of every `long`: the digits denote its absolute value |
| PrintedNumbers.StringIs | src/snprintf.c:348-351 | every directive of a string, with every argument |
| PrintedNumbers.TextIsPrinted | src/snprintf.c:179-185 | what is no directive is printed as it is |
| PrintedNumbers.MinusFiveIsPrinted | src/snprintf.c:468-473 | `%d` of -5 is `-5` |
| PrintedNumbers.TextOfStringIsPrinted | src/snprintf.c:348-351 | `%s` of a string is the string |
| Printers.Sink.Outch | src/snprintf.c:721-727 | one character more was asked for; it is stored if it fits before the last cell |
| Printers.AfterPrintIs | src/snprintf.c:398-406 | cell by cell: as much of the text as fits before the last cell, a zero after it, even if there is no cell, and nothing else |
| Printers.FmtStr | src/snprintf.c:410-447 | a string in its field, cut to its precision |
| Printers.FmtInt | src/snprintf.c:451-542 | sign, digits and paddings of a number in its field |
| Printers.Dopr | src/snprintf.c:152-408 | the state loop ends, returns the length of the whole text, and stores what fits and a NUL |
| Printers.Vsnprintf | src/snprintf.c:729-735 | the same for the caller: the text is that of the unbounded formatter, whatever the size of the buffer |
| Renderers.EscapeXml | src/stanza.c:215-265 | the escaped text, in a buffer of just its size |
| Renderers.RenderUpdate | src/stanza.c:268-285 | if the cursor was where n characters of the buffer leave it, it is where n and the last print together leave it: NULL for good once that is more than the buffer |
| Renderers.RenderRecursive | src/stanza.c:288-367 | the length of the whole text independent of buffer and size, or the error; and in the buffer what a single bounded print of the pieces leaves, up to the stanza that cannot be printed if there is one |
| Renderers.FitsExactly | src/stanza.c:394-421 | a buffer with room for the text and a NUL holds just that, and nothing behind it is touched |
| Renderers.ToText | src/stanza.c:384-425 | the whole specification text with its exact length and a NUL, whether or not it fits 1024 bytes; an error for a stanza without type or name; in either case the byte behind the first buffer is set to NUL if and only if a print starts after exactly 1024 characters |
| Building.DepthIsBalance | src/parser_expat.c:51-122 | at every point of every stream the depth is the number of open elements |
| Building.BuildsInside | src/parser_expat.c:78-121 | inside a stanza, the events of a document add its tree to the current element |
| Building.BuildsAtTop | src/parser_expat.c:100-121 | between stanzas, the owner is given the tree of each top-level element once and in order |
| Building.BuildsStream | src/parser_expat.c:51-122 | over a whole stream the owner is told of its start, of the trees in order, and of its end |
| Parsers.Parser.StartElement | src/parser_expat.c:51-98 | the linked objects take the step of the builder; there is a current element exactly when the depth is at least 2, and its parents are the open ones |
| Parsers.Parser.EndElement | src/parser_expat.c:100-122 | the linked objects take the step of the builder, and a stanza that is given away has the tree that was built |
| Parsers.Parser.Characters | src/parser_expat.c:124-141 | a text is added to the current element, or dropped outside stanzas |
| RoundTrip.LexPrinted | src/stanza.c:288-367 | the printed text of a clean, expressible stanza reads as that stanza's own events, whatever follows it |
| RoundTrip.PrintThenBuild | src/stanza.c:215-367 | such a tag printed, read and built gives the owner exactly one tree, equal to it up to the cutting of texts and with the attributes the iterator shows, however the character data is cut up |
| RoundTrip.ReadsBackIffClean | src/stanza.c:215-265 | the text of an expressible tag reads back as that tag if and only if no value has a tab, carriage return or line feed and no text a carriage return |
| RoundTrip.ShownIffComplete | src/stanza.c:318-335 | printing shows all attributes of a tree if and only if no table in it has two entries in its last bucket |
| Copying.CopyIsWhatIsShown | src/stanza.c:92-145 | a copy has everything that printing shows of the original, and no more |
| Copying.CopyIsSameIff | src/stanza.c:92-145 | a copy equals the original, attributes included, if and only if no table has two entries in its last bucket |
| Copying.CopyOfCopy | src/stanza.c:92-145 | copying or printing a copy loses nothing more |
| Copying.Copy | src/stanza.c:92-145 | new objects with the tree of the copy, each with one reference and the right parent; nothing else changes |
| RefCounts.Memory.New | src/stanza.c:44-61 | a new stanza is held by its caller alone |
| RefCounts.Memory.Clone | src/stanza.c:73-78 | one more reference of a caller |
| RefCounts.Memory.AddChild | src/stanza.c:587-606 | which cells are written, for any stanza and child; if the child can be added it is the last of the children and its count is one up, and callers hold what they held |
| RefCounts.AddKeepsIff | src/stanza.c:587-606 | the memory stands for a forest of stanzas with the right counts afterwards if and only if the child has no parent and no `next` link left over, and the stanza is not below it |
| RefCounts.Memory.Release | src/stanza.c:157-181 | a stanza is freed exactly when neither a caller nor a parent that is left holds it, once, and no freed memory is used; other references stay |
| RefCounts.ReleasedIsUnique | src/stanza.c:157-181 | what a release promises fixes which stanzas are freed |
| RefCounts.AllReleased | src/stanza.c:157-181 | when callers have given up all references nothing is left allocated |
| Sending.DrainConserves | src/event.c:115-157 | however a pass over the queue ends, the bytes taken are the first of those to be written and the others stay in order |
| Sending.DrainByAnswer | src/event.c:115-157 | what a pass makes of each answer of the transport: nothing is lost if it is put off, a part moves the packet on and ends the pass, the whole goes on to the next packet, any other error fails it |
| Sending.RunConserves | src/event.c:94-165 | over every interleaving of sends with failed, partial and complete writes, the bytes taken followed by the bytes queued are, in order, all that was asked for while connected |
| Sending.NothingLostOrReordered | src/conn.c:590-622 | from a new connection on the server has a prefix of what was asked for, and the queue the rest; only the first item is ever partly written |
| Sending.DownForGood | src/conn.c:590-593 | once disconnected nothing is queued or written |
| Sending.Delivered | src/event.c:115-157 | if every pass takes a byte, as many passes as there are bytes and one more empty the queue |
| SendQueues.Outbox.SendRaw | src/conn.c:590-622 | an item is appended to the linked queue if connected; the tail is the last item, and NULL exactly if the head is |
| SendQueues.Outbox.SendRawString | src/conn.c:542-580 | the whole formatted text is queued, at any length |
| SendQueues.Outbox.Send | src/conn.c:633-646 | the rendered text of the stanza is queued, or nothing if it cannot be rendered |
| SendQueues.Outbox.WriteQueue | src/event.c:115-157 | the loop over the linked queue is the pass of the specification |
| SendQueues.Outbox.Flush | src/event.c:91-167 | the sending part of the event loop is the step of the specification, with the disconnect on errors |
| Delivery.StanzasArrive | src/event.c:94-165 | stanzas sent through any pattern of partial writes read at the other end as their own documents, and a parser there is given exactly those trees in order |
| Meanings.QueriesAre | src/stanza.c:460-725 | name, namespace, type and id of a stanza, for every value: its name, and its own attributes `xmlns`, `type` and `id` |
| Meanings.ElementBears | src/parser_expat.c:40-86 | an element that the parser makes with an attribute has that attribute |
| Meanings.FirstFound | src/stanza.c:740-753 | a child is found by its name if and only if there is one, and then it is the first |
| Meanings.TextOfOne | src/stanza.c:833-852 | a child adds its own text to that of a stanza, and adds nothing if it is no text |
| Meanings.TextsJoin | src/stanza.c:833-852 | the text of children is that of the first of them and then that of the others, wherever they are divided |
| Meanings.OfferRead | src/auth.c:209-220 | a feature is offered if and only if the first child of its name is in its namespace; the run ends if and only if that child has none |
| Meanings.TextNames | src/auth.c:228-233 | a text names a mechanism if and only if it is spelled as that name, capitals or not |
| Meanings.SaslIsListed | src/auth.c:218-238 | features add a mechanism if and only if a `<mechanism/>` of their `<mechanisms/>` in the namespace of SASL has its name as text; the run ends if and only if that namespace, a name or a text is missing |
| Meanings.TlsIsOffered | src/auth.c:208-217 | TLS is supported after features if and only if it was before or they offer it, never when TLS is up or barred |
| OfferRuns.ListedIsAskedFor | src/auth.c:218-240 | a run from a new connection: a server that lists DIGEST-MD5 alone, or PLAIN alone, in whatever letters, is asked for just that |
| OfferRuns.ParsedListIsAskedFor | src/auth.c:218-240 | the same run with the elements as the parser makes them of their tags and texts |
| AuthSafety.RunsAreSafe | src/auth.c:296-329 | on every run against every server each observation has what it needs before it: authentication only after legacy iq and result, or a request for a mechanism, SASL success, reopened stream, bind offer, bind result, and session result if required; each handler called only after what it replies to; user handlers only after authentication |
| AuthSafety.OccursMeansPositions | src/auth.c:714-815 | milestones occur in order if and only if there are increasing positions in the history that show them |
| AuthSafety.SafeMeansAllowed | src/handler.c:98-103 | a history is safe if and only if each observation may follow those before it |
| RequestsSent.RequestsWereSent | src/conn.c:721-748 | on every run, each request on a path of milestones (mechanism, bind, session, legacy) was really queued if and only if no bad stream header came before it |
| BadHeaders.AuthenticatedUnasked | src/conn.c:721-748 | with a bad stream header there is a run that ends authenticated and on which nothing was sent |
| NegotiationOrder.NegotiationIsOrdered | src/auth.c:454-674 | on every run, up to features read after the features timeout, each step of the negotiation may follow those before it, and at most one handler that can make the next is registered |
| Heeding.AuthIsCalled | src/auth.c:187-243 | on every run, features and the end of the wait for them are followed at once by a call of `_auth`, or the run stops there |
| Heeding.MeasuresCount | src/auth.c:215-243 | each call of `_auth` has left to try just what the history says: TLS if it was offered right before on a stream without TLS and was not barred, the mechanisms offered and not tried since, the legacy request if it was never made |
| Heeding.TlsOffersAreHeeded | src/auth.c:209-243 | features that offer TLS while it is neither up nor barred are followed at once by a call of `_auth` that thinks of TLS |
| Heeding.TlsIsTriedFirst | src/auth.c:471-500 | such a call asks at once whether TLS can be had; starttls comes next if and only if it can, and otherwise a call without TLS |
| Heeding.TlsWasOffered | src/auth.c:471-500 | starttls is sent in no other way: TLS was offered, neither up nor barred, and can be had |
| Heeding.PlainIsTriedLast | src/auth.c:519-572 | on every run PLAIN is never tried while DIGEST-MD5 was listed by features, by its name, and is untried |
| Heeding.PoolMeans | src/auth.c:218-238 | a mechanism is left to try if and only if features listed it at some point after which it was not tried |
| Heeding.TriedWasOffered | src/auth.c:502-596 | on every run a mechanism is tried only if features listed it and it was not tried since |
| LateFeatures.MeasuresDecrease | src/auth.c:454-674 | each call of `_auth` has lexicographically less left to try than each before, up to features read after the timeout |
| LateFeatures.AskedOnce | src/auth.c:454-674 | starttls, each mechanism and the legacy iq are sent at most once, up to features read after the timeout |
| LateFeatures.StartTlsComesFirst | src/auth.c:454-500 | where starttls is sent, no credential is sent before TLS is up, up to features read after the timeout |
| LateFeatures.NoCredentialInTheClear | src/auth.c:454-500 | where TLS is offered, neither up nor barred, it is asked at once whether it can be had, and if it can no credential is sent before TLS is up |
| LateFeatures.FeaturesRaise | src/auth.c:200-243 | features that offer TLS or a mechanism that is not left, read when `_auth` was called before on the same stream (and TLS again, if that call thought of it), give a call with no less to try |
| LateFeatures.LateCallIff | src/auth.c:187-243 | the call of `_auth` after the first features read after the timeout may follow what came before if and only if they offer no more and something was tried right after the call before |
| LateFeatures.LateRequestIff | src/auth.c:519-672 | when that call may follow, what is tried next may follow if and only if it is not a legacy request that was sent before |
| LateFeatures.OfferedAgain | src/auth.c:519-596 | on every run, a mechanism is tried again only if features offered it again in between |
| LateFeatures.OrderIsLost | src/auth.c:187-196 | a run with the features timeout on which legacy authentication precedes starttls |
| LateFeatures.AskedTwice | src/auth.c:187-243 | a run with the features timeout and late features without any offer on which the legacy request is sent twice |
| Dispatch.ChosenIs | src/handler.c:97-109 | an entry is to be called if and only if it is the library's or the connection is authenticated, the stanza or one of its children has the namespace that was asked for, and the stanza has the name and the type that were |
| Dispatch.DispatchOutcome | src/handler.c:79-129 | exactly the entries that are to be called, of those present at the start are called, once and in order; the list afterwards is the kept ones and then the new ones, no function twice |
| Dispatch.CalledIff | src/handler.c:79-129 | an entry present at the start is called if and only if the stanza is for it, by the attributes of the stanza and of its children |
| Dispatch.VersionIsAnswered | examples/bot.c:119 | the version query reaches the handler that was registered for it by the namespace of a child, whoever else listens; without that child it does not |
| Dispatch.FatesAre | src/handler.c:107-125 | an entry that was not called stays, of the library's own called ones only those that return true, and of the user's those that do when they are called |
| IdDispatch.FireIdsOutcome | src/handler.c:54-77 | from any place of a chain on: the handlers that are called, once each and in order, and the chain that is left |
| IdDispatch.CalledInOrder | src/handler.c:54-77 | a dispatch calls exactly the handlers of the id that are not passed over, once each and in order |
| IdDispatch.FatesAre | src/handler.c:59-66 | a handler is passed over, stays or is taken out by what it is, by `authenticated` and by its return value when it is looked at |
| IdDispatch.AccountedFor | src/handler.c:54-77 | a called handler is missing afterwards if and only if it returned false; one that was passed over if and only if the next that was called returned false |
| IdDispatch.LostIff | src/handler.c:54-77 | a handler is missing afterwards without having been called if and only if it is the user's, the connection is not authenticated when the stanza comes, and a handler of the library is later in the chain |
| IdDispatch.NothingIsLost | src/handler.c:59-66 | on an authenticated connection, or for a handler of the library, just those that returned false are missing |
| IdDispatch.UserIsLost | src/handler.c:59-77 | a user's handler of the bind reply is not called by it and gone after it |
| LostHandlers.LosesHandler | src/handler.c:59-77 | a run from a new connection on which a user's handler of the reply to the legacy request is lost |
| IdChains.OnStanzaChain | src/handler.c:54-77 | calling a handler of an id leaves the chain of that id as it was, up to additions that end the run |
| Timers.FiringsAreSpaced | src/handler.c:139-196 | with a clock that does not go back, two firings of a timed handler are at least its period apart, over whole runs |
| Timers.RingsAreFired | src/handler.c:139-196 | these firings are the ones that are observed on the pass, in their order |
| Timers.RingsAreVerdicts | src/handler.c:160-185 | each of these firings has the reading of the clock by which its timer was judged, and the period of that timer |
| TimerPass.PassOutcome | src/handler.c:139-196 | a pass fires each due timer present at its start once and in order, keeps the others, and appends new ones that do not fire |
| TimerPass.VerdictsAreJudged | src/handler.c:160-185 | each timer is judged by the clock read when it is looked at, in the state the pass has then: barred, waiting for the rest of its period, or fired because the period is over; one that fired stays if and only if it is the user's and returned true |
| TimerPass.LeastIsLeast | src/handler.c:175-192 | the result is the least of the remaining waits |
| Waiting.AfterOpen | src/auth.c:686-711 | when the stream opens the features are waited for, 15 seconds from then, and the first time every timer begins anew |
| Waiting.AfterFeatures | src/auth.c:200-243 | features end the wait for them and no other; if another begins it is the one for the reply to the legacy request, for 15 seconds, and that request goes out |
| Waiting.AfterFeaturesSasl | src/auth.c:714-815 | what the features after SASL offer is remembered; their wait ends, and the one for the reply to the bind request begins, for 15 seconds, with the resource of the account in the request unless it has none or an empty one |
| Waiting.AfterBind | src/auth.c:826-899 | the wait for the reply to the bind request ends and no other; the one to the session request begins if the bind succeeded and a session is required |
| Waiting.AfterSession | src/auth.c:909-979 | replies to the session and legacy requests end their own wait and no other, and none begins |
| Waiting.AfterDisconnect | src/conn.c:517-529 | an end that is asked for is forced after two seconds |
| Waiting.UserDropped | src/handler.c:263-471 | a handler that the user deletes is taken out of the stanza handlers, the timers and the chain of its id, where it is first; everything else stays in its order |
| Connections.Conn.AddHandler | src/handler.c:371-433 | the function is searched for, and appended disabled if it is not there; nothing else changes |
| Connections.Conn.AddTimed | src/handler.c:217-254 | a timer that is not there is appended disabled with the time read as its stamp; for one that is there the clock is not read |
| Connections.Conn.DeleteTimed | src/handler.c:263-287 | the first item of the function is unlinked |
| Connections.Conn.FireStanza | src/handler.c:42-129 | both loops over the lists, with what is changed on the way, are the step of the state machine |
| Connections.Conn.FireTimed | src/handler.c:139-196 | the loop over the timed handlers is the step of the state machine, and the result is the least wait |
| Connections.Conn.TryAuth | src/auth.c:454-674 | the choice between TLS, mechanisms and legacy is the step of the state machine |
| Connections.Conn.OnFeatures | src/auth.c:200-243 | the timer goes, TLS support becomes true only unsecured, unbarred and offered, the mechanisms of the list are added, `_auth` is called; a missing namespace, name or text ends the run |
| Connections.Conn.OnProceedTls | src/auth.c:260-293 | on `proceed` TLS is started and, if it starts, the connection is secured and the stream reopened with the first open handler, otherwise disconnected; any other answer changes nothing |
| Connections.Conn.OnSaslResult | src/auth.c:296-329 | `failure` leads to `_auth`, `success` reopens the stream with the SASL open handler, anything else disconnects |
| Connections.Conn.OnDigestChallenge | src/auth.c:332-385 | a challenge is answered and the next handler registered, disconnected if there is no response, the run ended if it has no text; other answers are SASL results |
| Connections.Conn.OnRspauth | src/auth.c:389-415 | a challenge gets the empty response and the handler stays; other answers are SASL results and it goes |
| Connections.Conn.OnAuthOpen | src/auth.c:686-700 | all timers are stamped anew, the handlers of errors and features and the features timer are added |
| Connections.Conn.OnSaslOpen | src/auth.c:703-711 | the second handler of features and its timer are added |
| Connections.Conn.OnFeaturesSasl | src/auth.c:714-815 | the timer goes, offers of bind and session are remembered; with bind the request goes out with its handler and timer, without it the connection is closed |
| Connections.Conn.OnBind | src/auth.c:826-899 | the timer goes; a result leads to the session request, or to authentication if none is required; other answers disconnect |
| Connections.Conn.OnSession | src/auth.c:909-936 | the timer goes; a result authenticates and tells the user, other answers disconnect |
| Connections.Conn.OnLegacy | src/auth.c:946-979 | the timer goes; an iq result authenticates and tells the user, anything else disconnects |
| Connections.Conn.OnStreamStart | src/conn.c:721-748 | the id is remembered; a header of another name, or without an id when there is none, disconnects; the open handler is called in either case |
| Connections.Conn.RunOnce | src/event.c:75-317 | a pass of the event loop for this connection is the step of the state machine |
| Connections.Conn.Run | src/event.c:325-336 | a whole run of the object is a run of the state machine, so what is proved of runs holds of the object |
| Words.SwappedIsBig | src/sha1.c:115-116 | the byte swap of the rotated halves reads four bytes high byte first |
| Words.ChosenIsChoice | src/sha1.c:122-123 | the rewritten choice function is the one of section 5 of FIPS 180-1 |
| Words.MostIsMajority | src/sha1.c:125 | the rewritten majority function is the one of section 5 of FIPS 180-1 |
| Sha1.Blk | src/sha1.c:118-119 | the entry of the circular 16-word schedule that is overwritten becomes that word of the 80-word schedule |
| Sha1.Transform | src/sha1.c:143-198 | the unrolled rounds with renamed registers on the in-place schedule are section 7 of FIPS 180-1, for every state and block; how they overwrite the block |
| Sha1Contexts.HighIsRight | src/sha1.c:221-226 | the high word of the count is right if and only if the piece is below 2^29 bytes or the low word really wraps |
| Sha1Contexts.LengthDenotes | src/sha1.c:250-254 | the eight bytes of the length are those that denote eight times the number of bytes modulo 2^64, the high byte first |
| Sha1Contexts.Context.Update | src/sha1.c:215-241 | whatever the context had absorbed is continued by the data, wherever pieces are cut |
| Sha1Contexts.Context.Final | src/sha1.c:244-268 | the digest of the whole message, padded as in section 4 of FIPS 180-1; the context is wiped |
| Sha1Contexts.HashPieces | src/sha1.c:215-268 | for every split of a message into pieces the streamed digest is the one of the whole |
| Sha1Vectors.Abc | src/sha1.c:74-76 | the digest of "abc" is the one of appendix A of FIPS 180-1 |
| Md5.CodeIsF | src/md5.c:158-162 | the optimised forms of the auxiliary functions are those of section 3.4 of RFC 1321 |
| Md5.Transform | src/md5.c:182-270 | the unrolled rounds are the block function of section 3.4 of RFC 1321 |
| Md5Contexts.HighIsRight | src/md5.c:71-77 | the two words hold eight times the number of bytes, modulo 2^64, after every update |
| Md5Contexts.LengthDenotes | src/md5.c:140-142 | the eight bytes of the length are those that denote eight times the number of bytes modulo 2^64, the low byte first |
| Md5Contexts.Context.Update | src/md5.c:67-107 | whatever the context had absorbed is continued by the data, wherever pieces are cut |
| Md5Contexts.Context.Final | src/md5.c:113-152 | the digest of the whole message, padded as in sections 3.1 and 3.2 of RFC 1321 |
| Md5Vectors.Abc | src/md5.c:113-270 | the digest of "abc" is the one of appendix A.5 of RFC 1321 |
| Base64.Alphabet | src/sasl.c:387-399 | the 64 characters and the pad are those of table 1 of RFC 3548, in its order |
| Base64.OtherCharacters | src/sasl.c:366-385 | a character has a value if and only if it is one of these; the others are bad, or outside of the table from 128 on |
| Base64.Examples | src/sasl.c:407-457 | the examples of section 7 of RFC 3548 |
| Base64.EncodeBuffer | src/sasl.c:407-457 | the encoding of section 3 of RFC 3548 in a buffer of the computed length; a fault below two bytes |
| Base64.DecodeBuffer | src/sasl.c:461-563 | loop, length and last quartet compute the decoding, with the cases that are rejected and those that leave the buffer |
| Base64.DecodeOfEncoded | src/sasl.c:407-563 | decoding the encoding of any bytes gives them back |
| Base64.EncodeOfDecoded | src/sasl.c:485-563 | encoding what a text decodes to gives the text if and only if the text is canonical, and canonical texts decode |
| Directives.Parse | src/sasl.c:98-156 | the cursor loop ends on every text and reads its directives |
| Directives.AddKeyTo | src/sasl.c:171-217 | one more directive is appended, quoted or not |
| Directives.ParseOfPrinted | src/sasl.c:98-217 | parsing what successive additions printed gives back the keys and values |
| Directives.PairIsRead | src/sasl.c:98-156 | a pair is read behind any commas and spaces, with its value in quotation marks, in apostrophes or in neither, and what follows it is read next |
| DigestMd5.ChallengeReadBack | src/sasl.c:98-156 | the same through Base64, as a table in which later bindings win |
| DigestMd5.Value | src/sasl.c:275-337 | the digests that are fed piece by piece give the value of section 2.1.2.1 of RFC 2831 |
| DigestMd5.HexOfByte | src/sasl.c:159-168 | two digits for each byte, the high one first |
| DigestMd5.BytesAre | src/sasl.c:275-337 | the bytes that are digested are the characters modulo 256 |
| DigestMd5.AbcInHex | src/sasl.c:159-168 | the digest of "abc" in digits is the known answer of RFC 1321 |
| DigestMd5.Answered | src/sasl.c:220-390 | the reply to a challenge is the Base64 text of the directives; the cases in which NULL is used |
| DigestMd5.HashableIff | src/sasl.c:104-148 | a key of a challenge has a place in its table unless it has an odd number of bytes of 128 or more and its hash is no multiple of ten |
| DigestMd5.AnswerTo | src/sasl.c:220-390 | the whole function: decoding, parsing and answering, with what is rejected and where NULL is used |
| DigestMd5.AnswerIsResponse | src/sasl.c:220-390 | read back, the reply has the response value of RFC 2831 for user, realm, nonce and URI |
| DigestMd5.AnswerSays | src/sasl.c:255-273 | the nine directives of the reply, their order, their quotes and their fixed values; the realm is the one of the challenge, or the domain if it has none or an empty one |
| DnsNames.NameEndsIff | src/sock.c:378-396 | following labels and pointers ends within as many steps as the message has bytes, or not at all |
| DnsNames.BackwardIsParsed | src/sock.c:367-447 | a name whose pointers go back, as section 4.1.4 of RFC 1035 has it, is parsed |
| DnsNames.TargetIs | src/sock.c:381-384 | a pointer is a byte from 0xC0 on, and its other fourteen bits are the offset |
| DnsNames.CompressedIsRead | src/sock.c:367-447 | labels and then a pointer to a name that can be read: what is read is the labels and that name, and the offset moves past the pointer only |
| DnsNames.PointedIsRead | src/sock.c:367-447 | a name that was printed once and is pointed to is read at the pointer as it was printed, two bytes on |
| DnsNames.WordsArePrinted | src/sock.c:295-336 | what comes before each dot is printed after a byte that is its length, at most 63, and a zero ends the name |
| DnsNames.PrintedIsReadIff | src/sock.c:295-447 | a name that was printed is read back as it was, with the same advance of the offset, if and only if all its words have 1 to 63 bytes and it does not end in a dot |
| DnsBuffers.AddDomainName | src/sock.c:295-336 | the printed name is stored at the offset and nothing else changes |
| DnsBuffers.GetDomainName | src/sock.c:367-447 | both loops end; the name with its dots and a zero is copied out, the offset moves past the part in line only; or the length needed is returned |
| DnsBuffers.CopyStaysInsideIff | src/sock.c:399-443 | of the names the test of the room lets through, the copy stays inside the buffer if and only if dots and zero fit as well |
| DnsBuffers.TestIsTooWeak | src/sock.c:399-443 | a name of 32 words of 32 bytes passes the test for 1024 cells and takes 1056 |
| DnsBuffers.AddNum | src/sock.c:270-280 | two bytes, high byte first |
| DnsBuffers.GetNum | src/sock.c:282-293 | the number whose two bytes are there |
| DnsBuffers.NumIsTwoBytes | src/sock.c:270-293 | a number is 256 times its first byte and its second |
| DnsBuffers.AddHeader | src/sock.c:449-470 | the twelve bytes of the header are stored |
| DnsBuffers.GetHeader | src/sock.c:472-495 | the header in range whose twelve bytes are there |
| DnsBuffers.HeaderReadsBackIff | src/sock.c:449-495 | a header is read back as it was if and only if its fields fit their bits |
| DnsBuffers.FlagsAreWeighed | src/sock.c:455-464 | where section 4.1.1 of RFC 1035 has the flags and codes in their two bytes |
| DnsBuffers.AddQuestion | src/sock.c:497-502 | name, type and class are stored one after the other |
| DnsBuffers.GetQuestion | src/sock.c:504-509 | name, type and class that are there; a name that is too long is not moved past |
| DnsBuffers.QuestionReadsBack | src/sock.c:497-509 | a printed question with a plain name is read back as it was |

## Left out

- Sockets, `select`, TLS and the resolver: a write takes any number of bytes or fails, TLS is there or not and starts or not, the clock is an input.
- expat and `parser_libxml2.c`: the tokenizer of `Xml` covers the part of XML that printed stanzas use; the second parser repeats the same builder.
- Floating point, `%n` and `%w` in formats, and formats that read arguments of another type: their output counts as undefined, and members that print require that it is not.
- Failing allocations, logging, the allocator hooks, `jid.c`, `sasl_plain`, accessors, and threads.
- Widths of `int` and `size_t` for lengths: texts, tables and offsets are unbounded; the counters of the digests, the hash and the digits of numbers have their widths.
- More than one connection in a context, `xmpp_stop`, the connect timeout, and connecting again with a connection object that was used.
- The lists of handlers of a connection are sequences in its fields, not linked nodes: what is modelled is their order, additions and removals at the places where the C code relinks. The hash table and the send queue have their nodes.
- Callbacks of the user that delete handlers, or that register for the id that is being dispatched: the latter ends the run in the model, and deletions are done between passes.
- A NULL that reaches `strcmp` or `strlen` ends the run in the model; when that happens is not looked into.
- Fields that nothing modelled reads: the bound JID, the contents of stream errors, `tls_failed`, and the debug log.
- What `_get_authid` and `jid.c` compute: parts of the JID are inputs.
- LateFeatures.LateRequestIff: does not go on to the order of what follows that request; then the handlers of two requests may wait for the same reply, and each of them calls `_auth`. Mechanisms are then still repeated only as `LateFeatures.OfferedAgain` says.
- Liveness of the negotiation: an answer to starttls other than `proceed` is dropped, and nothing follows.
- `send_queue_len`: it only grows, and nothing is claimed about it.
- Sibling links of stanzas in the parser are the order of the children; in `RefCount` they are pointers.
- SendQueues.Outbox.WriteItem: does not tell apart writing to the socket and through TLS, because the two branches of the code are the same but for the call.
- DnsBuffers.GetDomainName: does not cover a copy past the end of all memory; the buffer may be a part of the memory, and what is changed behind it is described.
- A failed write of what TLS had pending disconnects twice in one pass (src/event.c:108-165): `Sending` has it so, in the state machine the second disconnect and its notification are left out.
- The masks and shifts of Base64 on 24-bit words are written as divisions and remainders by powers of two.
- DNS resource records and the 32-bit numbers in them: the library reads them and never prints one.
- The tables of directives in `DigestMd5` are maps, for keys with an index in range; the hash table is proved to be one.
