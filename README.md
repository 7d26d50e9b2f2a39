# OwinHandler, modelled in Dafny

Nowin's `OwinHandler` connects an OWIN application (a function from the
environment dictionary to a `Task`) to the server's HTTP layer, which it
drives through an `IHttpLayerCallback`. The model covers its three parts:

- **Request-header store** (`PrepareForRequest`, `AddRequestHeader`). The
  handler keeps a case-insensitive dictionary from header name to a value
  array. A repeated name gets its value appended.
- **Completion protocol** (`HandleRequest` and the continuation it
  registers). A task that has already finished ends the response at once.
  Faulted or cancelled tasks give status 500 with no reason phrase. A task
  still running makes writes real flushes, and the response is finished
  later by the continuation, which then resets the environment.
- **Response-header translation** (`PrepareResponseHeaders`,
  `GetStatusFromEnvironment`). The status defaults to 200. A reason phrase
  that is not a string is an error. `Connection` is consumed into the
  keep-alive flag (section 6.1 of RFC 7230). `Content-Length` is consumed
  into the content length (section 3.3.2 of RFC 7230). `Transfer-Encoding`
  is dropped (section 3.3.1 of RFC 7230). Every other header is forwarded.
  The first error sets status 500 and stops the translation.

Files:

- `wrappers.dfy`: `Option`.
- `header_store.dfy`: the case-insensitive dictionary. It is a class
  `HeaderDictionary` with a map keyed by the upper-case fold of the name.
  Each entry keeps the name as first inserted, as a .NET `Dictionary`
  does.
- `content_length.dfy`: the Content-Length parse, with its round trip
  against decimal printing.
- `response_rules.dfy`: `PrepareResponseHeaders` as a pure function
  `Translate`, step by step, with its properties as lemmas.
- `owin_handler.dfy`: the callback object and the `OwinHandler` class.
  Its methods are proved against the functions above.
- `scenarios.dfy`: concrete requests run through the model.

The HTTP layer calls `PrepareResponseHeaders` on its own, and
`HandleRequest` never calls it. So an application fault does not skip
header translation inside the handler. It only overrides the status and
reason phrase when the response finishes.

An application may put any header dictionary under `owin.ResponseHeaders`,
the handler's request dictionary included. The model allows that
aliasing: translation then removes the framing headers from the request
store too.

The handler also carries two ghost fields. `continuationPending` records
that a continuation is registered and has not run. `events` logs
`ResponseFinished` calls and environment resets in order. Together they
state "finished exactly once, and reset only after finishing".

## Model

| member | source | states |
|---|---|---|
| HeaderStore.FoldCase | NowinWebServer/OwinHandler.cs:23-24 | the fold keeps the length, maps each character to itself or its other-case ASCII letter, leaves no lower-case letter, and folding again changes nothing |
| HeaderStore.EqualsIgnoreCaseIff | NowinWebServer/OwinHandler.cs:120-122 | two strings compare equal ignoring case exactly when they have the same length and each position holds the same character or the same ASCII letter in the other case |
| HeaderStore.FramingKeys | NowinWebServer/OwinHandler.cs:111-142 | "Connection", "Content-Length" and "Transfer-Encoding" are found under their folded keys, whatever case the application used |
| HeaderStore.Append | NowinWebServer/OwinHandler.cs:38-51 | an existing name (any case) keeps its stored name and gets old values + [value]; a new name gets the singleton [value]; no other key changes; folded keys and non-empty value arrays are preserved |
| HeaderStore.AppendIgnoresCase | NowinWebServer/OwinHandler.cs:38-51 | adding under "X-A" then "x-a" gives one entry named "X-A" with both values in arrival order |
| HeaderStore.EntriesCardinality | NowinWebServer/OwinHandler.cs:143-146 | enumerating a dictionary yields one distinct (name, values) pair per entry |
| HeaderStore.EntriesInsert | NowinWebServer/OwinHandler.cs:143-146 | one more entry adds exactly one new pair to the enumeration |
| HeaderStore.HeaderDictionary.constructor | NowinWebServer/OwinHandler.cs:23-24 | a new dictionary is empty |
| HeaderStore.HeaderDictionary.Clear | NowinWebServer/OwinHandler.cs:34-35 | the dictionary is empty afterwards |
| HeaderStore.HeaderDictionary.TryGetValue | NowinWebServer/OwinHandler.cs:41 | found exactly when the folded name is a key, with that entry's value array |
| HeaderStore.HeaderDictionary.Remove | NowinWebServer/OwinHandler.cs:113 | only the folded name's entry is gone; an absent name is no error |
| HeaderStore.HeaderDictionary.Set | NowinWebServer/OwinHandler.cs:45 | the entry gets the new array; an existing entry keeps its stored name |
| HeaderStore.HeaderDictionary.Add | NowinWebServer/OwinHandler.cs:49 | a new entry under the folded name with the given name and values |
| ContentLength.ParseULong | NowinWebServer/OwinHandler.cs:134-135 | a parsed value is below 2^64 and comes from non-empty all-digit text |
| ContentLength.ParseDecimalRoundTrip | NowinWebServer/OwinHandler.cs:134-140 | every ulong printed in decimal parses back to itself |
| ContentLength.ParseIgnoresLeadingZero | NowinWebServer/OwinHandler.cs:135 | a leading zero changes neither acceptance nor the value |
| ContentLength.CanonicalDigits | NowinWebServer/OwinHandler.cs:135 | digit text without a leading zero is exactly the decimal printing of its value |
| ContentLength.ParseCanonicalIff | NowinWebServer/OwinHandler.cs:134-140 | text without a leading zero parses to n if and only if n is below 2^64 and the text is n printed in decimal, so each ulong has one such spelling |
| ContentLength.ParseRejectsOverflow | NowinWebServer/OwinHandler.cs:135-139 | any number of 2^64 or more, written in decimal, is refused |
| ContentLength.ParseRejectsNonDigit | NowinWebServer/OwinHandler.cs:135-139 | text holding any character other than a digit is refused |
| ResponseRules.Translate | NowinWebServer/OwinHandler.cs:80-147 | the run fails exactly when the reason phrase is not a string, Connection is present without exactly one value, or Content-Length is present without exactly one value that parses as a ulong; a failure means status 500; otherwise the status is the environment's, or 200 when it set none; a string reason phrase is passed on; headers are only removed, never changed; on success exactly Connection, Content-Length and Transfer-Encoding are removed; a present Content-Length on success is single-valued and its parse is the content length, always below 2^64 |
| ResponseRules.AbortedTranslationIsFinal | NowinWebServer/OwinHandler.cs:105-138 | after an error the later steps change nothing |
| ResponseRules.NonTextReasonAborts | NowinWebServer/OwinHandler.cs:99-107 | a non-string reason phrase gives status 500, leaves the header map and keep-alive as they were, and forwards nothing |
| ResponseRules.KeepAliveOutcome | NowinWebServer/OwinHandler.cs:111-124 | with a string reason phrase and a single Connection value: "close" in any ASCII case clears keep-alive, "keep-alive" in any ASCII case sets it, any other value leaves it; in every other case keep-alive is as before; the change stays even if Content-Length fails later |
| ResponseRules.ConnectionRule | NowinWebServer/OwinHandler.cs:111-118 | a Connection header is always removed; a value count other than 1 gives 500, no other field changed, nothing else removed, nothing forwarded; a single value, whatever it says, is never the cause of a failure |
| ResponseRules.ContentLengthRule | NowinWebServer/OwinHandler.cs:125-141 | a reached Content-Length is always removed; the run fails exactly when it is not a single parsable ulong; on failure the length is unchanged and nothing is forwarded, otherwise the length is the parsed value |
| ResponseRules.FramingHeadersNotForwarded | NowinWebServer/OwinHandler.cs:111-146 | no forwarded pair is named Connection, Content-Length or Transfer-Encoding in any case |
| ResponseRules.OtherHeadersForwarded | NowinWebServer/OwinHandler.cs:142-146 | on success every other header is forwarded with its full value array, and there are exactly as many forwarded pairs as such headers |
| ResponseRules.TransferEncodingIrrelevant | NowinWebServer/OwinHandler.cs:142 | with or without a Transfer-Encoding header the callback fields, the error outcome and the forwarded headers are the same, so its absence is no error |
| Owin.HttpLayerCallback.ResponseFinished | NowinWebServer/OwinHandler.cs:64 | one more completion signal |
| Owin.HttpLayerCallback.AddResponseHeader | NowinWebServer/OwinHandler.cs:145 | the trace of forwarded headers grows by exactly this pair |
| Owin.OwinHandler.constructor | NowinWebServer/OwinHandler.cs:19-25 | two fresh, distinct, empty dictionaries and a default environment |
| Owin.OwinHandler.PrepareForRequest | NowinWebServer/OwinHandler.cs:31-36 | the environment is back to its defaults and both dictionaries are empty |
| Owin.OwinHandler.AddRequestHeader | NowinWebServer/OwinHandler.cs:38-51 | the request store becomes Append(old store, name, value), and stays keyed by folded name with no empty arrays |
| Owin.OwinHandler.FinishResponse | NowinWebServer/OwinHandler.cs:59-64 | a faulted or cancelled task gives status 500 and no reason phrase, otherwise status and reason are untouched; ResponseFinished is called exactly once; nothing else on the callback changes |
| Owin.OwinHandler.HandleRequest | NowinWebServer/OwinHandler.cs:53-78 | for a finished task: one ResponseFinished, the flush flag false, the fault mapping to 500, no continuation pending; for a running task: the flush flag true, no ResponseFinished yet, status and reason untouched, a continuation pending |
| Owin.OwinHandler.ContinueAfterApplication | NowinWebServer/OwinHandler.cs:68-77 | the same fault mapping, one ResponseFinished, then an environment reset, in that order; nothing pending afterwards |
| Owin.OwinHandler.PrepareStatusAndReason | NowinWebServer/OwinHandler.cs:80-110 | the status step (the application's status, or 200 when it set none) and the reason step of Translate, on the application's dictionary or the handler's own one, cleared |
| Owin.OwinHandler.ConsumeConnection | NowinWebServer/OwinHandler.cs:111-124 | the Connection step of Translate, done in place on the dictionary and the callback |
| Owin.OwinHandler.ConsumeContentLength | NowinWebServer/OwinHandler.cs:125-141 | the Content-Length step of Translate, done in place |
| Owin.OwinHandler.ConsumeFramingHeaders | NowinWebServer/OwinHandler.cs:111-142 | the Connection, Content-Length and Transfer-Encoding steps of Translate in order, done in place; entries are only removed, never changed |
| Owin.OwinHandler.ForwardHeaders | NowinWebServer/OwinHandler.cs:143-146 | the new AddResponseHeader calls are, as a multiset, exactly the dictionary's entries |
| Owin.OwinHandler.PrepareResponseHeaders | NowinWebServer/OwinHandler.cs:88-147 | the callback fields and the dictionary worked on end as Translate says; the forwarded pairs are Translate's, each once, none after an error; completion count and flush flag are untouched |
| Scenarios.NotFoundResponse | NowinWebServer/OwinHandler.cs:88-147 | status 404, reason "Not Found" and header X-Foo: bar give exactly those fields and the single pair ("X-Foo", ["bar"]) |
| Scenarios.ContentLengthFortyTwo | NowinWebServer/OwinHandler.cs:125-141 | Content-Length "42" sets the length to 42 and is not forwarded |
| Scenarios.ContentLengthNotANumber | NowinWebServer/OwinHandler.cs:135-139 | Content-Length "abc" gives status 500 and forwards nothing |
| Scenarios.TwoConnectionValues | NowinWebServer/OwinHandler.cs:111-118 | two Connection values give status 500 with keep-alive unchanged, and forward nothing |

## Left out

- `Dispose` is empty in the source and has no model.
- The application is an external callable. A call of it is the parameter
  `AppRun`: the environment it leaves and the state of its task. Writes
  the application makes to header dictionaries during the call are not
  part of `AppRun`. `HandleRequest` never reads them, and a caller can
  make them on the dictionary objects directly.
- Owin.OwinHandler.HandleRequest: an application that throws instead of
  returning a task, and one that returns null, are not modelled; `AppRun`
  always carries a task state. In the source there is no try/catch, so the
  exception leaves `HandleRequest` with the flush flag false, no
  `ResponseFinished` call and no status 500.
- `Task.ContinueWith` and threads: the continuation is the separate method
  `ContinueAfterApplication`. It runs later, sequentially, once per
  registration.
- `OwinEnvironment` is not part of this model. Its three response entries
  are the typed record `Environment`. Its `Reset` restores the defaults: no
  status, no reason phrase, no header dictionary.
- `IHttpLayerCallback` is not part of this model. The class
  `HttpLayerCallback` holds the properties the handler sets. It counts
  `ResponseFinished` calls and records `AddResponseHeader` calls. The
  effect of the flush flag on writes is not modelled.
- The invalid-cast exceptions of `(int)value` and of the header-dictionary
  cast: the environment's values are taken to be well typed.
- HeaderStore.EqualsIgnoreCase: folds only the ASCII letters `a`-`z`.
  .NET's `OrdinalIgnoreCase` also folds non-ASCII letters, and
  `InvariantCultureIgnoreCase` also skips ignorable characters, so a
  Connection value "Clo\u00ADse" (with a soft hyphen) means close in the
  source and is any other value in the model.
- The continuation resets the environment after `ResponseFinished`. The
  model takes it that the HTTP layer never starts the next request from
  inside `ResponseFinished`: `PrepareForRequest` and `HandleRequest` require
  that no continuation is pending.
- Null value arrays and null values in a header dictionary are not
  modelled. In the source `.Length` and `Equals` on them throw, and a null
  Content-Length value fails `ulong.TryParse` and gives status 500.
- A dictionary the application supplies is taken to be case-insensitive, as
  OWIN requires. A case-sensitive one is not modelled.
- `Array.Resize` and the store into the new array: a value array is a
  sequence, and the resize is an append.
- ContentLength.ParseULong: accepts only non-empty ASCII digit runs below
  2^64. The whitespace, sign and culture rules of `ulong.TryParse` are not
  modelled.
- Owin.OwinHandler.PrepareResponseHeaders: states the `AddResponseHeader`
  calls as a multiset, not as a sequence. The enumeration order of a .NET
  `Dictionary` after removals is not part of its contract.
- Owin.OwinHandler.ForwardHeaders: same as above, the order of the calls is
  left open.
