/**
 * OwinHandler: the adapter between an OWIN application and the HTTP layer of
 * the server.  The HTTP layer calls PrepareForRequest, AddRequestHeader once
 * per request header, HandleRequest, and PrepareResponseHeaders before it
 * writes the response head; the handler drives the callback object below.
 */
module Owin {
  import opened Wrappers
  import opened HeaderStore
  import opened ContentLength
  import opened ResponseRules

  /**
   * The OWIN environment entries the handler reads: owin.ResponseStatusCode
   * (absent or an int), owin.ResponseHeaders (a dictionary or null) and
   * owin.ResponseReasonPhrase.
   */
  datatype Environment = Environment(
    responseStatusCode: Option<int>,
    responseHeaders: HeaderDictionary?,
    responseReasonPhrase: ReasonPhrase)

  /** The environment after OwinEnvironment.Reset: nothing set by an application. */
  const DefaultEnvironment: Environment := Environment(None, null, Absent)

  /** How a completed Task ended. */
  datatype TaskOutcome = RanToCompletion | Faulted | Canceled

  /** The Task an application returns, as seen right after the call. */
  datatype TaskState = Completed(outcome: TaskOutcome) | Running

  /** The task faulted or was cancelled: both end the response with status 500. */
  predicate FailedOrCanceled(outcome: TaskOutcome) {
    outcome == Faulted || outcome == Canceled
  }

  /** One call of the application: the environment it leaves behind and the task it returns. */
  datatype AppRun = AppRun(environment: Environment, task: TaskState)

  /** The two side effects whose order the completion protocol fixes. */
  datatype Event = ResponseFinished | EnvironmentReset

  /** The HTTP layer's side of IHttpLayerCallback, as the handler drives it. */
  class HttpLayerCallback {
    var responseStatusCode: int
    var responseReasonPhrase: Option<string>
    var keepAlive: bool
    var responseContentLength: Option<nat>
    var responseWriteIsFlushAndFlushIsNoOp: bool
    /** How many times ResponseFinished was called. */
    var finishedCount: nat
    /** The AddResponseHeader calls received, in order. */
    var addedHeaders: seq<(string, seq<string>)>

    constructor (keepAlive: bool)
      ensures responseStatusCode == DefaultStatus && responseReasonPhrase == None
      ensures this.keepAlive == keepAlive && responseContentLength == None
      ensures !responseWriteIsFlushAndFlushIsNoOp && finishedCount == 0 && addedHeaders == []
    {
      responseStatusCode := DefaultStatus;
      responseReasonPhrase := None;
      this.keepAlive := keepAlive;
      responseContentLength := None;
      responseWriteIsFlushAndFlushIsNoOp := false;
      finishedCount := 0;
      addedHeaders := [];
    }

    /** The properties PrepareResponseHeaders sets. */
    function Fields(): ResponseFields
      reads this
    {
      ResponseFields(responseStatusCode, responseReasonPhrase, keepAlive, responseContentLength)
    }

    method ResponseFinished()
      modifies this`finishedCount
      ensures finishedCount == old(finishedCount) + 1
    {
      finishedCount := finishedCount + 1;
    }

    method AddResponseHeader(name: string, values: seq<string>)
      modifies this`addedHeaders
      ensures addedHeaders == old(addedHeaders) + [(name, values)]
    {
      addedHeaders := addedHeaders + [(name, values)];
    }
  }

  class OwinHandler {
    var environment: Environment
    const reqHeaders: HeaderDictionary
    const respHeaders: HeaderDictionary
    var callback: HttpLayerCallback
    /** A continuation is registered on the application's task and has not run yet. */
    ghost var continuationPending: bool
    /** ResponseFinished calls and environment resets, in the order they happened. */
    ghost var events: seq<Event>

    /** The dictionary an application put under owin.ResponseHeaders, if any. */
    ghost function EnvironmentHeaders(): set<object>
      reads this
    {
      if environment.responseHeaders == null then {} else {environment.responseHeaders}
    }

    /** The dictionary PrepareResponseHeaders works on. */
    function ResponseTarget(): HeaderDictionary
      reads this
    {
      if environment.responseHeaders == null then respHeaders else environment.responseHeaders
    }

    ghost predicate Valid()
      reads this, reqHeaders, respHeaders, EnvironmentHeaders()
    {
      && reqHeaders != respHeaders
      && reqHeaders.Valid() && NoEmptyValues(reqHeaders.entries)
      && respHeaders.Valid()
      && (environment.responseHeaders != null ==>
            environment.responseHeaders.Valid())
    }

    constructor (callback: HttpLayerCallback)
      ensures Valid() && fresh(reqHeaders) && fresh(respHeaders)
      ensures environment == DefaultEnvironment && this.callback == callback
      ensures reqHeaders.entries == map[] && respHeaders.entries == map[]
      ensures !continuationPending && events == []
    {
      environment := DefaultEnvironment;
      reqHeaders := new HeaderDictionary();
      respHeaders := new HeaderDictionary();
      this.callback := callback;
      continuationPending := false;
      events := [];
    }

    /** Makes the handler ready for the next request on the connection. */
    method PrepareForRequest()
      requires Valid() && !continuationPending
      modifies this, reqHeaders, respHeaders
      ensures Valid() && !continuationPending && callback == old(callback)
      ensures environment == DefaultEnvironment
      ensures reqHeaders.entries == map[] && respHeaders.entries == map[]
      ensures events == old(events) + [EnvironmentReset]
    {
      environment := DefaultEnvironment;
      events := events + [EnvironmentReset];
      reqHeaders.Clear();
      respHeaders.Clear();
    }

    /** Records one request header; repeated names (in any case) accumulate values. */
    method AddRequestHeader(name: string, value: string)
      requires Valid()
      modifies reqHeaders
      ensures Valid()
      ensures reqHeaders.entries == Append(old(reqHeaders.entries), name, value)
    {
      var found, values := reqHeaders.TryGetValue(name);
      if found {
        values := values + [value];
        reqHeaders.Set(name, values);
      } else {
        reqHeaders.Add(name, [value]);
      }
    }

    /** Status 500 and no reason phrase when the task faulted or was cancelled; then ResponseFinished. */
    method FinishResponse(outcome: TaskOutcome)
      modifies callback, this`events
      ensures callback.finishedCount == old(callback.finishedCount) + 1
      ensures events == old(events) + [ResponseFinished]
      ensures FailedOrCanceled(outcome) ==>
                callback.responseStatusCode == ServerError && callback.responseReasonPhrase == None
      ensures !FailedOrCanceled(outcome) ==>
                callback.responseStatusCode == old(callback.responseStatusCode) &&
                callback.responseReasonPhrase == old(callback.responseReasonPhrase)
      ensures callback.keepAlive == old(callback.keepAlive)
      ensures callback.responseContentLength == old(callback.responseContentLength)
      ensures callback.responseWriteIsFlushAndFlushIsNoOp == old(callback.responseWriteIsFlushAndFlushIsNoOp)
      ensures callback.addedHeaders == old(callback.addedHeaders)
    {
      if FailedOrCanceled(outcome) {
        callback.responseStatusCode := ServerError;
        callback.responseReasonPhrase := None;
      }
      callback.ResponseFinished();
      events := events + [ResponseFinished];
    }

    /**
     * Runs the application.  A task that is already complete finishes the
     * response at once; otherwise writes become real flushes and the response
     * is finished later by the continuation, ContinueAfterApplication.
     */
    method HandleRequest(app: AppRun)
      requires Valid() && !continuationPending
      requires app.environment.responseHeaders != null ==> app.environment.responseHeaders.Valid()
      modifies this, callback
      ensures Valid() && callback == old(callback)
      ensures environment == app.environment
      ensures callback.keepAlive == old(callback.keepAlive)
      ensures callback.responseContentLength == old(callback.responseContentLength)
      ensures callback.addedHeaders == old(callback.addedHeaders)
      ensures app.task.Completed? ==>
                && callback.finishedCount == old(callback.finishedCount) + 1
                && events == old(events) + [ResponseFinished]
                && !callback.responseWriteIsFlushAndFlushIsNoOp
                && !continuationPending
                && (FailedOrCanceled(app.task.outcome) ==>
                      callback.responseStatusCode == ServerError && callback.responseReasonPhrase == None)
                && (!FailedOrCanceled(app.task.outcome) ==>
                      callback.responseStatusCode == old(callback.responseStatusCode) &&
                      callback.responseReasonPhrase == old(callback.responseReasonPhrase))
      ensures app.task.Running? ==>
                && callback.finishedCount == old(callback.finishedCount)
                && events == old(events)
                && callback.responseWriteIsFlushAndFlushIsNoOp
                && continuationPending
                && callback.responseStatusCode == old(callback.responseStatusCode)
                && callback.responseReasonPhrase == old(callback.responseReasonPhrase)
    {
      callback.responseWriteIsFlushAndFlushIsNoOp := false;
      environment := app.environment;
      if app.task.Completed? {
        FinishResponse(app.task.outcome);
        return;
      }
      callback.responseWriteIsFlushAndFlushIsNoOp := true;
      continuationPending := true;
    }

    /**
     * The continuation registered by HandleRequest, run once the task ends:
     * finishes the response, and only then resets the environment.
     */
    method ContinueAfterApplication(outcome: TaskOutcome)
      requires Valid() && continuationPending
      modifies this, callback
      ensures Valid() && !continuationPending && callback == old(callback)
      ensures environment == DefaultEnvironment
      ensures callback.finishedCount == old(callback.finishedCount) + 1
      ensures events == old(events) + [ResponseFinished, EnvironmentReset]
      ensures FailedOrCanceled(outcome) ==>
                callback.responseStatusCode == ServerError && callback.responseReasonPhrase == None
      ensures !FailedOrCanceled(outcome) ==>
                callback.responseStatusCode == old(callback.responseStatusCode) &&
                callback.responseReasonPhrase == old(callback.responseReasonPhrase)
      ensures callback.keepAlive == old(callback.keepAlive)
      ensures callback.responseContentLength == old(callback.responseContentLength)
      ensures callback.responseWriteIsFlushAndFlushIsNoOp == old(callback.responseWriteIsFlushAndFlushIsNoOp)
      ensures callback.addedHeaders == old(callback.addedHeaders)
    {
      FinishResponse(outcome);
      environment := DefaultEnvironment;
      events := events + [EnvironmentReset];
      continuationPending := false;
    }

    /** The foreach loop of PrepareResponseHeaders: one AddResponseHeader call per entry. */
    method ForwardHeaders(remaining: HeaderMap)
      requires KeyedByFold(remaining)
      modifies callback`addedHeaders
      ensures exists calls ::
        && callback.addedHeaders == old(callback.addedHeaders) + calls
        && multiset(calls) == multiset(Entries(remaining))
    {
      ghost var sentBefore := callback.addedHeaders;
      ghost var calls: seq<(string, seq<string>)> := [];
      ghost var done: HeaderMap := map[];
      var pending := remaining.Keys;
      while pending != {}
        invariant pending <= remaining.Keys
        invariant done == remaining - pending
        invariant callback.addedHeaders == sentBefore + calls
        invariant multiset(calls) == multiset(Entries(done))
        decreases pending
      {
        var k :| k in pending;
        var entry := remaining[k];
        callback.AddResponseHeader(entry.name, entry.values);
        calls := calls + [(entry.name, entry.values)];
        assert callback.addedHeaders == sentBefore + calls;
        assert k !in done && done[k := entry] == remaining - (pending - {k});
        EntriesInsert(done, k, entry);
        assert multiset(calls) == multiset(Entries(done)) + multiset{(entry.name, entry.values)};
        done := done[k := entry];
        pending := pending - {k};
      }
      assert done == remaining;
    }

    /**
     * OwinHandler.cs:80-110: sets the status (GetStatusFromEnvironment: the
     * application's owin.ResponseStatusCode, or 200 when it set none), picks
     * the dictionary to work on (the handler's own, cleared, when the
     * application set none) and passes on the reason phrase; false after an
     * error.
     */
    method PrepareStatusAndReason() returns (headers: HeaderDictionary, ok: bool)
      requires Valid()
      modifies callback`responseStatusCode, callback`responseReasonPhrase, respHeaders
      ensures Valid() && headers == ResponseTarget()
      ensures headers.entries == if environment.responseHeaders == null then map[]
                                 else old(environment.responseHeaders.entries)
      ensures environment.responseHeaders != null && environment.responseHeaders != respHeaders ==>
                respHeaders.entries == old(respHeaders.entries)
      ensures ReasonStep(environment.responseReasonPhrase,
                         Translation(old(callback.Fields()).(statusCode :=
                                       if environment.responseStatusCode.Some? then environment.responseStatusCode.value
                                       else DefaultStatus),
                                     headers.entries, false)) ==
              Translation(callback.Fields(), headers.entries, !ok)
    {
      match environment.responseStatusCode {
        case None =>
          callback.responseStatusCode := DefaultStatus;
        case Some(code) =>
          callback.responseStatusCode := code;
      }
      var supplied := environment.responseHeaders;
      if supplied == null {
        respHeaders.Clear();
        headers := respHeaders;
      } else {
        headers := supplied;
      }
      match environment.responseReasonPhrase {
        case NotText =>
          callback.responseStatusCode := ServerError;
          return headers, false;
        case Text(phrase) =>
          callback.responseReasonPhrase := Some(phrase);
        case _ =>
      }
      return headers, true;
    }

    /** OwinHandler.cs:111-124: consumes Connection into the keep-alive flag; false after an error. */
    method ConsumeConnection(headers: HeaderDictionary) returns (ok: bool)
      requires headers.Valid()
      modifies headers, callback`responseStatusCode, callback`keepAlive
      ensures headers.Valid()
      ensures ConnectionStep(Translation(old(callback.Fields()), old(headers.entries), false)) ==
              Translation(callback.Fields(), headers.entries, !ok)
    {
      FramingKeys();
      var found, connectionValues := headers.TryGetValue("Connection");
      if found {
        headers.Remove("Connection");
        if |connectionValues| != 1 {
          callback.responseStatusCode := ServerError;
          return false;
        }
        var v := connectionValues[0];
        if EqualsIgnoreCase(v, "Close") {
          callback.keepAlive := false;
        } else if EqualsIgnoreCase(v, "Keep-alive") {
          callback.keepAlive := true;
        }
      }
      return true;
    }

    /** OwinHandler.cs:125-141: consumes Content-Length into the content length; false after an error. */
    method ConsumeContentLength(headers: HeaderDictionary) returns (ok: bool)
      requires headers.Valid()
      modifies headers, callback`responseStatusCode, callback`responseContentLength
      ensures headers.Valid()
      ensures ContentLengthStep(Translation(old(callback.Fields()), old(headers.entries), false)) ==
              Translation(callback.Fields(), headers.entries, !ok)
    {
      FramingKeys();
      var found, contentLengthValues := headers.TryGetValue("Content-Length");
      if found {
        headers.Remove("Content-Length");
        if |contentLengthValues| != 1 {
          callback.responseStatusCode := ServerError;
          return false;
        }
        var parsed := ParseULong(contentLengthValues[0]);
        if parsed.None? {
          callback.responseStatusCode := ServerError;
          return false;
        }
        callback.responseContentLength := Some(parsed.value);
      }
      return true;
    }

    /**
     * The Connection, Content-Length and Transfer-Encoding part of
     * PrepareResponseHeaders; false after an error.  Entries are only ever
     * removed from the dictionary.
     */
    method ConsumeFramingHeaders(headers: HeaderDictionary) returns (ok: bool)
      requires headers.Valid()
      modifies headers, callback`responseStatusCode, callback`keepAlive, callback`responseContentLength
      ensures headers.Valid()
      ensures TranslateFrom(Translation(old(callback.Fields()), old(headers.entries), false)) ==
              Translation(callback.Fields(), headers.entries, !ok)
      ensures forall k :: k in headers.entries ==> k in old(headers.entries) && headers.entries[k] == old(headers.entries[k])
    {
      ghost var t := Translation(callback.Fields(), headers.entries, false);
      ok := ConsumeConnection(headers);
      t := ConnectionStep(t);
      if !ok {
        AbortedTranslationIsFinal(t);
        return;
      }
      ok := ConsumeContentLength(headers);
      t := ContentLengthStep(t);
      if !ok {
        return;
      }
      FramingKeys();
      headers.Remove("Transfer-Encoding");
    }

    /**
     * Translates the environment's status, reason phrase and response headers
     * into callback properties and AddResponseHeader calls.  The header
     * dictionary is modified in place; AddResponseHeader is called once per
     * remaining entry, in the dictionary's enumeration order, which the model
     * leaves open.
     */
    method PrepareResponseHeaders()
      requires Valid()
      modifies callback, respHeaders, EnvironmentHeaders()
      ensures Valid()
      ensures var t := Translate(environment.responseStatusCode, environment.responseReasonPhrase,
                                 if environment.responseHeaders == null then map[]
                                 else old(environment.responseHeaders.entries),
                                 old(callback.Fields()));
        && callback.Fields() == t.fields
        && ResponseTarget().entries == t.headers
        && exists calls ::
             && callback.addedHeaders == old(callback.addedHeaders) + calls
             && multiset(calls) == multiset(Forwarded(t))
      ensures ResponseTarget() != respHeaders ==> respHeaders.entries == old(respHeaders.entries)
      ensures ResponseTarget() != reqHeaders ==> reqHeaders.entries == old(reqHeaders.entries)
      ensures callback.finishedCount == old(callback.finishedCount)
      ensures callback.responseWriteIsFlushAndFlushIsNoOp == old(callback.responseWriteIsFlushAndFlushIsNoOp)
    {
      ghost var goal := Translate(environment.responseStatusCode, environment.responseReasonPhrase,
                                  if environment.responseHeaders == null then map[]
                                  else environment.responseHeaders.entries,
                                  callback.Fields());
      var headers, ok := PrepareStatusAndReason();
      ghost var t := Translation(callback.Fields(), headers.entries, !ok);
      assert goal == TranslateFrom(t);
      if !ok {
        AbortedTranslationIsFinal(t);
        assert callback.addedHeaders == old(callback.addedHeaders) + [];
        return;
      }
      ok := ConsumeFramingHeaders(headers);
      t := TranslateFrom(t);
      if !ok {
        assert callback.addedHeaders == old(callback.addedHeaders) + [];
        return;
      }
      ForwardHeaders(headers.entries);
    }
  }
}
