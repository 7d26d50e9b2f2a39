/**
 * Concrete requests run through the model: what the HTTP layer sees for a
 * few typical applications.
 */
module Scenarios {
  import opened Wrappers
  import opened HeaderStore
  import opened ContentLength
  import opened ResponseRules
  import opened Owin

  const Initial: ResponseFields := ResponseFields(DefaultStatus, None, true, None)

  /** Status 404, reason "Not Found", one header X-Foo: bar. */
  lemma NotFoundResponse()
    ensures var t := Translate(Some(404), Text("Not Found"), map["X-FOO" := Header("X-Foo", ["bar"])], Initial);
      && t.fields == ResponseFields(404, Some("Not Found"), true, None)
      && Forwarded(t) == {("X-Foo", ["bar"])}
  {
    var h := map["X-FOO" := Header("X-Foo", ["bar"])];
    var t := Translate(Some(404), Text("Not Found"), h, Initial);
    assert t.headers == h;
    assert Entries(h) == {("X-Foo", ["bar"])} by {
      assert "X-FOO" in h;
    }
  }

  /** Content-Length "42" becomes the content length and is not handed on. */
  lemma ContentLengthFortyTwo()
    ensures var t := Translate(None, Absent, map[ContentLengthKey := Header("Content-Length", ["42"])], Initial);
      && !t.aborted
      && t.fields == ResponseFields(DefaultStatus, None, true, Some(42))
      && Forwarded(t) == {}
  {
    assert DigitsValue("42") == 42 by {
      assert "42"[..1] == "4";
    }
  }

  /** Content-Length "abc" is an error. */
  lemma ContentLengthNotANumber()
    ensures var t := Translate(Some(201), Absent, map[ContentLengthKey := Header("Content-Length", ["abc"])], Initial);
      t.aborted && t.fields.statusCode == ServerError && Forwarded(t) == {}
  {
  }

  /** Two Connection values: 500, keep-alive as it was, nothing handed on. */
  lemma TwoConnectionValues()
    ensures var h := map[ConnectionKey := Header("Connection", ["close", "close"]),
                         "X-FOO" := Header("X-Foo", ["bar"])];
      var t := Translate(None, Absent, h, Initial);
      t.aborted && t.fields == Initial.(statusCode := ServerError) && Forwarded(t) == {}
  {
  }

  /** Request headers whose names differ only in case share one entry. */
  method RequestHeadersDifferingInCase() {
    var callback := new HttpLayerCallback(true);
    var handler := new OwinHandler(callback);
    handler.PrepareForRequest();
    handler.AddRequestHeader("X-A", "1");
    handler.AddRequestHeader("x-a", "2");
    AppendIgnoresCase(map[], "X-A", "x-a", "1", "2");
    assert handler.reqHeaders.entries.Keys == {FoldCase("X-A")};
    assert handler.reqHeaders.entries[FoldCase("X-A")] == Header("X-A", ["1", "2"]);
  }

  /** A sequence holding one element, as a multiset, is that element alone. */
  lemma OnlyElement<T>(s: seq<T>, x: T)
    requires multiset(s) == multiset{x}
    ensures s == [x]
  {
    assert |s| == |multiset(s)| == 1;
    assert s[0] in multiset(s);
  }

  /**
   * An application that returns a running task after setting 404, "Not
   * Found" and one header, and later faults.
   */
  method DeferredFaultingApplication() {
    var callback := new HttpLayerCallback(true);
    var handler := new OwinHandler(callback);
    var appHeaders := new HeaderDictionary();
    assert FoldCase("X-Foo") == "X-FOO";
    appHeaders.Add("X-Foo", ["bar"]);
    var environment := Environment(Some(404), appHeaders, Text("Not Found"));
    handler.HandleRequest(AppRun(environment, Running));
    assert callback.responseWriteIsFlushAndFlushIsNoOp && callback.finishedCount == 0;
    NotFoundHeaders(handler);
    FaultedContinuation(handler);
  }

  /** The HTTP layer asks for the headers of the 404 response while the application still runs. */
  method NotFoundHeaders(handler: OwinHandler)
    requires handler.Valid()
    requires handler.environment.responseStatusCode == Some(404)
    requires handler.environment.responseReasonPhrase == Text("Not Found")
    requires handler.environment.responseHeaders != null
    requires handler.environment.responseHeaders.entries == map["X-FOO" := Header("X-Foo", ["bar"])]
    requires handler.callback.Fields() == Initial && handler.callback.addedHeaders == []
    modifies handler.callback, handler.respHeaders, handler.EnvironmentHeaders()
    ensures handler.Valid()
  {
    var callback := handler.callback;
    handler.PrepareResponseHeaders();
    NotFoundResponse();
    assert callback.responseStatusCode == 404 && callback.responseReasonPhrase == Some("Not Found");
    assert multiset(callback.addedHeaders) == multiset{("X-Foo", ["bar"])};
    OnlyElement(callback.addedHeaders, ("X-Foo", ["bar"]));
  }

  /** The continuation of a faulted application: one 500 response, then a clean environment. */
  method FaultedContinuation(handler: OwinHandler)
    requires handler.Valid() && handler.continuationPending && handler.events == []
    modifies handler, handler.callback
  {
    var callback := handler.callback;
    var finished := callback.finishedCount;
    handler.ContinueAfterApplication(Faulted);
    assert callback.finishedCount == finished + 1;
    assert callback.responseStatusCode == ServerError && callback.responseReasonPhrase == None;
    assert handler.environment == DefaultEnvironment;
    assert handler.events == [ResponseFinished, EnvironmentReset];
  }
}
