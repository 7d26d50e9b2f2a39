/**
 * What OwinHandler.PrepareResponseHeaders computes, as functions of the
 * environment it reads and the callback fields it starts from.  The
 * translation runs in the source's order (status, reason phrase, Connection,
 * Content-Length, Transfer-Encoding) and stops at the first error with
 * status 500; removals already made stay made.
 */
module ResponseRules {
  import opened Wrappers
  import opened HeaderStore
  import opened ContentLength

  /** What the environment holds under owin.ResponseReasonPhrase. */
  datatype ReasonPhrase = Absent | Null | Text(phrase: string) | NotText

  /** The callback properties PrepareResponseHeaders may set. */
  datatype ResponseFields = ResponseFields(
    statusCode: int,
    reasonPhrase: Option<string>,
    keepAlive: bool,
    contentLength: Option<nat>)

  /**
   * The state of a translation: the callback fields so far, the response
   * header dictionary as modified so far, and whether it stopped on an error.
   */
  datatype Translation = Translation(fields: ResponseFields, headers: HeaderMap, aborted: bool)

  const DefaultStatus: int := 200
  const ServerError: int := 500

  /** Stop with status 500, keeping the header map as it is now. */
  function Fail(t: Translation, headers: HeaderMap): Translation {
    Translation(t.fields.(statusCode := ServerError), headers, true)
  }

  function ReasonStep(reason: ReasonPhrase, t: Translation): Translation {
    match reason
    case NotText => Fail(t, t.headers)
    case Text(phrase) => t.(fields := t.fields.(reasonPhrase := Some(phrase)))
    case _ => t
  }

  /** The keep-alive flag after a single Connection value. */
  function KeepAliveFor(value: string, current: bool): bool {
    if EqualsIgnoreCase(value, "Close") then false
    else if EqualsIgnoreCase(value, "Keep-alive") then true
    else current
  }

  function ConnectionStep(t: Translation): Translation {
    if t.aborted || ConnectionKey !in t.headers then t
    else
      var values := t.headers[ConnectionKey].values;
      var rest := t.headers - {ConnectionKey};
      if |values| != 1 then Fail(t, rest)
      else Translation(t.fields.(keepAlive := KeepAliveFor(values[0], t.fields.keepAlive)), rest, false)
  }

  function ContentLengthStep(t: Translation): Translation {
    if t.aborted || ContentLengthKey !in t.headers then t
    else
      var values := t.headers[ContentLengthKey].values;
      var rest := t.headers - {ContentLengthKey};
      if |values| != 1 then Fail(t, rest)
      else match ParseULong(values[0])
        case None => Fail(t, rest)
        case Some(length) => Translation(t.fields.(contentLength := Some(length)), rest, false)
  }

  function TransferEncodingStep(t: Translation): Translation {
    if t.aborted then t else t.(headers := t.headers - {TransferEncodingKey})
  }

  /** The header steps that follow the reason phrase. */
  function TranslateFrom(t: Translation): Translation {
    TransferEncodingStep(ContentLengthStep(ConnectionStep(t)))
  }

  /** After an error nothing more happens. */
  lemma AbortedTranslationIsFinal(t: Translation)
    requires t.aborted
    ensures TranslateFrom(t) == t && ContentLengthStep(t) == t
  {
  }

  /** The translation fails on a non-string reason phrase or a malformed Connection or Content-Length. */
  ghost predicate FramingError(reason: ReasonPhrase, headers: HeaderMap) {
    || reason.NotText?
    || (ConnectionKey in headers && |headers[ConnectionKey].values| != 1)
    || (ContentLengthKey in headers &&
          (|headers[ContentLengthKey].values| != 1 || ParseULong(headers[ContentLengthKey].values[0]).None?))
  }

  /** The whole of PrepareResponseHeaders, from the environment and the callback's fields before it. */
  function Translate(status: Option<int>, reason: ReasonPhrase, headers: HeaderMap, before: ResponseFields): (t: Translation)
    ensures t.aborted <==> FramingError(reason, headers)
    ensures t.aborted ==> t.fields.statusCode == ServerError
    ensures !t.aborted && status.Some? ==> t.fields.statusCode == status.value
    ensures !t.aborted && status.None? ==> t.fields.statusCode == DefaultStatus
    ensures t.fields.reasonPhrase == if reason.Text? then Some(reason.phrase) else before.reasonPhrase
    ensures forall k :: k in t.headers ==> k in headers && t.headers[k] == headers[k]
    ensures !t.aborted ==> t.headers == headers - {ConnectionKey, ContentLengthKey, TransferEncodingKey}
    ensures !t.aborted && ContentLengthKey in headers ==>
              |headers[ContentLengthKey].values| == 1 &&
              t.fields.contentLength == ParseULong(headers[ContentLengthKey].values[0])
    ensures ContentLengthKey !in headers ==> t.fields.contentLength == before.contentLength
    ensures t.fields.contentLength != before.contentLength ==>
              t.fields.contentLength.Some? && t.fields.contentLength.value < ULongLimit
  {
    var code := if status.Some? then status.value else DefaultStatus;
    var start := Translation(before.(statusCode := code), headers, false);
    FramingKeysDistinct();
    var r := ReasonStep(reason, start);
    var c := ConnectionStep(r);
    assert !c.aborted ==> c.headers == headers - {ConnectionKey};
    assert ContentLengthKey in c.headers <==> ContentLengthKey in headers;
    assert ContentLengthKey in headers ==> c.headers[ContentLengthKey] == headers[ContentLengthKey];
    TransferEncodingStep(ContentLengthStep(c))
  }

  /** The pairs handed to AddResponseHeader: none after an error, else every remaining entry. */
  ghost function Forwarded(t: Translation): set<(string, seq<string>)> {
    if t.aborted then {} else Entries(t.headers)
  }

  /** A reason phrase that is not a string stops everything: 500, no header touched. */
  lemma NonTextReasonAborts(status: Option<int>, headers: HeaderMap, before: ResponseFields)
    ensures Translate(status, NotText, headers, before) ==
            Translation(before.(statusCode := ServerError), headers, true)
  {
  }

  /**
   * The keep-alive flag only ever changes through a single-valued Connection
   * header: "close" clears it, "keep-alive" sets it (in any case), any other
   * value leaves it, and a later Content-Length error does not undo it.
   */
  lemma KeepAliveOutcome(status: Option<int>, reason: ReasonPhrase, headers: HeaderMap, before: ResponseFields)
    ensures var t := Translate(status, reason, headers, before);
      if !reason.NotText? && ConnectionKey in headers && |headers[ConnectionKey].values| == 1 then
        var v := headers[ConnectionKey].values[0];
        && (EqualsIgnoreCase(v, "Close") ==> !t.fields.keepAlive)
        && (EqualsIgnoreCase(v, "Keep-alive") ==> t.fields.keepAlive)
        && (!EqualsIgnoreCase(v, "Close") && !EqualsIgnoreCase(v, "Keep-alive") ==>
              t.fields.keepAlive == before.keepAlive)
      else t.fields.keepAlive == before.keepAlive
  {
  }

  /**
   * A Connection header is always consumed; more or fewer than one value is
   * an error, and a single value, whatever it says, is none.
   */
  lemma ConnectionRule(status: Option<int>, reason: ReasonPhrase, headers: HeaderMap, before: ResponseFields)
    requires !reason.NotText? && ConnectionKey in headers
    ensures var t := Translate(status, reason, headers, before);
      && ConnectionKey !in t.headers
      && (|headers[ConnectionKey].values| != 1 ==>
            && t.aborted
            && t.fields == before.(statusCode := ServerError,
                                   reasonPhrase := t.fields.reasonPhrase)
            && t.headers == headers - {ConnectionKey}
            && Forwarded(t) == {})
      && (|headers[ConnectionKey].values| == 1 ==>
            (t.aborted <==> FramingError(reason, headers - {ConnectionKey})))
  {
  }

  /** A Content-Length header, once reached, is always consumed and must be one ulong. */
  lemma ContentLengthRule(status: Option<int>, reason: ReasonPhrase, headers: HeaderMap, before: ResponseFields)
    requires !reason.NotText? && ContentLengthKey in headers
    requires ConnectionKey in headers ==> |headers[ConnectionKey].values| == 1
    ensures var t := Translate(status, reason, headers, before);
      var values := headers[ContentLengthKey].values;
      && ContentLengthKey !in t.headers
      && (t.aborted <==> |values| != 1 || ParseULong(values[0]).None?)
      && (t.aborted ==> t.fields.contentLength == before.contentLength && Forwarded(t) == {})
      && (!t.aborted ==> t.fields.contentLength == ParseULong(values[0]))
  {
  }

  /** Connection, Content-Length and Transfer-Encoding are never handed on. */
  lemma FramingHeadersNotForwarded(status: Option<int>, reason: ReasonPhrase, headers: HeaderMap, before: ResponseFields)
    requires KeyedByFold(headers)
    ensures forall p :: p in Forwarded(Translate(status, reason, headers, before)) ==>
              FoldCase(p.0) != ConnectionKey && FoldCase(p.0) != ContentLengthKey && FoldCase(p.0) != TransferEncodingKey
  {
  }

  /** On success every other header is handed on, with its full value array, exactly once. */
  lemma {:induction false} OtherHeadersForwarded(status: Option<int>, reason: ReasonPhrase, headers: HeaderMap, before: ResponseFields)
    requires KeyedByFold(headers)
    ensures var t := Translate(status, reason, headers, before);
      !t.aborted ==>
        && (forall k :: k in headers && k !in {ConnectionKey, ContentLengthKey, TransferEncodingKey} ==>
              (headers[k].name, headers[k].values) in Forwarded(t))
        && |Forwarded(t)| == |headers - {ConnectionKey, ContentLengthKey, TransferEncodingKey}|
  {
    var t := Translate(status, reason, headers, before);
    if !t.aborted {
      forall k | k in headers && k !in {ConnectionKey, ContentLengthKey, TransferEncodingKey}
        ensures (headers[k].name, headers[k].values) in Forwarded(t)
      {
        assert k in t.headers;
      }
      EntriesCardinality(t.headers);
    }
  }

  /** Proof steps of TransferEncodingIrrelevant: dropping Transfer-Encoding first commutes with each step. */
  lemma ConnectionStepWithoutTransferEncoding(t: Translation)
    ensures ConnectionStep(t.(headers := t.headers - {TransferEncodingKey})) ==
            var u := ConnectionStep(t); u.(headers := u.headers - {TransferEncodingKey})
  {
  }

  lemma ContentLengthStepWithoutTransferEncoding(t: Translation)
    ensures ContentLengthStep(t.(headers := t.headers - {TransferEncodingKey})) ==
            var u := ContentLengthStep(t); u.(headers := u.headers - {TransferEncodingKey})
  {
  }

  /** Transfer-Encoding is dropped without effect: with or without it the outcome is the same. */
  lemma {:induction false} TransferEncodingIrrelevant(status: Option<int>, reason: ReasonPhrase, headers: HeaderMap, before: ResponseFields)
    ensures var with := Translate(status, reason, headers, before);
      var without := Translate(status, reason, headers - {TransferEncodingKey}, before);
      with.fields == without.fields && with.aborted == without.aborted && Forwarded(with) == Forwarded(without)
  {
    var code := if status.Some? then status.value else DefaultStatus;
    var start := Translation(before.(statusCode := code), headers, false);
    var r := ReasonStep(reason, start);
    var r' := ReasonStep(reason, start.(headers := headers - {TransferEncodingKey}));
    assert r' == r.(headers := r.headers - {TransferEncodingKey});
    ConnectionStepWithoutTransferEncoding(r);
    var c := ConnectionStep(r);
    ContentLengthStepWithoutTransferEncoding(c);
    var l := ContentLengthStep(c);
    var l' := l.(headers := l.headers - {TransferEncodingKey});
    assert !l.aborted ==> l'.headers - {TransferEncodingKey} == l.headers - {TransferEncodingKey};
  }
}
