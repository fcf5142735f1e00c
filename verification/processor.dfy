/**
 * The current reconcile step (package `processor`): every failure is
 * returned as an error and reported once as an event on the ConfigMap; a
 * URL without a scheme is fetched over `https`; a refused update is a
 * failure too.
 */
module Processor {
  import opened Options
  import opened Strings
  import opened Urls
  import opened Http
  import opened Kube
  import opened Reconcile

  /** The component name events carry, also the prefix of their names. */
  const Component: string := "config-map-controller"

  function FormatMessage(annotation: string): string
  {
    "annotation value '" + annotation + "' does not match expected format key=url"
  }

  function InvalidUrlMessage(rawUrl: string): string
  {
    "invalid url provided: " + rawUrl
  }

  function UpdateFailedMessage(err: string): string
  {
    "failed to update configmap: " + err
  }

  /** Whether a fetch succeeded: status 200 and a body that could be read. */
  predicate FetchSucceeded(outcome: FetchOutcome)
  {
    outcome.Response? && outcome.status == StatusOK && outcome.body.Content?
  }

  /**
   * `curl`: classifies a fetch of `url`, checking in turn for a transport
   * error, a status other than 200, a missing body and a read error. The
   * result is (value, error message); an empty message means success.
   */
  function Curl(url: string, outcome: FetchOutcome): (result: (string, string))
    ensures result.1 == "" <==> FetchSucceeded(outcome)
    ensures FetchSucceeded(outcome) ==> result.0 == outcome.body.text
    ensures !FetchSucceeded(outcome) ==> result.0 == ""
    ensures outcome.TransportError?
            ==> result.1 == "failed to curl " + url + ", got error: " + outcome.error
    ensures outcome.Response? && outcome.status == StatusOK && outcome.body.NoBody?
            ==> result.1 == "empty response body from " + url
    ensures outcome.Response? && outcome.status == StatusOK && outcome.body.ReadError?
            ==> result.1 == "failed to read response body: " + outcome.body.error
  {
    match outcome
    case TransportError(e) =>
      ("", "failed to curl " + url + ", got error: " + e)
    case Response(status, body) =>
      if status != StatusOK then
        ("", "failed to curl " + url + ", got status code: " + DecimalString(status))
      else
        match body
        case NoBody => ("", "empty response body from " + url)
        case ReadError(e) => ("", "failed to read response body: " + e)
        case Content(text) => (text, "")
  }

  /** A status other than 200 is reported whatever the body, naming the status. */
  lemma CurlStatusBeforeBody(url: string, status: int, body: Body)
    requires status != StatusOK
    ensures Curl(url, Response(status, body)).1
         == "failed to curl " + url + ", got status code: " + DecimalString(status)
  {
  }

  /** The message for an internal server error names the status as `500`. */
  lemma CurlStatus500(url: string, body: Body)
    ensures Curl(url, Response(500, body)).1 == "failed to curl " + url + ", got status code: 500"
  {
  }

  /** Distinct non-200 status codes give distinct error messages, so the message identifies the status. */
  lemma StatusMessagesDistinct(url: string, a: int, b: int, bodyA: Body, bodyB: Body)
    requires a != StatusOK && b != StatusOK && a != b
    ensures Curl(url, Response(a, bodyA)).1 != Curl(url, Response(b, bodyB)).1
  {
    var prefix := "failed to curl " + url + ", got status code: ";
    assert DecimalString(a) == (prefix + DecimalString(a))[|prefix|..];
    assert DecimalString(b) == (prefix + DecimalString(b))[|prefix|..];
    DecimalStringInjective(a, b);
  }

  /** The random name suffix and the clock reading an event is created with. */
  datatype EventNonce = EventNonce(id: string, time: int)

  /** The error event `addEventLogAndError` files about `cm`. */
  function ErrorEvent(message: string, cm: ConfigMap, nonce: EventNonce): Event
  {
    Event(
      name := Component + nonce.id,
      message := message,
      reason := "-",
      eventType := "error",
      firstTimestamp := nonce.time,
      involvedObject := ObjectReference("ConfigMap", cm.namespace, cm.name, cm.uid),
      sourceComponent := Component)
  }

  /**
   * What `ProcessResource` decides for `cm` before writing anything: skip
   * when the annotation is absent or the data key is already set, fail on a
   * malformed annotation, an unparseable URL or a failed fetch, and
   * otherwise write the fetched body under the key.
   */
  function Decide(annotationKey: string, urls: UrlLibrary, cm: ConfigMap,
                  respond: string -> FetchOutcome): (p: Plan)
    ensures annotationKey !in cm.annotations ==> p == Skip
    ensures p.Fail? ==> p.message != ""
  {
    if annotationKey !in cm.annotations then Skip
    else
      var annotation := cm.annotations[annotationKey];
      match ParseDirective(annotation)
      case None => Fail(FormatMessage(annotation), None)
      case Some(Directive(key, rawUrl)) =>
        match urls.parse(rawUrl)
        case ParseError => Fail(InvalidUrlMessage(rawUrl), None)
        case Parsed(u) =>
          if HasDataKey(cm, key) then Skip
          else
            var target := urls.render(WithDefaultScheme(u));
            var (value, errMsg) := Curl(target, respond(target));
            if errMsg != "" then Fail(errMsg, Some(target))
            else Write(target, WithData(cm, key, value))
  }

  /** The text of the error `ProcessResource` returns once `Decide` reached `p` and the store answered the update with `updateErr`. */
  function ResultError(p: Plan, updateErr: Option<string>): Option<string>
  {
    match p
    case Skip => None
    case Fail(message, _) => Some(message)
    case Write(_, _) => if updateErr.Some? then Some(UpdateFailedMessage(updateErr.value)) else None
  }

  /** The events a call appends when it returns `err`: one error event, unless creating it fails. */
  function ReportedEvents(err: Option<string>, cm: ConfigMap, nonce: EventNonce,
                          eventFault: Option<string>): seq<StoredEvent>
  {
    if err.Some? && eventFault.None? then [StoredEvent(cm.namespace, ErrorEvent(err.value, cm, nonce))]
    else []
  }

  /** The annotation is rejected exactly when it does not hold exactly one `=`, and then with the format message. */
  lemma MalformedAnnotationFails(annotationKey: string, urls: UrlLibrary, cm: ConfigMap,
                                 respond: string -> FetchOutcome)
    requires annotationKey in cm.annotations
    ensures var annotation := cm.annotations[annotationKey];
      Decide(annotationKey, urls, cm, respond) == Fail(FormatMessage(annotation), None)
      <==> Count(annotation, '=') != 1
  {
    var annotation := cm.annotations[annotationKey];
    var p := Decide(annotationKey, urls, cm, respond);
    if Count(annotation, '=') == 1 && p.Fail? && p.request.None? {
      var d := ParseDirective(annotation).value;
      assert p.message == InvalidUrlMessage(d.url);
      assert p.message[0] == 'i' && FormatMessage(annotation)[0] == 'a';
    }
  }

  /** The acceptance scenario: the value `not correct` is reported with the format message. */
  lemma NotCorrectIsReported(annotationKey: string, urls: UrlLibrary, cm: ConfigMap,
                             respond: string -> FetchOutcome)
    requires annotationKey in cm.annotations && cm.annotations[annotationKey] == "not correct"
    ensures Decide(annotationKey, urls, cm, respond)
            == Fail(FormatMessage("not correct"), None)
  {
    assert '=' !in "not correct";
    assert ParseDirective("not correct") == None;
  }

  /** A URL the library cannot parse fails with the raw URL in the message, before the data key is looked at. */
  lemma InvalidUrlFails(annotationKey: string, urls: UrlLibrary, cm: ConfigMap,
                        respond: string -> FetchOutcome, key: string, rawUrl: string)
    requires annotationKey in cm.annotations && cm.annotations[annotationKey] == key + "=" + rawUrl
    requires '=' !in key && '=' !in rawUrl
    requires urls.parse(rawUrl) == ParseError
    ensures Decide(annotationKey, urls, cm, respond) == Fail(InvalidUrlMessage(rawUrl), None)
  {
    ParseDirectiveOfJoin(key, rawUrl);
  }

  /** A directive whose data key is already set is a no-op whatever the remote side would answer. */
  lemma PresentKeySkips(annotationKey: string, urls: UrlLibrary, cm: ConfigMap,
                        respond: string -> FetchOutcome, key: string, rawUrl: string)
    requires annotationKey in cm.annotations && cm.annotations[annotationKey] == key + "=" + rawUrl
    requires '=' !in key && '=' !in rawUrl
    requires urls.parse(rawUrl).Parsed?
    requires HasDataKey(cm, key)
    ensures Decide(annotationKey, urls, cm, respond) == Skip
  {
    ParseDirectiveOfJoin(key, rawUrl);
  }

  /**
   * A directive whose key is not yet set issues exactly one request, to the
   * parsed URL with an empty scheme replaced by `https`; the call then
   * writes exactly when the fetch succeeded and otherwise fails with
   * `curl`'s message.
   */
  lemma FetchUsesDefaultScheme(annotationKey: string, urls: UrlLibrary, cm: ConfigMap,
                               respond: string -> FetchOutcome, key: string, rawUrl: string, u: Url)
    requires annotationKey in cm.annotations && cm.annotations[annotationKey] == key + "=" + rawUrl
    requires '=' !in key && '=' !in rawUrl
    requires urls.parse(rawUrl) == Parsed(u)
    requires !HasDataKey(cm, key)
    ensures var target := urls.render(u.(scheme := if u.scheme == "" then "https" else u.scheme));
      var p := Decide(annotationKey, urls, cm, respond);
      && Requests(p) == [target]
      && (p.Write? <==> FetchSucceeded(respond(target)))
      && (!p.Write? ==> p == Fail(Curl(target, respond(target)).1, Some(target)))
  {
    ParseDirectiveOfJoin(key, rawUrl);
  }

  /**
   * A write adds the fetched body under the directive's key, which was not
   * set before; every other key keeps its value, a nil data map becomes the
   * singleton map, and nothing but the data changes.
   */
  lemma WriteAddsOnlyTheKey(annotationKey: string, urls: UrlLibrary, cm: ConfigMap,
                            respond: string -> FetchOutcome, target: string, updated: ConfigMap)
    requires Decide(annotationKey, urls, cm, respond) == Write(target, updated)
    ensures annotationKey in cm.annotations
    ensures var d := ParseDirective(cm.annotations[annotationKey]);
      && d.Some?
      && !HasDataKey(cm, d.value.key)
      && FetchSucceeded(respond(target))
      && updated == cm.(data := Some(DataOf(cm)[d.value.key := respond(target).body.text]))
  {
    var d := ParseDirective(cm.annotations[annotationKey]).value;
    assert DataOf(updated) == DataOf(cm)[d.key := respond(target).body.text];
  }

  /** Reconciling the ConfigMap a successful call wrote is a no-op, whatever the remote side answers then. */
  lemma ReprocessIsNoOp(annotationKey: string, urls: UrlLibrary, cm: ConfigMap,
                        respond: string -> FetchOutcome, respondAgain: string -> FetchOutcome)
    requires Decide(annotationKey, urls, cm, respond).Write?
    ensures Decide(annotationKey, urls, Decide(annotationKey, urls, cm, respond).updated, respondAgain) == Skip
  {
    var updated := Decide(annotationKey, urls, cm, respond).updated;
    var d := ParseDirective(cm.annotations[annotationKey]).value;
    assert updated.annotations == cm.annotations;
    assert HasDataKey(updated, d.key);
  }

  class ConfigMapProcessor {
    const store: Store
    const httpClient: HttpClient
    const annotationKey: string
    const urls: UrlLibrary

    constructor (store: Store, httpClient: HttpClient, annotationKey: string, urls: UrlLibrary)
      ensures this.store == store && this.httpClient == httpClient
      ensures this.annotationKey == annotationKey && this.urls == urls
    {
      this.store := store;
      this.httpClient := httpClient;
      this.annotationKey := annotationKey;
      this.urls := urls;
    }

    /**
     * Reconciles one ConfigMap. The store changes only on a successful
     * update; every failure, including a refused update, returns its
     * message and files exactly one event with that message (unless the
     * event itself is refused, which is only logged).
     */
    method ProcessResource(cm: ConfigMap, nonce: EventNonce) returns (err: Option<string>)
      modifies store, httpClient
      ensures var p := Decide(annotationKey, urls, cm, httpClient.respond);
        && httpClient.requests == old(httpClient.requests) + Requests(p)
        && err == ResultError(p, if p.Write? then old(store.UpdateError(p.updated)) else None)
        && store.configMaps
           == (if p.Write? && err.None? then old(store.configMaps)[KeyOf(p.updated) := p.updated]
               else old(store.configMaps))
        && store.events == old(store.events) + ReportedEvents(err, cm, nonce, store.eventFault)
    {
      var configMap := cm;  // the deep copy; `cm` itself is a value and never changes
      if annotationKey !in configMap.annotations {
        return None;
      }
      var annotation := configMap.annotations[annotationKey];

      var splitAnnotation := Split(annotation, '=');
      if |splitAnnotation| != 2 {
        var e := AddEventLogAndError(FormatMessage(annotation), configMap, nonce);
        return Some(e);
      }

      var key, rawUrl := splitAnnotation[0], splitAnnotation[1];
      var parsed := urls.parse(rawUrl);
      if parsed.ParseError? {
        var e := AddEventLogAndError(InvalidUrlMessage(rawUrl), configMap, nonce);
        return Some(e);
      }
      var u := parsed.url;
      if u.scheme == "" {
        u := u.(scheme := DefaultScheme);
      }

      if configMap.data.Some? && key in configMap.data.value {
        return None;
      }

      var target := urls.render(u);
      var outcome := httpClient.Do(target);
      var (value, errMsg) := Curl(target, outcome);
      if errMsg != "" {
        var e := AddEventLogAndError(errMsg, configMap, nonce);
        return Some(e);
      }

      if configMap.data.None? {
        configMap := configMap.(data := Some(map[key := value]));
      } else {
        configMap := configMap.(data := Some(configMap.data.value[key := value]));
      }

      var updateErr := store.Update(configMap);
      if updateErr.Some? {
        var e := AddEventLogAndError(UpdateFailedMessage(updateErr.value), configMap, nonce);
        return Some(e);
      }
      return None;
    }

    /**
     * Files an error event about `cm` carrying `message` and returns the
     * message as the error; a refused event is only logged.
     */
    method AddEventLogAndError(message: string, cm: ConfigMap, nonce: EventNonce) returns (err: string)
      modifies store
      ensures err == message
      ensures store.configMaps == old(store.configMaps)
      ensures store.events == old(store.events) + ReportedEvents(Some(message), cm, nonce, store.eventFault)
    {
      var event := ErrorEvent(message, cm, nonce);
      var createErr := store.CreateEvent(cm.namespace, event);
      // a refused event is logged and otherwise ignored
      err := message;
    }
  }
}
