/**
 * The older reconcile step (package `controller`): a malformed annotation
 * is skipped silently, the URL piece is fetched exactly as written, no
 * events are filed, and a refused update is ignored.
 */
module Controller {
  import opened Options
  import opened Strings
  import opened Http
  import opened Kube
  import opened Reconcile

  /**
   * `curl`: classifies a fetch of `url`, checking in turn for a transport
   * error, a status other than 200, a missing body and a read error. The
   * result is (value, error); `None` means success.
   */
  function Curl(url: string, outcome: FetchOutcome): (result: (string, Option<string>))
    ensures result.1.None? <==> outcome.Response? && outcome.status == StatusOK && outcome.body.Content?
    ensures result.1.None? ==> result.0 == outcome.body.text
    ensures result.1.Some? ==> result.0 == "" && result.1.value != ""
    ensures outcome.TransportError?
            ==> result.1 == Some("failed to curl " + url + ", got error: " + outcome.error)
    ensures outcome.Response? && outcome.status != StatusOK
            ==> result.1 == Some("failed to curl " + url + ", got status code: " + DecimalString(outcome.status))
    ensures outcome.Response? && outcome.status == StatusOK && outcome.body.NoBody?
            ==> result.1 == Some("empty response body from " + url)
    ensures outcome.Response? && outcome.status == StatusOK && outcome.body.ReadError?
            ==> result.1 == Some("failed to read response body: " + outcome.body.error)
  {
    match outcome
    case TransportError(e) =>
      ("", Some("failed to curl " + url + ", got error: " + e))
    case Response(status, body) =>
      if status != StatusOK then
        ("", Some("failed to curl " + url + ", got status code: " + DecimalString(status)))
      else
        match body
        case NoBody => ("", Some("empty response body from " + url))
        case ReadError(e) => ("", Some("failed to read response body: " + e))
        case Content(text) => (text, None)
  }

  /**
   * What `ProcessItem` decides for `cm`: skip when the annotation is absent,
   * malformed, or names a data key already set; fail with `curl`'s error;
   * otherwise write the fetched body under the key.
   */
  function Decide(annotationKey: string, cm: ConfigMap, respond: string -> FetchOutcome): (p: Plan)
    ensures annotationKey !in cm.annotations ==> p == Skip
    ensures p.Fail? ==> p.message != "" && p.request.Some?
  {
    if annotationKey !in cm.annotations then Skip
    else
      match ParseDirective(cm.annotations[annotationKey])
      case None => Skip
      case Some(Directive(key, url)) =>
        if HasDataKey(cm, key) then Skip
        else
          var (value, err) := Curl(url, respond(url));
          if err.Some? then Fail(err.value, Some(url))
          else Write(url, WithData(cm, key, value))
  }

  /** An annotation without exactly one `=` is skipped: no request, no write, no error. */
  lemma MalformedAnnotationSkips(annotationKey: string, cm: ConfigMap, respond: string -> FetchOutcome)
    requires annotationKey in cm.annotations
    requires Count(cm.annotations[annotationKey], '=') != 1
    ensures Decide(annotationKey, cm, respond) == Skip
  {
  }

  /** A directive whose data key is already set is a no-op, with no request. */
  lemma PresentKeySkips(annotationKey: string, cm: ConfigMap, respond: string -> FetchOutcome,
                        key: string, url: string)
    requires annotationKey in cm.annotations && cm.annotations[annotationKey] == key + "=" + url
    requires '=' !in key && '=' !in url
    requires HasDataKey(cm, key)
    ensures Decide(annotationKey, cm, respond) == Skip
  {
    ParseDirectiveOfJoin(key, url);
  }

  /**
   * A directive whose key is not yet set requests the URL piece verbatim,
   * once; it writes exactly when the fetch succeeded and otherwise fails
   * with `curl`'s error unchanged.
   */
  lemma FetchesUrlVerbatim(annotationKey: string, cm: ConfigMap, respond: string -> FetchOutcome,
                           key: string, url: string)
    requires annotationKey in cm.annotations && cm.annotations[annotationKey] == key + "=" + url
    requires '=' !in key && '=' !in url
    requires !HasDataKey(cm, key)
    ensures var p := Decide(annotationKey, cm, respond);
      && Requests(p) == [url]
      && (p.Write? <==> Curl(url, respond(url)).1.None?)
      && (!p.Write? ==> p == Fail(Curl(url, respond(url)).1.value, Some(url)))
  {
    ParseDirectiveOfJoin(key, url);
  }

  /**
   * A write adds the fetched body under the directive's key, which was not
   * set before; every other key keeps its value, a nil data map becomes the
   * singleton map, and nothing but the data changes.
   */
  lemma WriteAddsOnlyTheKey(annotationKey: string, cm: ConfigMap, respond: string -> FetchOutcome,
                            target: string, updated: ConfigMap)
    requires Decide(annotationKey, cm, respond) == Write(target, updated)
    ensures annotationKey in cm.annotations
    ensures var d := ParseDirective(cm.annotations[annotationKey]);
      && d.Some?
      && target == d.value.url
      && !HasDataKey(cm, d.value.key)
      && respond(target).Response? && respond(target).status == StatusOK
      && respond(target).body.Content?
      && updated == cm.(data := Some(DataOf(cm)[d.value.key := respond(target).body.text]))
  {
    var d := ParseDirective(cm.annotations[annotationKey]).value;
    assert DataOf(updated) == DataOf(cm)[d.key := respond(target).body.text];
  }

  /** Reconciling the ConfigMap a successful call wrote is a no-op, whatever the remote side answers then. */
  lemma ReprocessIsNoOp(annotationKey: string, cm: ConfigMap,
                        respond: string -> FetchOutcome, respondAgain: string -> FetchOutcome)
    requires Decide(annotationKey, cm, respond).Write?
    ensures Decide(annotationKey, Decide(annotationKey, cm, respond).updated, respondAgain) == Skip
  {
    var updated := Decide(annotationKey, cm, respond).updated;
    var d := ParseDirective(cm.annotations[annotationKey]).value;
    assert updated.annotations == cm.annotations;
    assert HasDataKey(updated, d.key);
  }

  class ConfigMapController {
    const store: Store
    const httpClient: HttpClient
    const annotationKey: string

    constructor (store: Store, httpClient: HttpClient, annotationKey: string)
      ensures this.store == store && this.httpClient == httpClient
      ensures this.annotationKey == annotationKey
    {
      this.store := store;
      this.httpClient := httpClient;
      this.annotationKey := annotationKey;
    }

    /**
     * Reconciles one ConfigMap. Only a fetch failure is returned; the store
     * changes only when the update is accepted, and a refused update still
     * returns no error. No events are filed.
     */
    method ProcessItem(cm: ConfigMap) returns (err: Option<string>)
      modifies store, httpClient
      ensures var p := Decide(annotationKey, cm, httpClient.respond);
        && httpClient.requests == old(httpClient.requests) + Requests(p)
        && err == (if p.Fail? then Some(p.message) else None)
        && store.configMaps
           == (if p.Write? && old(store.UpdateError(p.updated)).None?
               then old(store.configMaps)[KeyOf(p.updated) := p.updated]
               else old(store.configMaps))
        && store.events == old(store.events)
    {
      var configMap := cm;  // the deep copy; `cm` itself is a value and never changes
      if annotationKey !in configMap.annotations {
        return None;
      }
      var annotation := configMap.annotations[annotationKey];

      var splitAnnotation := Split(annotation, '=');
      if |splitAnnotation| != 2 {
        return None;
      }

      var key, url := splitAnnotation[0], splitAnnotation[1];

      if configMap.data.Some? && key in configMap.data.value {
        return None;
      }

      var outcome := httpClient.Do(url);
      var (value, curlErr) := Curl(url, outcome);
      if curlErr.Some? {
        return curlErr;
      }

      if configMap.data.None? {
        configMap := configMap.(data := Some(map[key := value]));
      } else {
        configMap := configMap.(data := Some(configMap.data.value[key := value]));
      }

      var updateErr := store.Update(configMap);
      // a refused update is ignored
      return None;
    }
  }
}
