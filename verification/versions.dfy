/**
 * How the two reconcile variants relate: their `curl` functions classify a
 * fetch identically, and their decisions coincide on every ConfigMap whose
 * URL already names its scheme and renders back to itself; they part ways
 * on malformed annotations.
 */
module Versions {
  import opened Options
  import opened Strings
  import opened Urls
  import opened Http
  import opened Kube
  import opened Reconcile
  import Processor
  import Controller

  /** Both `curl` functions give the same value, succeed together, and fail with the same message. */
  lemma CurlVersionsAgree(url: string, outcome: FetchOutcome)
    ensures Processor.Curl(url, outcome).0 == Controller.Curl(url, outcome).0
    ensures Processor.Curl(url, outcome).1 == "" <==> Controller.Curl(url, outcome).1.None?
    ensures Controller.Curl(url, outcome).1.Some?
            ==> Controller.Curl(url, outcome).1.value == Processor.Curl(url, outcome).1
  {
  }

  /**
   * When the URL piece parses to a URL with a scheme that renders back to
   * the same text, the processor decides exactly as the controller does.
   */
  lemma VersionsAgreeOnExplicitUrls(annotationKey: string, urls: UrlLibrary, cm: ConfigMap,
                                    respond: string -> FetchOutcome, key: string, url: string, u: Url)
    requires annotationKey in cm.annotations && cm.annotations[annotationKey] == key + "=" + url
    requires '=' !in key && '=' !in url
    requires urls.parse(url) == Parsed(u) && u.scheme != "" && urls.render(u) == url
    ensures Processor.Decide(annotationKey, urls, cm, respond) == Controller.Decide(annotationKey, cm, respond)
  {
    ParseDirectiveOfJoin(key, url);
    CurlVersionsAgree(url, respond(url));
  }

  /** A malformed annotation is an error for the processor and silently skipped by the controller. */
  lemma MalformedAnnotationDiverges(annotationKey: string, urls: UrlLibrary, cm: ConfigMap,
                                    respond: string -> FetchOutcome)
    requires annotationKey in cm.annotations
    requires Count(cm.annotations[annotationKey], '=') != 1
    ensures Processor.Decide(annotationKey, urls, cm, respond)
            == Fail(Processor.FormatMessage(cm.annotations[annotationKey]), None)
    ensures Controller.Decide(annotationKey, cm, respond) == Skip
  {
  }
}
