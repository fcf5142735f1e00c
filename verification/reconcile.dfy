/**
 * What the two reconcile variants share: the `key=url` directive split and
 * the shape of a reconcile's outcome.
 */
module Reconcile {
  import opened Options
  import opened Strings
  import opened Kube

  /** A well-formed directive: the data key to fill and the URL to fetch. */
  datatype Directive = Directive(key: string, url: string)

  /**
   * Splits an annotation value on `=`; it is well formed when the split
   * gives exactly two pieces, that is, when it holds exactly one `=`.
   * Either piece may be empty.
   */
  function ParseDirective(annotation: string): (d: Option<Directive>)
    ensures d.Some? <==> Count(annotation, '=') == 1
    ensures d.Some? ==> d.value.key + "=" + d.value.url == annotation
    ensures d.Some? ==> '=' !in d.value.key && '=' !in d.value.url
  {
    var parts := Split(annotation, '=');
    JoinSplit(annotation, '=');
    if |parts| != 2 then None
    else
      assert Join(parts, '=') == parts[0] + "=" + parts[1];
      Some(Directive(parts[0], parts[1]))
  }

  /** The split is the only one: a key and URL free of `=` are recovered from their join. */
  lemma ParseDirectiveOfJoin(key: string, url: string)
    requires '=' !in key && '=' !in url
    ensures ParseDirective(key + "=" + url) == Some(Directive(key, url))
  {
    SplitJoin([key, url], '=');
    assert Join([key, url], '=') == key + "=" + url;
  }

  /** Neither piece has to be non-empty: `=url` and `key=` are both accepted. */
  lemma EmptyPiecesAccepted(s: string)
    requires '=' !in s
    ensures ParseDirective("=" + s) == Some(Directive("", s))
    ensures ParseDirective(s + "=") == Some(Directive(s, ""))
  {
    ParseDirectiveOfJoin("", s);
    assert "" + "=" + s == "=" + s;
    ParseDirectiveOfJoin(s, "");
    assert s + "=" + "" == s + "=";
  }

  /**
   * The decision a reconcile reaches for one ConfigMap: nothing to do, a
   * failure with its message (and the URL fetched on the way, if any), or
   * the updated ConfigMap to write back (and the URL fetched for it).
   */
  datatype Plan =
    | Skip
    | Fail(message: string, request: Option<string>)
    | Write(target: string, updated: ConfigMap)

  /** The HTTP requests a plan was reached with. */
  function Requests(p: Plan): (urls: seq<string>)
    ensures |urls| <= 1
  {
    match p
    case Skip => []
    case Fail(_, request) => if request.Some? then [request.value] else []
    case Write(target, _) => [target]
  }
}
