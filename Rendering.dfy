/**
 * What `GoogleAnalyticsFilter.execute` does with a page once the template
 * has been looked up: gate on the site's web property ID and on the
 * template, evaluate the template against its bindings, splice the snippet
 * in front of the first head element's end tag, and trim.
 *
 * The HTML parser, the script engines and the ESI-tag stripper are foreign
 * code. The parser is replaced by its answer (the begin offset of each head
 * element's end tag, in document order, None for a head without one); the
 * engines and the stripper are the functions of a `Collaborators` value.
 */
module Rendering {
  import opened Wrappers
  import opened JavaStrings

  /** The page resource: passed through to the template untouched. */
  datatype ResourceHandle = ResourceHandle(nodePath: string)

  /** The request's `gaMap` attribute: passed through to the template untouched. */
  type GaMap = map<string, string>

  /** The variables the template sees (besides the `out` writer). */
  datatype Bindings = Bindings(
    webPropertyID: string,
    resourceUrl: string,
    resource: ResourceHandle,
    gaMap: Option<GaMap>)

  /** One evaluation: the engine chosen by extension runs `script` over `bindings`. */
  datatype Invocation = Invocation(extension: string, script: string, bindings: Bindings)

  /** The exceptions a script engine lookup or evaluation raises. */
  datatype ScriptError =
    | EvaluatorUnavailable(extension: string)   // no script engine for the extension
    | EvaluationError(message: string)          // the template threw

  /** The exceptions that escape `execute`. */
  datatype Failure =
    | ScriptFailed(error: ScriptError)          // raised by the script engine
    | NullHeadEndTag                            // the first head has no end tag

  /** Everything `execute` reads from the render context, the resource and the parsed page. */
  datatype Request = Request(
    previousOut: string,
    webPropertyID: Option<string>,       // the site's `webPropertyID` property, None if absent
    headEndTags: seq<Option<nat>>,       // per head element, the begin offset of its end tag
    nodeUrl: string,                     // resource.getNode().getUrl()
    analyticsPath: Option<string>,       // the request attribute `analytics-path`
    gaMap: Option<GaMap>,                // the request attribute `gaMap`
    resource: ResourceHandle)

  /**
   * The foreign code `execute` calls. `evaluate` looks up the engine for the
   * invocation's extension, runs the script and yields what it wrote to `out`,
   * or the exception it raised; `removeEsiTags` is `AggregateCacheFilter.removeEsiTags`.
   */
  datatype Collaborators = Collaborators(
    evaluate: Invocation -> Result<string, ScriptError>,
    removeEsiTags: string -> string)

  /** What the parser guarantees: every end tag offset lies in the page and starts with '<'. */
  predicate HeadEndTagsValid(page: string, tags: seq<Option<nat>>) {
    forall i :: 0 <= i < |tags| && tags[i].Some? ==> tags[i].value < |page| && page[tags[i].value] == '<'
  }

  /**
   * The invocation `execute` makes, if any: only when the web property ID is
   * non-empty, the template resolved and the page has a head element. The
   * engine is chosen by the text after the last '.' of the template path, and
   * the `analytics-path` attribute, when set, overrides the node URL.
   */
  function EvaluatorCall(template: string, req: Request, script: Option<string>): (call: Option<Invocation>)
    ensures call.Some? <==> IsNotEmpty(req.webPropertyID) && script.Some? && req.headEndTags != []
    ensures call.Some? ==>
      && call.value.extension == SubstringAfterLast(template, '.')
      && call.value.script == script.value
      && call.value.bindings.webPropertyID == req.webPropertyID.value
      && call.value.bindings.resource == req.resource
      && call.value.bindings.gaMap == req.gaMap
    ensures call.Some? && req.analyticsPath.Some? ==> call.value.bindings.resourceUrl == req.analyticsPath.value
    ensures call.Some? && req.analyticsPath.None? ==> call.value.bindings.resourceUrl == req.nodeUrl
  {
    if IsNotEmpty(req.webPropertyID) && script.Some? && req.headEndTags != [] then
      var url := req.analyticsPath.GetOr(req.nodeUrl);
      Some(Invocation(SubstringAfterLast(template, '.'), script.value,
                      Bindings(req.webPropertyID.value, url, req.resource, req.gaMap)))
    else None
  }

  /** `OutputDocument.replace(begin, end, text)` followed by `toString()`. */
  function Replace(s: string, begin: nat, end: nat, text: string): (r: string)
    requires begin <= end <= |s|
    ensures |r| == |s| - (end - begin) + |text|
    ensures r[..begin] == s[..begin] && r[begin + |text|..] == s[end..]
    ensures r[begin..begin + |text|] == text
  {
    s[..begin] + text + s[end..]
  }

  /**
   * The single edit `execute` makes: the '<' opening the end tag at `b` is
   * replaced by a newline, the snippet, a newline and '<'. Because the
   * replaced character is itself '<', this is a pure insertion in front of
   * the end tag.
   */
  function SpliceBeforeEndTag(page: string, b: nat, snippet: string): (r: string)
    requires b < |page| && page[b] == '<'
    ensures r == page[..b] + "\n" + snippet + "\n" + page[b..]
  {
    var r := Replace(page, b, b + 1, "\n" + snippet + "\n<");
    assert page[b..] == ['<'] + page[b + 1..];
    r
  }

  /** `GoogleAnalyticsFilter.execute`, given the result of `getResolvedTemplate`. */
  function Execute(template: string, req: Request, script: Option<string>, c: Collaborators): (r: Result<string, Failure>)
    requires HeadEndTagsValid(req.previousOut, req.headEndTags)
  {
    var page := req.previousOut;
    match EvaluatorCall(template, req, script)
    case None =>
      if IsNotEmpty(req.webPropertyID) && script.Some? then Success(Trim(page))  // no head element
      else Success(page)
    case Some(call) =>
      match c.evaluate(call)
      case Failure(e) => Failure(ScriptFailed(e))
      case Success(snippet) =>
        if !IsNotBlank(snippet) then Success(Trim(page))
        else match req.headEndTags[0]
          case None => Failure(NullHeadEndTag)
          case Some(b) => Success(Trim(SpliceBeforeEndTag(page, b, c.removeEsiTags(snippet))))
  }

  // ------------------------------------------------------------ properties

  /** An absent or empty web property ID leaves the page exactly as it was, untrimmed, and runs no template. */
  lemma PassThroughWithoutWebPropertyID(template: string, req: Request, script: Option<string>, c: Collaborators)
    requires HeadEndTagsValid(req.previousOut, req.headEndTags)
    requires req.webPropertyID.None? || req.webPropertyID.value == ""
    ensures Execute(template, req, script, c) == Success(req.previousOut)
    ensures EvaluatorCall(template, req, script) == None
  {
  }

  /** An unresolvable template leaves the page exactly as it was, untrimmed. */
  lemma PassThroughWithoutTemplate(template: string, req: Request, c: Collaborators)
    requires HeadEndTagsValid(req.previousOut, req.headEndTags)
    ensures Execute(template, req, None, c) == Success(req.previousOut)
    ensures EvaluatorCall(template, req, None) == None
  {
  }

  /** A page without a head element comes back trimmed, and no script engine is used. */
  lemma NoHeadOnlyTrims(template: string, req: Request, script: string, c: Collaborators)
    requires IsNotEmpty(req.webPropertyID) && req.headEndTags == []
    ensures Execute(template, req, Some(script), c) == Success(Trim(req.previousOut))
    ensures EvaluatorCall(template, req, Some(script)) == None
  {
  }

  /** A blank snippet is dropped: the page comes back trimmed and otherwise unchanged. */
  lemma BlankSnippetOnlyTrims(template: string, req: Request, script: string, c: Collaborators, snippet: string)
    requires HeadEndTagsValid(req.previousOut, req.headEndTags)
    requires IsNotEmpty(req.webPropertyID) && req.headEndTags != []
    requires c.evaluate(EvaluatorCall(template, req, Some(script)).value) == Success(snippet)
    requires !IsNotBlank(snippet)
    ensures Execute(template, req, Some(script), c) == Success(Trim(req.previousOut))
  {
  }

  /**
   * A non-blank snippet, stripped of ESI tags, is inserted between two
   * newlines right before the first head's end tag, and the whole page is
   * then trimmed.
   */
  lemma SnippetInsertedBeforeFirstHeadEnd(template: string, req: Request, script: string, c: Collaborators, snippet: string, b: nat)
    requires HeadEndTagsValid(req.previousOut, req.headEndTags)
    requires IsNotEmpty(req.webPropertyID) && req.headEndTags != [] && req.headEndTags[0] == Some(b)
    requires c.evaluate(EvaluatorCall(template, req, Some(script)).value) == Success(snippet)
    requires IsNotBlank(snippet)
    ensures b < |req.previousOut|
    ensures Execute(template, req, Some(script), c) ==
      Success(Trim(req.previousOut[..b] + "\n" + c.removeEsiTags(snippet) + "\n" + req.previousOut[b..]))
  {
  }

  /** A first head without an end tag makes a non-blank snippet fail, as the source's null dereference does. */
  lemma MissingEndTagFails(template: string, req: Request, script: string, c: Collaborators, snippet: string)
    requires HeadEndTagsValid(req.previousOut, req.headEndTags)
    requires IsNotEmpty(req.webPropertyID) && req.headEndTags != [] && req.headEndTags[0] == None
    requires c.evaluate(EvaluatorCall(template, req, Some(script)).value) == Success(snippet)
    requires IsNotBlank(snippet)
    ensures Execute(template, req, Some(script), c) == Failure(NullHeadEndTag)
  {
  }

  /** Engine lookup and evaluation failures escape `execute` unchanged. */
  lemma EvaluatorFailurePropagates(template: string, req: Request, script: string, c: Collaborators, e: ScriptError)
    requires HeadEndTagsValid(req.previousOut, req.headEndTags)
    requires EvaluatorCall(template, req, Some(script)).Some?
    requires c.evaluate(EvaluatorCall(template, req, Some(script)).value) == Failure(e)
    ensures Execute(template, req, Some(script), c) == Failure(ScriptFailed(e))
  {
  }

  /** Only the first head element matters: the heads after it never change the outcome. */
  lemma OnlyFirstHeadUsed(template: string, req: Request, tags: seq<Option<nat>>, script: Option<string>, c: Collaborators)
    requires HeadEndTagsValid(req.previousOut, req.headEndTags) && HeadEndTagsValid(req.previousOut, tags)
    requires req.headEndTags != [] && tags != [] && tags[0] == req.headEndTags[0]
    ensures Execute(template, req.(headEndTags := tags), script, c) == Execute(template, req, script, c)
  {
  }

  /** The engines are consulted for `EvaluatorCall` only: with no call, they do not matter at all. */
  lemma EvaluatorConsultedOnlyForCall(template: string, req: Request, script: Option<string>, c: Collaborators, d: Collaborators)
    requires HeadEndTagsValid(req.previousOut, req.headEndTags)
    requires c.removeEsiTags == d.removeEsiTags
    requires EvaluatorCall(template, req, script).Some? ==>
      c.evaluate(EvaluatorCall(template, req, script).value) == d.evaluate(EvaluatorCall(template, req, script).value)
    ensures Execute(template, req, script, c) == Execute(template, req, script, d)
  {
  }

  /**
   * At most one edit: every successful result is the page itself, or the
   * trimmed page, or the trimmed page with one snippet inserted before the
   * end tag of the first head; and apart from the untouched pass-through
   * the result is already trimmed.
   */
  lemma ResultShape(template: string, req: Request, script: Option<string>, c: Collaborators, out: string)
    requires HeadEndTagsValid(req.previousOut, req.headEndTags)
    requires Execute(template, req, script, c) == Success(out)
    ensures out == req.previousOut || Trim(out) == out
    ensures out == req.previousOut || out == Trim(req.previousOut) ||
      (req.headEndTags != [] && req.headEndTags[0].Some? &&
       exists x :: out == Trim(SpliceBeforeEndTag(req.previousOut, req.headEndTags[0].value, x)))
  {
    var page := req.previousOut;
    if out != page {
      if out == Trim(page) {
        TrimIdempotent(page);
      } else {
        var call := EvaluatorCall(template, req, script).value;
        var snippet := c.evaluate(call).value;
        var b := req.headEndTags[0].value;
        var x := c.removeEsiTags(snippet);
        var spliced := SpliceBeforeEndTag(page, b, x);
        assert out == Trim(spliced);
        TrimIdempotent(spliced);
      }
    }
  }

  /**
   * The splice keeps every character of the page in order: removing the
   * inserted block gives the page back, the block sits right after the
   * characters before the end tag, and the end tag follows it.
   */
  lemma SplicePreservesPage(page: string, b: nat, snippet: string)
    requires b < |page| && page[b] == '<'
    ensures var r := SpliceBeforeEndTag(page, b, snippet);
      && |r| == |page| + |snippet| + 2
      && r[..b] + r[b + |snippet| + 2..] == page
      && r[b..b + |snippet| + 2] == "\n" + snippet + "\n"
      && r[b + |snippet| + 2] == '<'
  {
    var r := SpliceBeforeEndTag(page, b, snippet);
    var n := |snippet| + 2;
    assert r[..b] == page[..b];
    assert r[b + n..] == page[b..];
    assert page[..b] + page[b..] == page;
  }

  /**
   * An end tag further down the page (the second head's, say) is still there
   * after the splice, shifted by the length of the inserted block.
   */
  lemma LaterEndTagsShift(page: string, b: nat, snippet: string, later: nat)
    requires b < |page| && page[b] == '<' && b <= later < |page|
    ensures var r := SpliceBeforeEndTag(page, b, snippet);
      later + |snippet| + 2 < |r| && r[later + |snippet| + 2..] == page[later..]
  {
    var r := SpliceBeforeEndTag(page, b, snippet);
    SplicePreservesPage(page, b, snippet);
    assert r[b + |snippet| + 2..] == page[b..];
    assert r[later + |snippet| + 2..] == r[b + |snippet| + 2..][later - b..];
  }

  /** The splice and trim of the worked page below, on concrete strings. */
  lemma ScriptTagSplice()
    ensures var page := "<html><head></head><body></body></html>";
      page[12] == '<' &&
      Trim(SpliceBeforeEndTag(page, 12, "<script>ga('UA-123')</script>")) ==
        "<html><head>" + "\n" + "<script>ga('UA-123')</script>" + "\n" + "</head><body></body></html>"
  {
    var page := "<html><head></head><body></body></html>";
    var expected := "<html><head>" + "\n" + "<script>ga('UA-123')</script>" + "\n" + "</head><body></body></html>";
    assert page[..12] == "<html><head>" && page[12..] == "</head><body></body></html>";
    TrimOfClean(expected);
  }

  /**
   * A worked page: with web property ID "UA-123" and a template that writes
   * one script tag (free of ESI tags), the tag lands on its own line inside
   * the head and the rest of the page is unchanged.
   */
  lemma ScriptTagLandsInHead(template: string, script: string, c: Collaborators)
    requires forall call :: c.evaluate(call) == Success("<script>ga('UA-123')</script>")
    requires c.removeEsiTags("<script>ga('UA-123')</script>") == "<script>ga('UA-123')</script>"
    ensures var req := Request("<html><head></head><body></body></html>", Some("UA-123"), [Some(12)],
                               "/sites/demo/home.html", None, None, ResourceHandle("/sites/demo/home"));
      Execute(template, req, Some(script), c) ==
        Success("<html><head>" + "\n" + "<script>ga('UA-123')</script>" + "\n" + "</head><body></body></html>")
  {
    var tag := "<script>ga('UA-123')</script>";
    var req := Request("<html><head></head><body></body></html>", Some("UA-123"), [Some(12)],
                       "/sites/demo/home.html", None, None, ResourceHandle("/sites/demo/home"));
    ScriptTagSplice();
    assert IsNotBlank(tag) by { assert !IsJavaWhitespace(tag[0]); }
    SnippetInsertedBeforeFirstHeadEnd(template, req, script, c, tag, 12);
  }
}
