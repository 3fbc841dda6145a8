/**
 * The filter object: its lazily loaded, redeploy-invalidated template cache,
 * the `execute` entry point that consults it, and the capture of a template's
 * output through the script context's writer.
 */
module GoogleAnalytics {
  import opened Wrappers
  import opened JavaStrings
  import opened Rendering
  import opened ScriptContext

  /** The Spring application events the filter listens to. */
  datatype ApplicationEvent =
    | TemplatePackageRedeployed
    | OtherEvent(name: string)

  /**
   * The template cache a redeploy leaves behind: cleared by a
   * `TemplatePackageRedeployedEvent`, untouched by any other event.
   */
  function AfterEvent(cached: Option<string>, event: ApplicationEvent): (after: Option<string>) {
    if event.TemplatePackageRedeployed? then None else cached
  }

  class GoogleAnalyticsFilter {
    /** Path of the template resource; its extension selects the script engine. */
    const template: string
    /** The template text, None until a load succeeds and after a redeploy. */
    var resolvedTemplate: Option<string>
    /** How many times the template resource has been read. */
    ghost var loads: nat

    constructor (template: string)
      ensures this.template == template && resolvedTemplate == None && loads == 0
    {
      this.template := template;
      resolvedTemplate := None;
      loads := 0;
    }

    /**
     * `getResolvedTemplate`: a cached template is returned without reading
     * the resource; otherwise the resource is read through `load` (None when
     * it cannot be found) and whatever came back is what is now cached, so a
     * failed read is retried on the next call.
     */
    method GetResolvedTemplate(load: string -> Option<string>) returns (script: Option<string>)
      modifies this`resolvedTemplate, this`loads
      ensures old(resolvedTemplate).Some? ==> script == old(resolvedTemplate) && loads == old(loads)
      ensures old(resolvedTemplate).None? ==> script == load(template) && loads == old(loads) + 1
      ensures resolvedTemplate == script
    {
      if resolvedTemplate.None? {
        resolvedTemplate := load(template);
        loads := loads + 1;
      }
      script := resolvedTemplate;
    }

    /** `onApplicationEvent`: a redeploy drops the cached template; other events do nothing. */
    method OnApplicationEvent(event: ApplicationEvent)
      modifies this`resolvedTemplate
      ensures resolvedTemplate == AfterEvent(old(resolvedTemplate), event)
    {
      if event.TemplatePackageRedeployed? {
        resolvedTemplate := None;
      }
    }

    /**
     * `execute`: the template is resolved only when the web property ID is
     * non-empty; the page is then rendered from whatever the cache yielded.
     */
    method Execute(req: Request, c: Collaborators, load: string -> Option<string>) returns (r: Result<string, Failure>)
      requires HeadEndTagsValid(req.previousOut, req.headEndTags)
      modifies this`resolvedTemplate, this`loads
      ensures !IsNotEmpty(req.webPropertyID) ==>
        r == Success(req.previousOut) && resolvedTemplate == old(resolvedTemplate) && loads == old(loads)
      ensures IsNotEmpty(req.webPropertyID) ==>
        && resolvedTemplate == (if old(resolvedTemplate).Some? then old(resolvedTemplate) else load(template))
        && loads == (if old(resolvedTemplate).Some? then old(loads) else old(loads) + 1)
        && r == Rendering.Execute(template, req, resolvedTemplate, c)
    {
      if !IsNotEmpty(req.webPropertyID) {
        r := Success(req.previousOut);
      } else {
        var script := GetResolvedTemplate(load);
        r := Rendering.Execute(template, req, script, c);
      }
    }
  }

  /**
   * The part of `execute` that builds the script context, runs the engine and
   * reads the writer back: the template runs in a fresh script context,
   * writing to the writer bound as `out`; the snippet is read back from the
   * context's writer. Because `GetWriter` hands out one buffer per context,
   * the snippet is exactly what the template wrote.
   */
  method RenderSnippet(call: Invocation, evaluate: Invocation -> Result<string, ScriptError>) returns (r: Result<string, ScriptError>)
    ensures r == evaluate(call)
  {
    var context := new GoogleScriptContext();
    var out := context.GetWriter();
    match evaluate(call)
    case Failure(e) =>
      r := Failure(e);
    case Success(written) =>
      out.Write(written);
      var writer := context.GetWriter();
      assert writer == out;
      assert out.text == written;
      r := Success(writer.text);
  }

  /**
   * The resource is read once and then served from the cache even if the
   * resource has changed since; a redeploy makes the next call read it again.
   */
  method CachedUntilRedeploy(template: string, before: string -> Option<string>, after: string -> Option<string>)
    returns (first: Option<string>, second: Option<string>, third: Option<string>, ghost readCount: nat)
    requires before(template).Some?
    ensures first == second == before(template)
    ensures third == after(template)
    ensures readCount == 2
  {
    var filter := new GoogleAnalyticsFilter(template);
    first := filter.GetResolvedTemplate(before);
    second := filter.GetResolvedTemplate(after);
    assert filter.loads == 1;
    filter.OnApplicationEvent(TemplatePackageRedeployed);
    third := filter.GetResolvedTemplate(after);
    readCount := filter.loads;
  }

  /** A read that finds nothing is not cached: the next call reads again. */
  method MissingTemplateRetried(template: string, before: string -> Option<string>, after: string -> Option<string>)
    returns (first: Option<string>, second: Option<string>, ghost readCount: nat)
    requires before(template).None?
    ensures first == None && second == after(template)
    ensures readCount == 2
  {
    var filter := new GoogleAnalyticsFilter(template);
    first := filter.GetResolvedTemplate(before);
    second := filter.GetResolvedTemplate(after);
    readCount := filter.loads;
  }

  /** An absent web property ID never touches the cache or reads the resource. */
  method NoPropertyNoRead(template: string, req: Request, c: Collaborators, load: string -> Option<string>)
    returns (r: Result<string, Failure>, ghost readCount: nat)
    requires HeadEndTagsValid(req.previousOut, req.headEndTags) && req.webPropertyID.None?
    ensures r == Success(req.previousOut)
    ensures readCount == 0
  {
    var filter := new GoogleAnalyticsFilter(template);
    r := filter.Execute(req, c, load);
    assert filter.resolvedTemplate == None;
    readCount := filter.loads;
  }
}
