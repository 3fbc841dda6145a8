# Google Analytics render filter, modelled in Dafny

The Jahia `googleAnalytics` module contributes one render filter,
`GoogleAnalyticsFilter`. For a page of a site whose `webPropertyID` property
is set, it loads a script template (cached on the filter until a template
package is redeployed), runs it through the script engine chosen by the
template's file extension with the property, the page URL, the resource and
the request's `gaMap` bound as variables, and splices whatever the template
wrote in front of the end tag of the page's first `<head>` element. The
result is trimmed as by Java's `String.trim`.

The model has five files:

- `Wrappers.dfy`: `Option` (Java's `null`) and `Result` (a value or the exception that escaped).
- `JavaStrings.dfy`: the string operations the filter uses, with their JDK and commons-lang meaning.
  These are `String.trim`, `StringUtils.isNotEmpty`, `StringUtils.isNotBlank` (through
  `Character.isWhitespace`) and `StringUtils.substringAfterLast`.
- `ScriptContext.dfy`: the inner class `GoogleScriptContext`, whose writer is a `StringWriter` created on first use.
- `Rendering.dfy`: `execute` after the template lookup, as a function of its inputs.
  The inputs are the page, the property, the cache's answer, the parser's head end-tag offsets,
  the node URL, the request attributes, and the script engine and ESI stripper as functions.
  The lemmas beside it state the pass-through paths, the single splice, first-head-only and the final trim.
- `GoogleAnalytics.dfy`: the filter object, a class with the `resolvedTemplate` field.
  It has `GetResolvedTemplate`, `OnApplicationEvent` and an `Execute` method that consults the cache
  only when the property is non-empty. A ghost counter records every read of the template resource,
  so "no re-read while cached" is stated outright. `RenderSnippet` shows that the snippet is exactly
  what the template wrote to its context's writer.

Points worth knowing about what `execute` does:

- A page without a `<head>` element is returned trimmed, not untouched.
- A blank snippet also leaves the page trimmed, not untouched.
- Only an absent or empty property, or a template that cannot be found, is guaranteed to return the page untrimmed; every other successful path returns it trimmed (`ResultShape`).
- The script engine is looked up and run only when the page has a head element.
- If the first head element has no end tag and the snippet is not blank, `execute` dereferences null.
  The model reports this as the failure `NullHeadEndTag` rather than inventing a fallback.

## Model

| member | source | states |
|---|---|---|
| `JavaStrings.Trim` | src/main/java/org/jahia/modules/googleAnalytics/GoogleAnalyticsFilter.java:148 | the result is an infix of the page obtained by dropping only characters at most U+0020 from both ends, and it neither starts nor ends with such a character |
| `JavaStrings.TrimStart` | src/main/java/org/jahia/modules/googleAnalytics/GoogleAnalyticsFilter.java:148 | the leading run that `trim` drops is exactly the maximal prefix of characters at most U+0020 |
| `JavaStrings.TrimEnd` | src/main/java/org/jahia/modules/googleAnalytics/GoogleAnalyticsFilter.java:148 | the trailing run that `trim` drops is exactly the maximal suffix of characters at most U+0020 |
| `JavaStrings.TrimUnique` | src/main/java/org/jahia/modules/googleAnalytics/GoogleAnalyticsFilter.java:148 | any infix that is reached by dropping trimmable characters only and has clean ends is the trim |
| `JavaStrings.TrimIdempotent` | src/main/java/org/jahia/modules/googleAnalytics/GoogleAnalyticsFilter.java:148 | trimming an already trimmed page changes nothing |
| `JavaStrings.TrimOfClean` | src/main/java/org/jahia/modules/googleAnalytics/GoogleAnalyticsFilter.java:148 | a page that starts and ends with visible characters is its own trim |
| `JavaStrings.BlankAndTrimDiffer` | src/main/java/org/jahia/modules/googleAnalytics/GoogleAnalyticsFilter.java:142-148 | the blank test (`Character.isWhitespace`) and the trim test (at most U+0020) differ in both directions: U+0000 is not blank but trims away, U+3000 is blank but survives trimming |
| `JavaStrings.IsNotEmpty` | src/main/java/org/jahia/modules/googleAnalytics/GoogleAnalyticsFilter.java:116 | commons-lang `isNotEmpty`: true exactly when the property is present (not null) and has at least one character; no contract of its own, used by `EvaluatorCall` and `PassThroughWithoutWebPropertyID` |
| `JavaStrings.IsJavaWhitespace` | src/main/java/org/jahia/modules/googleAnalytics/GoogleAnalyticsFilter.java:142 | `Character.isWhitespace`: the controls U+0009..U+000D and U+001C..U+001F and the space, line and paragraph separators other than the no-break spaces; no contract of its own, contrasted with trim in `BlankAndTrimDiffer` |
| `JavaStrings.IsNotBlank` | src/main/java/org/jahia/modules/googleAnalytics/GoogleAnalyticsFilter.java:142 | commons-lang `isNotBlank`: some character is not `Character.isWhitespace`; no contract of its own, used by `BlankSnippetOnlyTrims` and `SnippetInsertedBeforeFirstHeadEnd` |
| `JavaStrings.LastIndexOf` | src/main/java/org/jahia/modules/googleAnalytics/GoogleAnalyticsFilter.java:124 | the `String.lastIndexOf` inside `substringAfterLast`: the index returned holds the separator and no later index does, or it is -1 when none does |
| `JavaStrings.SubstringAfterLast` | src/main/java/org/jahia/modules/googleAnalytics/GoogleAnalyticsFilter.java:124 | the extension is the suffix of the template path after its last '.', holds no '.', and is empty when the path has no '.' |
| `Rendering.EvaluatorCall` | src/main/java/org/jahia/modules/googleAnalytics/GoogleAnalyticsFilter.java:116-135 | an engine is invoked if and only if the property is non-empty, the template resolved and a head exists; it gets the path's extension, the template text, the property, the resource and `gaMap`, and `resourceUrl` is the `analytics-path` attribute when set and the node URL otherwise |
| `Rendering.Replace` | src/main/java/org/jahia/modules/googleAnalytics/GoogleAnalyticsFilter.java:143-148 | one `OutputDocument` replacement keeps the text before `begin` and from `end` on, with the new text in between |
| `Rendering.SpliceBeforeEndTag` | src/main/java/org/jahia/modules/googleAnalytics/GoogleAnalyticsFilter.java:143-144 | replacing the end tag's '<' with newline, snippet, newline, '<' is the same as inserting newline, snippet, newline in front of the end tag |
| `Rendering.Execute` | src/main/java/org/jahia/modules/googleAnalytics/GoogleAnalyticsFilter.java:113-153 | `execute` after the template lookup; no contract of its own: its paths are stated by `PassThroughWithoutWebPropertyID`, `PassThroughWithoutTemplate`, `NoHeadOnlyTrims`, `BlankSnippetOnlyTrims`, `SnippetInsertedBeforeFirstHeadEnd`, `MissingEndTagFails`, `EvaluatorFailurePropagates`, `OnlyFirstHeadUsed`, `EvaluatorConsultedOnlyForCall` and `ResultShape` |
| `Rendering.PassThroughWithoutWebPropertyID` | src/main/java/org/jahia/modules/googleAnalytics/GoogleAnalyticsFilter.java:114-116 | with the property absent or empty the page comes back exactly as given, untrimmed, and no engine is invoked |
| `Rendering.PassThroughWithoutTemplate` | src/main/java/org/jahia/modules/googleAnalytics/GoogleAnalyticsFilter.java:117-118 | when the template cannot be resolved the page comes back exactly as given, untrimmed, and no engine is invoked |
| `Rendering.NoHeadOnlyTrims` | src/main/java/org/jahia/modules/googleAnalytics/GoogleAnalyticsFilter.java:121-122 | a page with no head element comes back trimmed, and no engine is invoked |
| `Rendering.BlankSnippetOnlyTrims` | src/main/java/org/jahia/modules/googleAnalytics/GoogleAnalyticsFilter.java:140-148 | a blank snippet is dropped and the page comes back trimmed |
| `Rendering.SnippetInsertedBeforeFirstHeadEnd` | src/main/java/org/jahia/modules/googleAnalytics/GoogleAnalyticsFilter.java:142-148 | a non-blank snippet, passed through `removeEsiTags`, is inserted between two newlines right before the first head's end tag, and the whole page is trimmed |
| `Rendering.MissingEndTagFails` | src/main/java/org/jahia/modules/googleAnalytics/GoogleAnalyticsFilter.java:123-144 | a first head without an end tag plus a non-blank snippet fails with `NullHeadEndTag` |
| `Rendering.EvaluatorFailurePropagates` | src/main/java/org/jahia/modules/googleAnalytics/GoogleAnalyticsFilter.java:125-139 | a missing engine or a template that throws makes `execute` fail with that same engine error, wrapped as `ScriptFailed` |
| `Rendering.OnlyFirstHeadUsed` | src/main/java/org/jahia/modules/googleAnalytics/GoogleAnalyticsFilter.java:122-146 | the outcome depends on the first head only: any heads after it can be changed without effect |
| `Rendering.EvaluatorConsultedOnlyForCall` | src/main/java/org/jahia/modules/googleAnalytics/GoogleAnalyticsFilter.java:121-139 | the engines matter only through their answer to `EvaluatorCall`; with no call they do not matter at all |
| `Rendering.ResultShape` | src/main/java/org/jahia/modules/googleAnalytics/GoogleAnalyticsFilter.java:113-153 | every successful result is the page untouched, or the trimmed page, or the trimmed page with one insertion before the first head's end tag; every result other than the untouched page is already trimmed |
| `Rendering.SplicePreservesPage` | src/main/java/org/jahia/modules/googleAnalytics/GoogleAnalyticsFilter.java:143-144 | the splice grows the page by the snippet plus two newlines; removing that block gives back the original page, and the end tag's '<' follows the block |
| `Rendering.LaterEndTagsShift` | src/main/java/org/jahia/modules/googleAnalytics/GoogleAnalyticsFilter.java:143-146 | everything from a later end tag (a second head's) onwards is unchanged, only shifted by the inserted block |
| `Rendering.ScriptTagLandsInHead` | src/main/java/org/jahia/modules/googleAnalytics/GoogleAnalyticsFilter.java:113-153 | on `<html><head></head><body></body></html>` with property `UA-123`, a template writing `<script>ga('UA-123')</script>` puts it on its own line inside the head |
| `GoogleAnalytics.AfterEvent` | src/main/java/org/jahia/modules/googleAnalytics/GoogleAnalyticsFilter.java:165-169 | the cache after an event: None after a `TemplatePackageRedeployedEvent`, unchanged after any other; no contract of its own, it is the specification `OnApplicationEvent` meets |
| `GoogleAnalytics.GoogleAnalyticsFilter.constructor` | src/main/java/org/jahia/modules/googleAnalytics/GoogleAnalyticsFilter.java:108-110 | a new filter has its template path set, nothing cached and no reads done |
| `GoogleAnalytics.GoogleAnalyticsFilter.GetResolvedTemplate` | src/main/java/org/jahia/modules/googleAnalytics/GoogleAnalyticsFilter.java:155-163 | a cached template is returned with no read; otherwise exactly one read happens and its result, found or not, becomes the cache, so a failed read is retried next time |
| `GoogleAnalytics.GoogleAnalyticsFilter.OnApplicationEvent` | src/main/java/org/jahia/modules/googleAnalytics/GoogleAnalyticsFilter.java:165-169 | a redeploy event empties the cache (a no-op when already empty); any other event leaves it as it was |
| `GoogleAnalytics.GoogleAnalyticsFilter.Execute` | src/main/java/org/jahia/modules/googleAnalytics/GoogleAnalyticsFilter.java:113-118 | with no usable property the page passes through and the cache and read count are untouched; otherwise the cache is consulted once and the page is rendered from its answer |
| `GoogleAnalytics.RenderSnippet` | src/main/java/org/jahia/modules/googleAnalytics/GoogleAnalyticsFilter.java:126-141 | the snippet read back from the context's writer is exactly what the template wrote to `out`, and an engine error comes back as is |
| `GoogleAnalytics.CachedUntilRedeploy` | src/main/java/org/jahia/modules/googleAnalytics/GoogleAnalyticsFilter.java:155-169 | a second resolve returns the first text even though the resource changed; after a redeploy the next resolve reads the new text, so two reads happen in all |
| `GoogleAnalytics.MissingTemplateRetried` | src/main/java/org/jahia/modules/googleAnalytics/GoogleAnalyticsFilter.java:156-162 | a read that finds nothing is not cached, so the next resolve reads again and gets the current resource: two reads in all |
| `GoogleAnalytics.NoPropertyNoRead` | src/main/java/org/jahia/modules/googleAnalytics/GoogleAnalyticsFilter.java:114-117 | without a property the page passes through and the template resource is read zero times |
| `ScriptContext.StringWriter.constructor` | src/main/java/org/jahia/modules/googleAnalytics/GoogleAnalyticsFilter.java:187 | a new `StringWriter` holds no text |
| `ScriptContext.StringWriter.Write` | src/main/java/org/jahia/modules/googleAnalytics/GoogleAnalyticsFilter.java:138-141 | writing through `out` appends the written text to the buffer and changes nothing else |
| `ScriptContext.GoogleScriptContext.constructor` | src/main/java/org/jahia/modules/googleAnalytics/GoogleAnalyticsFilter.java:178-179 | a new script context has no writer yet |
| `ScriptContext.GoogleScriptContext.GetWriter` | src/main/java/org/jahia/modules/googleAnalytics/GoogleAnalyticsFilter.java:185-190 | the first call allocates a fresh, empty buffer; every later call returns that same buffer and allocates nothing |

## Left out

- The Jericho HTML parse (`Source`, `getAllElements`, `getEndTag`) is replaced by its answer.
  That answer is the begin offset of each head element's end tag in document order, or None when a head has none.
  Each offset is required to lie inside the page and to point at '<', as the parser guarantees.
- The script engine lookup and evaluation are one abstract function from an invocation to the text written or an error.
  The invocation holds the extension, the template text and the bindings.
  The `out` binding is not part of the value: `RenderSnippet` models the writer it wraps.
- `AggregateCacheFilter.removeEsiTags` is an uninterpreted string function.
- `WebUtils.getResourceAsString` is an abstract loader that may return None.
  The `IOException` it may throw is not modelled.
- The JCR site property lookup, the request attribute bag and `resource.getNode().getUrl()` are plain inputs.
  The `analytics-path` attribute is taken to be a string; the `ClassCastException` a non-string value would cause is not modelled.
- A filter whose template path was never set (null) is not modelled: the path is fixed when the filter is built.
- SLF4J logging, the Spring event-bus registration, the setter injection (`setScriptEngineUtils`, `setTemplate`) and the module-installed condition that gates the filter upstream are framework plumbing.
- Concurrent first loads of the template racing on `resolvedTemplate` are not modelled; the model is sequential.
- Characters are Unicode scalar values rather than UTF-16 code units, so surrogate pairs are not distinguished.
