/**
 * The script context the filter hands to the script engine: a context whose
 * writer is a string buffer created on first request.
 */
module ScriptContext {

  /** A `java.io.StringWriter`: a growable character buffer. */
  class StringWriter {
    var text: string

    constructor ()
      ensures text == ""
    {
      text := "";
    }

    /** Appends `s` to the buffer. */
    method Write(s: string)
      modifies this
      ensures text == old(text) + s
    {
      text := text + s;
    }
  }

  /** `GoogleAnalyticsFilter.GoogleScriptContext`: its writer starts out null. */
  class GoogleScriptContext {
    var writer: StringWriter?

    constructor ()
      ensures writer == null
    {
      writer := null;
    }

    /**
     * `getWriter`: the first call allocates an empty buffer and keeps it;
     * every call returns the kept buffer, so a second call never allocates.
     */
    method GetWriter() returns (w: StringWriter)
      modifies this
      ensures old(writer) != null ==> w == old(writer)
      ensures old(writer) == null ==> fresh(w) && w.text == ""
      ensures writer == w
    {
      if writer == null {
        writer := new StringWriter();
      }
      w := writer;
    }
  }
}
