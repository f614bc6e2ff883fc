/** Context names and context paths (`src/contextName.ts`). */
module ContextName {

  import opened Utils

  /** The `context` argument of the entry points: a short context name or
      an explicit path of context names. */
  datatype ContextRef = Named(name: string) | Explicit(path: seq<string>)

  /** The short names that resolve to a path rooted at `main`. */
  const KnownNames: set<string> := {"main", "server", "location", "http", "mail", "stream"}

  /** `contextNameToPath(contextName)`: the ancestor chain of a short context
      name. `server` can sit in `http`, `mail` or `stream`, so its parent is
      the placeholder `unknown`; every other name, `events` included, falls
      back to `['unknown']`. */
  function ContextNameToPath(name: string): (p: seq<string>)
    ensures 1 <= |p| <= 3
    ensures name in KnownNames ==> p[0] == "main" && p[|p| - 1] == name
    ensures name !in KnownNames ==> p == ["unknown"]
  {
    match name
    case "main" => ["main"]
    case "server" => ["main", "unknown", "server"]
    case "location" => ["main", "http", "location"]
    case "http" => ["main", name]
    case "mail" => ["main", name]
    case "stream" => ["main", name]
    case _ => ["unknown"]
  }

  /** `isString(context) ? contextNameToPath(context) : context` */
  function ResolvePath(context: ContextRef): (p: seq<string>)
    ensures context.Explicit? ==> p == context.path
    ensures context.Named? ==> |p| >= 1
  {
    match context
    case Named(name) => ContextNameToPath(name)
    case Explicit(path) => path
  }

  /** `const [path, [name]] = splitAt(contextPath, -1)`: the parent path and
      the name of the top-level context. For an empty explicit path the name
      is `undefined` in the source; the model uses the empty string. */
  function SplitRoot(contextPath: seq<string>): (r: (seq<string>, string))
    ensures |contextPath| > 0 ==> r.0 + [r.1] == contextPath
    ensures |contextPath| == 0 ==> r == ([], "")
  {
    var parts := SplitAt(contextPath, -1);
    if |parts.1| == 0 then (parts.0, "") else (parts.0, parts.1[0])
  }

  lemma ContextNameExamples()
    ensures ContextNameToPath("main") == ["main"]
    ensures ContextNameToPath("server") == ["main", "unknown", "server"]
    ensures ContextNameToPath("location") == ["main", "http", "location"]
    ensures ContextNameToPath("http") == ["main", "http"]
    ensures ContextNameToPath("mail") == ["main", "mail"]
    ensures ContextNameToPath("stream") == ["main", "stream"]
    ensures ContextNameToPath("events") == ["unknown"]
    ensures ContextNameToPath("unknown") == ["unknown"]
  {
  }
}
