/**
  Static-resource resolution for the single-page front end
  (WebConfiguration.ReactResourceResolver). A `null` request path is `None`.
 */
module WebConfig {
  import opened Wrappers

  /** `REACT_DIR`. */
  const ReactDir: string := "/static/"

  /** `REACT_STATIC_DIR`. */
  const ReactStaticDir: string := "static"

  /** `staticExtension`. */
  const StaticExtensions: seq<string> := ["png", "jpg", "io", "json", "js", "html"]

  /** A class-path resource, by path. */
  datatype Resource = ClassPathResource(path: string)

  /** `index`: the front end's entry page. */
  const Index: Resource := ClassPathResource(ReactDir + "index.html")

  /** Whether `resolve` serves the path itself rather than the entry page. */
  predicate IsStaticRequest(path: string) {
    path in StaticExtensions || ReactStaticDir <= path
  }

  /**
    `resolve`: nothing for a null path; the path under "/static/" when it is
    one of the listed words or starts with "static"; the entry page otherwise.
   */
  function Resolve(requestPath: Option<string>): (r: Option<Resource>)
    ensures r.None? <==> requestPath.None?
  {
    match requestPath
    case None => None
    case Some(path) =>
      if IsStaticRequest(path) then Some(ClassPathResource(ReactDir + path)) else Some(Index)
  }

  /**
    A non-null path that is one of the six listed words or starts with
    "static" is served from "/static/"; every other non-null path gets the
    entry page.
   */
  lemma ResolveClassifies(path: string)
    ensures (path in ["png", "jpg", "io", "json", "js", "html"] || "static" <= path) ==>
      Resolve(Some(path)) == Some(ClassPathResource("/static/" + path))
    ensures !(path in ["png", "jpg", "io", "json", "js", "html"] || "static" <= path) ==>
      Resolve(Some(path)) == Some(ClassPathResource("/static/index.html"))
  {
    assert ReactDir + "index.html" == "/static/index.html";
  }

  /** Every resolved resource lies under "/static/": below it stands the request path itself, or the entry page. */
  lemma ResolveStaysUnderStatic(path: string)
    ensures var r := Resolve(Some(path)).value;
      && ReactDir <= r.path
      && (r.path[|ReactDir|..] == path || r == Index)
  {
  }

  /**
    The match is against the whole path, not its extension: "logo.png" is not
    served as a file but answered with the entry page, while "png" and
    "static/logo.png" are served.
   */
  lemma WholePathIsCompared()
    ensures Resolve(Some("logo.png")) == Some(Index)
    ensures Resolve(Some("png")) == Some(ClassPathResource("/static/png"))
    ensures Resolve(Some("static/logo.png")) == Some(ClassPathResource("/static/static/logo.png"))
  {
    assert "logo.png" !in StaticExtensions;
    assert !(ReactStaticDir <= "logo.png") by { assert "logo.png"[0] != ReactStaticDir[0]; }
    assert "png" == StaticExtensions[0];
    assert ReactDir + "png" == "/static/png";
    assert ReactStaticDir <= "static/logo.png" by { assert "static/logo.png"[..6] == ReactStaticDir; }
    assert ReactDir + "static/logo.png" == "/static/static/logo.png";
  }

  /**
    `resolveUrlPath`: null when `resolve` gives null, otherwise the resource's
    location; `locate` stands for "its URL, or its file name when the URL
    cannot be produced".
   */
  function ResolveUrlPath(resourcePath: Option<string>, locate: Resource -> string): (r: Option<string>)
    ensures r.None? <==> Resolve(resourcePath).None?
    ensures r.Some? ==> r.value == locate(Resolve(resourcePath).value)
  {
    match Resolve(resourcePath)
    case None => None
    case Some(resource) => Some(locate(resource))
  }
}
