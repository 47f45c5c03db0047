/**
 * Links from the client into the external questionnaire application (GGRCQ): the
 * URL builder every link goes through, the mapping and creation links, and the
 * path and model names used for external directives.
 *
 * JavaScript values that may be `undefined` are `Option<string>`: `None` is
 * `undefined`, and a template literal renders it as the text "undefined".
 */
module GgrcqUtils {
  import opened Wrappers
  import opened Strings

  type JsStr = Option<string>

  /** JavaScript truthiness of a string value: neither `undefined` nor empty. */
  predicate Truthy(s: JsStr)
  {
    s.Some? && s.value != ""
  }

  /** A value interpolated into a template literal. */
  function Render(s: JsStr): string
  {
    if s.Some? then s.value else "undefined"
  }

  /** The static fields of a model class. */
  datatype ModelInfo = ModelInfo(modelSingular: string, tablePlural: JsStr, tableSingular: JsStr, rootObject: JsStr)

  /** A model instance: its class and its slug. */
  datatype InstanceRef = InstanceRef(model: ModelInfo, slug: JsStr)

  /** The model-type collections the helpers classify by. */
  datatype Collections = Collections(externalBusiness: set<string>, externalDirectives: set<string>, scoping: set<string>)

  // ---------------------------------------------------------------------------
  // getUrl

  /** The integration URL with a trailing slash added when it has none. */
  function UrlBase(url: string): (r: string)
    ensures EndsWith(r, "/") && StartsWith(r, url)
    ensures EndsWith(url, "/") ==> r == url
    ensures !EndsWith(url, "/") ==> r == url + "/"
  {
    if EndsWith(url, "/") then url else url + "/"
  }

  /** The lower-cased path, or nothing. */
  function PathPart(path: JsStr): (r: string)
    ensures Truthy(path) ==> r == Lower(path.value)
    ensures !Truthy(path) ==> r == ""
  {
    if Truthy(path) then Lower(path.value) else ""
  }

  /** `/model=slug`, lower-cased, only when both are given. */
  function ModelPart(model: JsStr, slug: JsStr): (r: string)
    ensures r != [] <==> Truthy(model) && Truthy(slug)
    ensures r != [] ==> r == "/" + Lower(model.value) + "=" + Lower(slug.value)
  {
    if Truthy(model) && Truthy(slug) then "/" + Lower(model.value) + "=" + Lower(slug.value) else ""
  }

  /** A part after its separator (`/view`, `?params`), only when the part is given. */
  function Segment(sep: string, part: JsStr): (r: string)
    ensures r != [] <==> Truthy(part)
    ensures r != [] ==> r == sep + part.value
  {
    if Truthy(part) then sep + part.value else ""
  }

  /** `getUrl`: nothing without an integration URL, otherwise the URL and its parts in order. */
  function GetUrl(integrationUrl: JsStr, path: JsStr, model: JsStr, slug: JsStr, view: JsStr, params: JsStr): string
  {
    if !Truthy(integrationUrl) then ""
    else UrlBase(integrationUrl.value) + PathPart(path) + ModelPart(model, slug) + Segment("/", view) + Segment("?", params)
  }

  /** The text after the integration URL and its slash. */
  function UrlRest(path: JsStr, model: JsStr, slug: JsStr, view: JsStr, params: JsStr): string
  {
    PathPart(path) + ModelPart(model, slug) + Segment("/", view) + Segment("?", params)
  }

  /**
   * A link starts with the integration URL carrying exactly one trailing slash, and the
   * rest is the path, the model segment, the view and the parameters, in that order;
   * without an integration URL there is no link.
   */
  lemma GetUrlShape(integrationUrl: JsStr, path: JsStr, model: JsStr, slug: JsStr, view: JsStr, params: JsStr)
    ensures !Truthy(integrationUrl) ==> GetUrl(integrationUrl, path, model, slug, view, params) == ""
    ensures Truthy(integrationUrl) ==>
              var r := GetUrl(integrationUrl, path, model, slug, view, params);
              var base := UrlBase(integrationUrl.value);
              StartsWith(r, base) && EndsWith(base, "/") && r[|base|..] == UrlRest(path, model, slug, view, params)
  {
    if Truthy(integrationUrl) {
      var base := UrlBase(integrationUrl.value);
      ConcatAfterPrefix(base, PathPart(path), ModelPart(model, slug), Segment("/", view), Segment("?", params));
    }
  }

  /** A text built from a prefix and four parts starts with the prefix, followed by the parts. */
  lemma ConcatAfterPrefix(base: string, p: string, m: string, v: string, q: string)
    ensures StartsWith(base + p + m + v + q, base)
    ensures (base + p + m + v + q)[|base|..] == p + m + v + q
  {
    var rest := p + m + v + q;
    assert base + p + m + v + q == base + rest;
    assert (base + rest)[..|base|] == base;
    assert (base + rest)[|base|..] == rest;
  }

  /** The import page: the integration URL followed by the lower-cased path only. */
  lemma ImportUrl(integrationUrl: string)
    requires integrationUrl != ""
    ensures GetUrl(Some(integrationUrl), Some("import"), None, None, None, None) == UrlBase(integrationUrl) + "import"
  {
    assert Lower("import") == "import";
  }

  // ---------------------------------------------------------------------------
  // isMappableExternally

  /** `isMappableExternally`: an external directive and a scoping object, in either order. */
  predicate IsMappableExternally(c: Collections, source: string, destination: string)
  {
    (source in c.externalDirectives && destination in c.scoping)
    || (source in c.scoping && destination in c.externalDirectives)
  }

  lemma IsMappableExternallySymmetric(c: Collections, source: string, destination: string)
    ensures IsMappableExternally(c, source, destination) == IsMappableExternally(c, destination, source)
  {
  }

  // ---------------------------------------------------------------------------
  // getUrlModelAndPath / getCreateObjectUrl

  /** `getUrlModelAndPath`: external directives use "directives" and "directive", others their table names. */
  function GetUrlModelAndPath(c: Collections, model: ModelInfo): (r: (JsStr, JsStr))
    ensures model.modelSingular in c.externalDirectives ==> r == (Some("directives"), Some("directive"))
    ensures model.modelSingular !in c.externalDirectives ==> r == (model.tablePlural, model.tableSingular)
  {
    if model.modelSingular in c.externalDirectives then (Some("directives"), Some("directive"))
    else (model.tablePlural, model.tableSingular)
  }

  /** The path and created object of `getCreateObjectUrl`: a directive's names win over the scope path. */
  function CreateObjectTarget(c: Collections, model: ModelInfo): (r: (JsStr, JsStr))
    ensures model.modelSingular in c.externalDirectives ==> r == (Some("directives"), Some("directive"))
    ensures model.modelSingular !in c.externalDirectives && model.modelSingular in c.scoping ==>
              r == (Some("scope"), model.rootObject)
    ensures model.modelSingular !in c.externalDirectives && model.modelSingular !in c.scoping ==>
              r == (model.tablePlural, model.rootObject)
  {
    var path := if model.modelSingular in c.scoping then Some("scope") else model.tablePlural;
    if model.modelSingular in c.externalDirectives then (Some("directives"), Some("directive"))
    else (path, model.rootObject)
  }

  /** `getCreateObjectUrl`: the target's path with the parameter `create=<object>`. */
  function GetCreateObjectUrl(integrationUrl: JsStr, c: Collections, model: ModelInfo): string
  {
    var (path, objectBeingCreated) := CreateObjectTarget(c, model);
    GetUrl(integrationUrl, path, None, None, None, Some("create=" + Render(objectBeingCreated)))
  }

  lemma CreateObjectUrlUnfold(integrationUrl: JsStr, c: Collections, model: ModelInfo)
    ensures var t := CreateObjectTarget(c, model);
            GetCreateObjectUrl(integrationUrl, c, model) == GetUrl(integrationUrl, t.0, None, None, None, Some("create=" + Render(t.1)))
  {
  }

  lemma CreateParamsText(base: string, path: string, obj: string)
    ensures base + path + [] + [] + ("?" + ("create=" + obj)) == base + path + "?create=" + obj
  {
  }

  /** A creation link never carries a model segment or a view: it ends with `?create=<object>`. */
  lemma CreateObjectUrlShape(integrationUrl: JsStr, c: Collections, model: ModelInfo)
    requires Truthy(integrationUrl)
    ensures var t := CreateObjectTarget(c, model);
            GetCreateObjectUrl(integrationUrl, c, model) == UrlBase(integrationUrl.value) + PathPart(t.0) + "?create=" + Render(t.1)
  {
    var t := CreateObjectTarget(c, model);
    var params := "create=" + Render(t.1);
    CreateObjectUrlUnfold(integrationUrl, c, model);
    assert ModelPart(None, None) == [] && Segment("/", None) == [];
    assert Segment("?", Some(params)) == "?" + params;
    CreateParamsText(UrlBase(integrationUrl.value), PathPart(t.0), Render(t.1));
  }

  // ---------------------------------------------------------------------------
  // getMapUrl

  /** The destination argument of `getMapUrl`: its class's singular name and its own table names. */
  datatype MapDestination = MapDestination(modelSingular: string, tablePlural: JsStr, tableSingular: JsStr)

  /** The path and model of a mapping link, or None when the source cannot be mapped externally. */
  function MapSource(c: Collections, source: ModelInfo): (r: Option<(JsStr, JsStr)>)
    ensures r.None? <==>
              source.modelSingular !in c.scoping && source.modelSingular !in c.externalDirectives
              && source.modelSingular !in c.externalBusiness
    ensures source.modelSingular in c.scoping ==> r == Some((Some("questionnaires"), source.tableSingular))
    ensures source.modelSingular !in c.scoping && source.modelSingular in c.externalDirectives ==>
              r == Some((Some("directives"), Some("directive")))
    ensures source.modelSingular !in c.scoping && source.modelSingular !in c.externalDirectives
            && source.modelSingular in c.externalBusiness ==>
              r == Some((source.tablePlural, source.tableSingular))
  {
    if source.modelSingular in c.scoping then Some((Some("questionnaires"), source.tableSingular))
    else if source.modelSingular in c.externalDirectives then Some((Some("directives"), Some("directive")))
    else if source.modelSingular !in c.externalBusiness then None
    else Some((source.tablePlural, source.tableSingular))
  }

  /** The view of a mapping link, or None when the destination cannot be mapped externally. */
  function MapView(c: Collections, destination: MapDestination): (r: Option<JsStr>)
    ensures r.None? <==>
              destination.modelSingular !in c.externalDirectives && destination.modelSingular !in c.scoping
              && destination.modelSingular !in c.externalBusiness
    ensures destination.modelSingular in c.externalDirectives ==> r == Some(Some("directives"))
    ensures destination.modelSingular !in c.externalDirectives && destination.modelSingular in c.scoping ==>
              r == Some(Some("scope"))
    ensures destination.modelSingular !in c.externalDirectives && destination.modelSingular !in c.scoping
            && destination.modelSingular in c.externalBusiness ==>
              r == Some(destination.tablePlural)
  {
    if destination.modelSingular in c.externalDirectives then Some(Some("directives"))
    else if destination.modelSingular in c.scoping then Some(Some("scope"))
    else if destination.modelSingular !in c.externalBusiness then None
    else Some(destination.tablePlural)
  }

  /** The parameters of a mapping link: the statuses, and the destination type unless it is an external business object. */
  function MapParams(c: Collections, destination: MapDestination, statuses: string): (r: string)
    ensures destination.modelSingular in c.externalBusiness ==> r == "mappingStatus=" + statuses
    ensures destination.modelSingular !in c.externalBusiness ==>
              r == "mappingStatus=" + statuses + "&types=" + Render(destination.tableSingular)
  {
    var addType := destination.modelSingular !in c.externalBusiness;
    "mappingStatus=" + statuses + (if addType then "&types=" + Render(destination.tableSingular) else "")
  }

  /**
   * `getMapUrl`: no link when either side cannot be mapped externally; otherwise the
   * link for the source's path and model, with the destination's view and the
   * mapping parameters.
   */
  function GetMapUrl(integrationUrl: JsStr, c: Collections, instance: InstanceRef, destination: MapDestination, statuses: string)
    : (r: string)
    ensures MapSource(c, instance.model).None? || MapView(c, destination).None? ==> r == ""
    ensures MapSource(c, instance.model).Some? && MapView(c, destination).Some? ==>
              var (path, model) := MapSource(c, instance.model).value;
              r == GetUrl(integrationUrl, path, model, instance.slug, MapView(c, destination).value,
                          Some(MapParams(c, destination, statuses)))
  {
    match MapSource(c, instance.model)
    case None => ""
    case Some((path, model)) =>
      match MapView(c, destination)
      case None => ""
      case Some(view) => GetUrl(integrationUrl, path, model, instance.slug, view, Some(MapParams(c, destination, statuses)))
  }

  lemma MapParamsText(prefix: string, statuses: string, types: string)
    ensures prefix + ("?" + ("mappingStatus=" + statuses + types)) == prefix + "?mappingStatus=" + statuses + types
  {
  }

  /**
   * Whenever a mapping link is built, it ends with `?mappingStatus=<statuses>`,
   * followed by `&types=` and the destination's table name unless the destination is
   * an external business object.
   */
  lemma MapUrlParams(integrationUrl: JsStr, c: Collections, instance: InstanceRef, destination: MapDestination, statuses: string)
    requires Truthy(integrationUrl)
    requires MapSource(c, instance.model).Some? && MapView(c, destination).Some?
    ensures var src := MapSource(c, instance.model).value;
            GetMapUrl(integrationUrl, c, instance, destination, statuses) ==
              UrlBase(integrationUrl.value) + PathPart(src.0) + ModelPart(src.1, instance.slug)
              + Segment("/", MapView(c, destination).value) + "?mappingStatus=" + statuses
              + (if destination.modelSingular in c.externalBusiness then "" else "&types=" + Render(destination.tableSingular))
  {
    var src := MapSource(c, instance.model).value;
    var view := MapView(c, destination).value;
    var params := MapParams(c, destination, statuses);
    var types := if destination.modelSingular in c.externalBusiness then "" else "&types=" + Render(destination.tableSingular);
    assert params == "mappingStatus=" + statuses + types;
    assert Segment("?", Some(params)) == "?" + params;
    var prefix := UrlBase(integrationUrl.value) + PathPart(src.0) + ModelPart(src.1, instance.slug) + Segment("/", view);
    MapParamsText(prefix, statuses, types);
  }
}
