/** `renderWithLayout` (server.js): the page template is rendered with the page
    data, then the layout template is rendered with the same data plus the page
    HTML under `body`; any failure becomes a 500 response. EJS itself is a
    parameter: a function from template text and data to HTML, or None when it
    throws. The files of the `views` directory are a map from file name to text;
    a missing name is a failed `readFileSync`. */
module Layout {
  import opened Wrappers
  import opened MockData

  /** The data object passed to a template. */
  type Context = map<string, Value>

  /** `ejs.render(template, data)`; None stands for a thrown error. */
  type Renderer = (string, Context) -> Option<string>

  const LayoutFile: string := "layout.ejs"

  function ViewFile(view: string): string
  {
    view + ".ejs"
  }

  const ErrorText: string := "Error rendering page"

  /** What `res.send` (HTML text) or `res.json` (a JSON value) puts on the wire. */
  datatype Body = Html(text: string) | Json(value: Value)

  datatype Response = Response(status: nat, body: Body)

  /** `{...data, body: renderedView}`: the page data with `body` set to the page
      HTML; every other key keeps its value and no key is dropped or added. */
  function LayoutContext(data: Context, html: string): (ctx: Context)
    ensures ctx.Keys == data.Keys + {"body"}
    ensures ctx["body"] == Str(html)
    ensures forall k :: k in data && k != "body" ==> ctx[k] == data[k]
  {
    data["body" := Str(html)]
  }

  /** The HTML of the finished page, or None when reading a template or either
      render pass fails. */
  function RenderedPage(views: map<string, string>, render: Renderer, view: string, data: Context): (r: Option<string>)
    ensures r.Some? ==> LayoutFile in views && ViewFile(view) in views
    ensures r.Some? ==> render(views[ViewFile(view)], data).Some?
  {
    if LayoutFile !in views || ViewFile(view) !in views then None
    else
      match render(views[ViewFile(view)], data)
      case None => None
      case Some(html) => render(views[LayoutFile], LayoutContext(data, html))
  }

  /** The response `renderWithLayout` produces on a fresh `res`. */
  function LayoutOutcome(views: map<string, string>, render: Renderer, view: string, data: Context): (r: Response)
    ensures r.status == 200 || r.status == 500
    ensures r.status == 200 <==> RenderedPage(views, render, view, data).Some?
    ensures r.status == 500 ==> r.body == Html(ErrorText)
  {
    match RenderedPage(views, render, view, data)
    case Some(page) => Response(200, Html(page))
    case None => Response(500, Html(ErrorText))
  }

  /** The page succeeds exactly when both templates exist and both render passes
      succeed, the second one with the layout context; its body is then the
      layout's HTML. Otherwise the response is 500 with the fixed error text. */
  lemma LayoutOutcomeCases(views: map<string, string>, render: Renderer, view: string, data: Context)
    ensures var r := LayoutOutcome(views, render, view, data);
      && (r.status == 200 <==>
            && LayoutFile in views && ViewFile(view) in views
            && render(views[ViewFile(view)], data).Some?
            && render(views[LayoutFile], LayoutContext(data, render(views[ViewFile(view)], data).value)).Some?)
      && (r.status == 200 ==>
            r.body == Html(render(views[LayoutFile], LayoutContext(data, render(views[ViewFile(view)], data).value)).value))
      && (r.status != 200 ==> r == Response(500, Html(ErrorText)))
  {
  }

  /** A missing template file, whichever of the two, gives the error page
      without rendering anything. */
  lemma MissingTemplateIsError(views: map<string, string>, render: Renderer, view: string, data: Context)
    requires LayoutFile !in views || ViewFile(view) !in views
    ensures LayoutOutcome(views, render, view, data) == Response(500, Html(ErrorText))
  {
  }

  /** The page template is rendered with the page data alone, and the layout
      sees exactly what the page template rendered. */
  lemma LayoutSeesRenderedPage(views: map<string, string>, render: Renderer, view: string, data: Context, html: string)
    requires LayoutFile in views && ViewFile(view) in views
    requires render(views[ViewFile(view)], data) == Some(html)
    ensures RenderedPage(views, render, view, data) == render(views[LayoutFile], LayoutContext(data, html))
  {
  }

  /** Express's response object: a status code (200 until set) and the bodies
      sent so far. */
  class Res {
    var statusCode: nat
    var sent: seq<Body>

    constructor ()
      ensures statusCode == 200 && sent == []
    {
      statusCode := 200;
      sent := [];
    }

    /** `res.status(code)` */
    method Status(code: nat)
      modifies this
      ensures statusCode == code && sent == old(sent)
    {
      statusCode := code;
    }

    /** `res.send(text)` */
    method Send(text: string)
      modifies this
      ensures statusCode == old(statusCode) && sent == old(sent) + [Html(text)]
    {
      sent := sent + [Html(text)];
    }

    /** `res.json(value)` */
    method SendJson(value: Value)
      modifies this
      ensures statusCode == old(statusCode) && sent == old(sent) + [Json(value)]
    {
      sent := sent + [Json(value)];
    }
  }

  /** `renderWithLayout(res, view, data)`: exactly one body is sent, the one
      `LayoutOutcome` describes, and the status becomes 500 only on failure. */
  method RenderWithLayout(res: Res, views: map<string, string>, render: Renderer, view: string, data: Context)
    modifies res
    ensures res.sent == old(res.sent) + [LayoutOutcome(views, render, view, data).body]
    ensures res.statusCode ==
      if LayoutOutcome(views, render, view, data).status == 200 then old(res.statusCode) else 500
  {
    // None records that an exception reached the catch block
    var page: Option<string> := None;
    if LayoutFile in views && ViewFile(view) in views {
      var layoutContent := views[LayoutFile];
      var viewContent := views[ViewFile(view)];
      var renderedView := render(viewContent, data);
      if renderedView.Some? {
        page := render(layoutContent, LayoutContext(data, renderedView.value));
      }
    }
    if page.Some? {
      res.Send(page.value);
    } else {
      res.Status(500);
      res.Send(ErrorText);
    }
  }
}
