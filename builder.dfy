/**
 * The builder half of `lib.rs`: `WebViewBuilder`, its defaults, its setters,
 * and the checks `build` makes, in their order, before anything is allocated.
 * `build` itself, which goes on to allocate and initialise, is
 * `Controller.Build`.
 */
module Builder {
  import opened Errors
  import opened Closures
  import opened Ffi
  import opened Contents
  import UrlEncoding

  const APPLICATION: Text := Ascii("Application")
  const DATA_HTML: Text := Ascii("data:text/html,")

  datatype WebViewBuilder<T> = WebViewBuilder(
    title: Text,
    content: Option<Content>,
    width: i32,
    height: i32,
    resizable: bool,
    debug: bool,
    invokeHandler: Option<Handler>,
    userData: Option<T>)
  {
    function WithTitle(title: Text): WebViewBuilder<T> { this.(title := title) }
    function WithContent(content: Content): WebViewBuilder<T> { this.(content := Some(content)) }
    function WithSize(width: i32, height: i32): WebViewBuilder<T> { this.(width := width, height := height) }
    function WithResizable(resizable: bool): WebViewBuilder<T> { this.(resizable := resizable) }
    function WithDebug(debug: bool): WebViewBuilder<T> { this.(debug := debug) }
    function WithInvokeHandler(handler: Handler): WebViewBuilder<T> { this.(invokeHandler := Some(handler)) }
    function WithUserData(data: T): WebViewBuilder<T> { this.(userData := Some(data)) }
  }

  /**
   * `Default::default`; `debugBuild` stands for `cfg(debug_assertions)`.
   * `WebViewBuilder::new` is the same function.
   */
  function Default<T>(debugBuild: bool): (b: WebViewBuilder<T>)
    ensures b.title == APPLICATION && b.width == 800 && b.height == 600
    ensures b.resizable && b.debug == debugBuild
    ensures b.content == None && b.invokeHandler == None && b.userData == None
  {
    WebViewBuilder(APPLICATION, None, 800, 600, true, debugBuild, None, None)
  }

  /** What a successful `build` goes on with. */
  datatype Config<T> = Config(
    title: Text,
    url: Text,
    width: i32,
    height: i32,
    resizable: bool,
    debug: bool,
    userData: T,
    invokeHandler: Handler)

  /** The URL the content is loaded from, before the NUL check. */
  function UrlOf(content: Content, encode: Text -> Text): (url: Text)
    ensures content.Url? ==> url == content.url
    ensures content.Html? ==> |url| == |DATA_HTML| + |encode(content.html)|
    ensures content.Html? ==> url[..|DATA_HTML|] == DATA_HTML && url[|DATA_HTML|..] == encode(content.html)
  {
    match content
    case Url(url) => url
    case Html(html) => DATA_HTML + encode(html)
  }

  /**
   * The checks of `build`, first failure wins: the title must hold no NUL;
   * then `content`, `user_data` and `invoke_handler` must be set, in that
   * order; then the URL must hold no NUL.
   */
  function Validate<T>(b: WebViewBuilder<T>, encode: Text -> Text): (r: Result<Config<T>>)
    ensures HasNul(b.title) ==> r == Err(NulByte)
    ensures !HasNul(b.title) && b.content.None? ==> r == Err(UninitializedField("content"))
    ensures !HasNul(b.title) && b.content.Some? && b.userData.None? ==> r == Err(UninitializedField("user_data"))
    ensures !HasNul(b.title) && b.content.Some? && b.userData.Some? && b.invokeHandler.None?
            ==> r == Err(UninitializedField("invoke_handler"))
    ensures r.Ok? <==> !HasNul(b.title) && b.content.Some? && b.userData.Some? && b.invokeHandler.Some?
                       && !HasNul(UrlOf(b.content.value, encode))
    ensures r.Err? && b.content.Some? && b.userData.Some? && b.invokeHandler.Some? ==> r.error == NulByte
    ensures r.Ok? ==> r.value.title == b.title && r.value.url == UrlOf(b.content.value, encode)
                      && r.value.userData == b.userData.value && r.value.invokeHandler == b.invokeHandler.value
                      && r.value.width == b.width && r.value.height == b.height
                      && r.value.resizable == b.resizable && r.value.debug == b.debug
  {
    match CStringNew(b.title)
    case Err(e) => Err(e)
    case Ok(title) =>
      if b.content.None? then Err(UninitializedField("content"))
      else if b.userData.None? then Err(UninitializedField("user_data"))
      else if b.invokeHandler.None? then Err(UninitializedField("invoke_handler"))
      else
        match CStringNew(UrlOf(b.content.value, encode))
        case Err(e) => Err(e)
        case Ok(url) =>
          Ok(Config(title, url, b.width, b.height, b.resizable, b.debug,
                    b.userData.value, b.invokeHandler.value))
  }

  /** Every setter sets its own field and leaves the others as they were. */
  lemma SettersSetOneField<T>(b: WebViewBuilder<T>, t: Text, c: Content, w: i32, h: i32, flag: bool,
                              handler: Handler, data: T)
    ensures b.WithTitle(t).title == t && b.WithTitle(t).(title := b.title) == b
    ensures b.WithContent(c).content == Some(c) && b.WithContent(c).(content := b.content) == b
    ensures b.WithSize(w, h).width == w && b.WithSize(w, h).height == h
    ensures b.WithSize(w, h).(width := b.width, height := b.height) == b
    ensures b.WithResizable(flag).resizable == flag && b.WithResizable(flag).(resizable := b.resizable) == b
    ensures b.WithDebug(flag).debug == flag && b.WithDebug(flag).(debug := b.debug) == b
    ensures b.WithInvokeHandler(handler).invokeHandler == Some(handler)
    ensures b.WithInvokeHandler(handler).(invokeHandler := b.invokeHandler) == b
    ensures b.WithUserData(data).userData == Some(data) && b.WithUserData(data).(userData := b.userData) == b
  {
  }

  /** An `UninitializedField` error names a required field that is unset, and every check before it passed. */
  lemma MissingFieldNamed<T>(b: WebViewBuilder<T>, encode: Text -> Text, f: string)
    requires Validate(b, encode) == Err(UninitializedField(f))
    ensures f == "content" || f == "user_data" || f == "invoke_handler"
    ensures !HasNul(b.title)
    ensures f == "content" <==> b.content.None?
    ensures f == "user_data" <==> b.content.Some? && b.userData.None?
    ensures f == "invoke_handler" <==> b.content.Some? && b.userData.Some? && b.invokeHandler.None?
  {
  }

  lemma LiteralsHaveNoNul()
    ensures !HasNul(APPLICATION) && !HasNul(DATA_HTML)
  {
    AsciiHasNoNul("Application");
    AsciiHasNoNul("data:text/html,");
  }

  /** A default builder fails on its first required field, `content`. */
  lemma DefaultNeedsContent<T>(debugBuild: bool, encode: Text -> Text)
    ensures Validate(Default<T>(debugBuild), encode) == Err(UninitializedField("content"))
  {
    LiteralsHaveNoNul();
  }

  /** With percent-encoding, HTML content never makes the URL check fail. */
  lemma HtmlUrlHasNoNul(html: Text)
    ensures !HasNul(UrlOf(Html(html), UrlEncoding.Encode))
  {
    LiteralsHaveNoNul();
    UrlEncoding.EncodeHasNoNul(html);
    assert UrlOf(Html(html), UrlEncoding.Encode) == DATA_HTML + UrlEncoding.Encode(html);
  }

  /** The `data:` URL built from HTML carries the markup back under percent-decoding. */
  lemma HtmlUrlRoundTrip(html: Text)
    ensures var url := UrlOf(Html(html), UrlEncoding.Encode);
            |DATA_HTML| <= |url| && url[..|DATA_HTML|] == DATA_HTML
            && UrlEncoding.Decode(url[|DATA_HTML|..]) == Some(html)
  {
    var url := UrlOf(Html(html), UrlEncoding.Encode);
    assert url[|DATA_HTML|..] == UrlEncoding.Encode(html);
    UrlEncoding.DecodeEncode(html);
  }

  /** With percent-encoding, a NUL-free title and the three required fields set, HTML content always validates. */
  lemma HtmlBuilderValidates<T>(b: WebViewBuilder<T>, html: Text)
    requires !HasNul(b.title) && b.content == Some(Html(html)) && b.userData.Some? && b.invokeHandler.Some?
    ensures Validate(b, UrlEncoding.Encode).Ok?
  {
    HtmlUrlHasNoNul(html);
  }
}
