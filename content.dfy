/** `content.rs`: what a window shows. */
module Contents {
  import opened Errors

  /** `Content<T: AsRef<str>>`: a URL to load, or literal HTML. */
  datatype Content = Url(url: Text) | Html(html: Text)
}
