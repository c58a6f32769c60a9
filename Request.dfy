/** The request object the host hands to every pre-send callback
    (`IHttpRequestOptions`); the callbacks rewrite its fields in place. */
module HttpRequest {
  import opened JsonValues

  class RequestOptions {
    /** The request URL, relative to the host's base URL. */
    var url: string
    /** The query-string parameters. */
    var qs: Props
    /** The JSON body; None while no body has been set. */
    var body: Option<Props>

    constructor (url: string, qs: Props, body: Option<Props>)
      ensures this.url == url && this.qs == qs && this.body == body
    {
      this.url := url;
      this.qs := qs;
      this.body := body;
    }
  }
}
