/**
 * The values and objects the link validator passes around: request options,
 * link records and service-supporter descriptors.
 */
module Values {

  datatype Option<+T> = None | Some(value: T)

  /** A proxy endpoint as the proxy configuration lists it; opaque to the pipeline. */
  type Proxy = string

  /**
   * A snapshot of a request-options object: the three fields the pipeline
   * writes (`uri`, `proxy`, `tunnel`; `None` is an absent property) and every
   * other option a template or a custom request builder sets.
   */
  datatype ReqFields = ReqFields(
    uri: Option<string>,
    proxy: Option<Proxy>,
    tunnel: Option<bool>,
    rest: map<string, string>)

  /** The object literal `{}`. */
  const EmptyRequest := ReqFields(None, None, None, map[])

  /** A request-options object; the pipeline updates it in place, and it may be shared. */
  class RequestOptions {
    var uri: Option<string>
    var proxy: Option<Proxy>
    var tunnel: Option<bool>
    var rest: map<string, string>

    function Fields(): ReqFields
      reads this
    {
      ReqFields(uri, proxy, tunnel, rest)
    }

    constructor (f: ReqFields)
      ensures Fields() == f
    {
      uri, proxy, tunnel, rest := f.uri, f.proxy, f.tunnel, f.rest;
    }
  }

  /**
   * A link record as the input source delivers it. Its columns are never
   * written by the pipeline; the pipeline only attaches the provenance
   * properties `url` and `proxy`.
   */
  class LinkRecord {
    const columns: map<string, string>
    var url: Option<string>
    var proxy: Option<Proxy>

    constructor (columns: map<string, string>)
      ensures this.columns == columns && url == None && proxy == None
    {
      this.columns := columns;
      url, proxy := None, None;
    }
  }

  /**
   * A service supporter plugin: the host names it verifies, whether it builds
   * its own request (`setupRequest`), the builder it then uses
   * (`getCustomRequest`, foreign code, given as the options it returns), and
   * its optional request template `reqOpts`, an object shared by every use.
   */
  datatype Supporter = Supporter(
    hostNames: seq<string>,
    setupRequest: bool,
    getCustomRequest: string -> ReqFields,
    reqOpts: Option<RequestOptions>)

  /**
   * getReqOpts: the custom request when the supporter sets one up, otherwise
   * the supporter's own template object (by reference, not copied), otherwise
   * a fresh empty object.
   */
  method GetReqOpts(s: Supporter, url: string) returns (options: RequestOptions)
    ensures s.setupRequest ==> fresh(options) && options.Fields() == s.getCustomRequest(url)
    ensures !s.setupRequest && s.reqOpts.Some? ==> options == s.reqOpts.value
    ensures !s.setupRequest && s.reqOpts.None? ==> fresh(options) && options.Fields() == EmptyRequest
  {
    if s.setupRequest {
      options := new RequestOptions(s.getCustomRequest(url));
    } else if s.reqOpts.Some? {
      options := s.reqOpts.value;
    } else {
      options := new RequestOptions(EmptyRequest);
    }
  }
}
