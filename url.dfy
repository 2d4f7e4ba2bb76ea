/**
 * The view of a parsed URL that the routing-URL check uses. The parser itself
 * (`reqwest::Url::parse`, which follows the WHATWG URL Standard, section 4.4
 * "URL parsing") is not modelled: every operation takes it as a parameter, so
 * what is proved holds for any parser.
 */
module Url {
  import opened Wrappers

  /** `Url::scheme()` and `Url::host_str()` of a successfully parsed URL. */
  datatype ParsedUrl = ParsedUrl(scheme: string, host: Option<string>)

  /** `Url::parse`: `None` is a parse error. */
  type Parser = string -> Option<ParsedUrl>

  /** The schemes a router can route to: `http` and `https`. */
  predicate IsSupportedScheme(scheme: string) {
    scheme == "http" || scheme == "https"
  }

  /** The host names that only the local machine can reach: `localhost` and `127.0.0.1`. */
  predicate IsLocalHost(host: string) {
    host == "localhost" || host == "127.0.0.1"
  }
}
