/**
 * The cURL side of a request. The handle wrapper records every option set on
 * it, in order, so that a request can be stated by the options it configured;
 * `curl_exec` and the calls after it are an oracle reply given to the request.
 */
module Curl {
  import opened Wrappers
  import opened Php

  /** An open file stream, as `fopen($path, "rb")` returns it. */
  datatype Stream = Stream(path: string)

  /** The options the core passes to `curl_setopt`, with their values. */
  datatype CurlOpt =
    | Url(url: string)
    | ReturnTransfer(on: bool)
    | SslVerifyPeer(on: bool)
    | SslVerifyHost(on: bool)
    | CookieFile(path: string)
    | CookieJar(path: string)
    | UserPwd(credentials: string)
    | HttpHeader(headers: seq<string>)
    | Header(on: bool)
    | Encoding(encoding: string)
    | Post(on: bool)
    | PostFields(body: string)
    | BinaryTransfer(on: bool)
    | InFile(stream: Stream)
    | InFileSize(size: Option<nat>)           // `false` when `filesize` fails
    | Proxy(proxy: Value)

  /** What `curl_exec` returned: the body text, or `false`. */
  datatype CurlResult = CurlFalse | CurlText(text: string)

  /** One round trip: `curl_exec`, `curl_getinfo(...)['http_code']`, `curl_error`, `curl_errno`. */
  datatype Reply = Reply(result: CurlResult, httpCode: int, error: string, errno: int)

  /**
   * The reusable cURL handle. Its own source is not part of this model; it is
   * kept to what a request relies on: `open` hands out the handle, options
   * accumulate on it, `reset` clears them.
   */
  class CurlHandle {
    var opts: seq<CurlOpt>
    var isOpen: bool

    constructor()
      ensures opts == [] && !isOpen
    {
      opts := [];
      isOpen := false;
    }

    method Open()
      modifies this
      ensures isOpen && opts == old(opts)
    {
      isOpen := true;
    }

    /** `curl_setopt($ch, ...)`. */
    method SetOpt(o: CurlOpt)
      modifies this
      ensures opts == old(opts) + [o] && isOpen == old(isOpen)
    {
      opts := opts + [o];
    }

    /** `curl_reset($ch)`: every option back to its default. */
    method Reset()
      modifies this
      ensures opts == [] && isOpen == old(isOpen)
    {
      opts := [];
    }
  }
}
