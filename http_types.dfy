/**
  The HTTP response as the core sees it (utilz/httpx.go:34-39): body text, body
  bytes, header map and status code. Header keys are taken as already in the
  canonical form that Go's `http.Header.Get` would put them in.
 */
module HttpTypes {

  newtype byte = x: int | 0 <= x < 256

  /** http.Header: each header name maps to its values, in the order received. */
  type Header = map<string, seq<string>>

  /** http.Header.Get: the first value of `key`, or "" when it has none. */
  function Get(h: Header, key: string): (value: string)
  {
    if key in h && |h[key]| > 0 then h[key][0] else ""
  }

  /** fmt.Sprintf("%s: %s", key, value). */
  function HeaderLine(key: string, value: string): (line: string)
  {
    key + ": " + value
  }

  datatype Response = Response(raw: string, data: seq<byte>, headers: Header, status: int)
}
