/** The slice of net/http the core touches: header maps, the incoming request as a
    middleware sees it, and a response writer that records what was sent. */
module Http {
  import opened Wrappers
  import opened GoContext

  /** http.Header. Keys are written in canonical form throughout the core, so no
      canonicalisation is modelled. */
  type Header = map<string, seq<string>>

  /** Header.Get: the first value of `key`, or "". */
  function HeaderGet(h: Header, key: string): string {
    if key in h && |h[key]| > 0 then h[key][0] else ""
  }

  /** Header.Set: `key` now holds exactly `value`; every other key is untouched. */
  function HeaderSet(h: Header, key: string, value: string): (r: Header)
    ensures key in r && r[key] == [value] && HeaderGet(r, key) == value
    ensures forall k :: k != key ==> (k in r <==> k in h) && (k in h ==> r[k] == h[k])
  {
    h[key := [value]]
  }

  const StatusOK: int := 200
  const StatusUnauthorized: int := 401
  const StatusNotFound: int := 404
  const StatusInternalServerError: int := 500

  /** An incoming request (`verb` is r.Method). `header` is None for a nil header map; `query` is what
      URL.Query() parses out of `rawQuery`. */
  datatype Request = Request(
    verb: string,
    path: string,
    rawQuery: string,
    header: Option<Header>,
    query: map<string, seq<string>>,
    ctx: Context)
  {
    /** r.Header.Get, which reads "" from a nil map. */
    function GetHeader(key: string): string {
      match header
      case None => ""
      case Some(h) => HeaderGet(h, key)
    }

    /** r.WithContext: the same request with another context. */
    function WithContext(c: Context): (r: Request)
      ensures r.ctx == c && r.(ctx := ctx) == this
    {
      this.(ctx := c)
    }
  }

  /** An http.ResponseWriter that records what went on the wire: the status and the
      header as they were at the first WriteHeader, and the body. */
  class ResponseWriter {
    var header: Header
    var status: Option<int>
    var sentHeader: Header
    var body: string

    constructor ()
      ensures header == map[] && status == None && sentHeader == map[] && body == ""
    {
      header := map[];
      status := None;
      sentHeader := map[];
      body := "";
    }

    /** w.Header().Set(key, value) */
    method Set(key: string, value: string)
      modifies this`header
      ensures header == HeaderSet(old(header), key, value)
    {
      header := HeaderSet(header, key, value);
    }

    /** w.WriteHeader: only the first call has an effect. */
    method WriteHeader(code: int)
      modifies this`status, this`sentHeader
      ensures old(status).None? ==> status == Some(code) && sentHeader == header
      ensures old(status).Some? ==> status == old(status) && sentHeader == old(sentHeader)
    {
      if status.None? {
        status := Some(code);
        sentHeader := header;
      }
    }

    /** w.Write: a write before any WriteHeader sends status 200 first. */
    method Write(data: string)
      modifies this`status, this`sentHeader, this`body
      ensures old(status).None? ==> status == Some(StatusOK) && sentHeader == header
      ensures old(status).Some? ==> status == old(status) && sentHeader == old(sentHeader)
      ensures body == old(body) + data
    {
      WriteHeader(StatusOK);
      body := body + data;
    }
  }
}
