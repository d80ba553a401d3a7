/** The part of an HTTP response the service writes: status, headers, body. */
module Http {
  import opened Engine

  /** A header value as the handlers set it. A content disposition is kept as
      its type and file name; its encoding into header text is not modelled. */
  datatype HeaderValue =
    | Text(text: string)
    | Length(length: nat)
    | Disposition(dispositionType: string, filename: string)

  datatype Body = NoBody | TextBody(text: string) | Bytes(bytes: seq<byte>)

  /** The response object a handler writes to; `sent` once a body is sent. */
  class Response {
    var status: int
    var headers: map<string, HeaderValue>
    var body: Body
    var sent: bool

    /** A fresh response: status 200, nothing set, nothing sent. */
    constructor ()
      ensures status == 200 && headers == map[] && body == NoBody && !sent
    {
      status := 200;
      headers := map[];
      body := NoBody;
      sent := false;
    }

    /** `res.header(name, value)` and each entry of `res.set({...})`. */
    method SetHeader(name: string, value: HeaderValue)
      modifies this
      ensures headers == old(headers)[name := value]
      ensures status == old(status) && body == old(body) && sent == old(sent)
    {
      headers := headers[name := value];
    }

    /** `res.status(code)` */
    method SetStatus(code: int)
      modifies this
      ensures status == code
      ensures headers == old(headers) && body == old(body) && sent == old(sent)
    {
      status := code;
    }

    /** `res.send(body)`, without the headers and the 304 answer Express adds by itself. */
    method Send(content: Body)
      modifies this
      ensures body == content && sent
      ensures status == old(status) && headers == old(headers)
    {
      body := content;
      sent := true;
    }
  }
}
