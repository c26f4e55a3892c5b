/** The request and response objects of the serverless HTTP runtime. */
module Http {
  import opened Wrappers
  import opened Json

  /** An incoming request: its method (`verb`), its parsed body (`None` when `req.body`
      is `undefined`) and its headers, keyed by lower-case name. */
  datatype Request = Request(verb: string, body: Option<Json>, headers: map<string, string>)

  /** `req.headers[name] || fallback`: an absent or empty header falls through. */
  function HeaderOr(headers: map<string, string>, name: string, fallback: string): (r: string)
    ensures name in headers && headers[name] != "" ==> r == headers[name]
    ensures (name !in headers || headers[name] == "") ==> r == fallback
  {
    if name in headers && headers[name] != "" then headers[name] else fallback
  }

  /** What has been sent as the body: nothing (`res.end()`) or a JSON value (`res.json(v)`). */
  datatype Payload = NoPayload | JsonPayload(value: Json)

  /** The response object `res`, whose methods update it step by step. */
  class Response {
    var statusCode: int
    var headers: map<string, string>
    var payload: Payload
    var finished: bool

    /** A response as the runtime hands it to a handler: status 200, nothing set, nothing sent. */
    constructor ()
      ensures statusCode == 200 && headers == map[] && payload == NoPayload && !finished
    {
      statusCode := 200;
      headers := map[];
      payload := NoPayload;
      finished := false;
    }

    /** `res.setHeader(name, value)`. */
    method SetHeader(name: string, value: string)
      requires !finished
      modifies this
      ensures headers == old(headers)[name := value]
      ensures statusCode == old(statusCode) && payload == old(payload) && !finished
    {
      headers := headers[name := value];
    }

    /** `res.status(code)`. */
    method Status(code: int)
      requires !finished
      modifies this
      ensures statusCode == code
      ensures headers == old(headers) && payload == old(payload) && !finished
    {
      statusCode := code;
    }

    /** `res.end()`: finishes the response with an empty body. */
    method End()
      requires !finished
      modifies this
      ensures finished && payload == NoPayload
      ensures statusCode == old(statusCode) && headers == old(headers)
    {
      payload := NoPayload;
      finished := true;
    }

    /** `res.json(value)`: finishes the response with a JSON body. */
    method SendJson(value: Json)
      requires !finished
      modifies this
      ensures finished && payload == JsonPayload(value)
      ensures statusCode == old(statusCode) && headers == old(headers)
    {
      payload := JsonPayload(value);
      finished := true;
    }
  }
}
