/** The HTTP request parse context: where a parser is in a request (request
    line, headers, body, complete) and the request it has filled so far.
    The two copies of `HttpContext` (cobra/http and cobra/net/http) are the
    same class and share this one model. The parser that fills the request
    is not part of this model; it reaches the request through `SetRequest`. */
module HttpContexts {

  /** `HttpRequestParseState`. */
  datatype ParseState = ExpectRequestLine | ExpectHeaders | ExpectBody | GotAll

  /** The three mutators, as steps of the state machine. */
  datatype Step = ReceiveRequestLineStep | ReceiveHeadersStep | ResetStep

  /** The parsed parts of a request; a default-constructed request has none. */
  datatype HttpRequest = HttpRequest(fields: map<string, string>)

  const EmptyRequest := HttpRequest(map[])

  /** The state each mutator leaves behind: none of them looks at the state
      it starts from, and none of them enters `ExpectBody`. */
  function Next(s: ParseState, step: Step): (t: ParseState)
    ensures t != ExpectBody
    ensures step == ResetStep <==> t == ExpectRequestLine
  {
    match step
    case ReceiveRequestLineStep => ExpectHeaders
    case ReceiveHeadersStep => GotAll
    case ResetStep => ExpectRequestLine
  }

  /** The state after a sequence of mutator calls. */
  function Run(s: ParseState, steps: seq<Step>): ParseState
    decreases |steps|
  {
    if steps == [] then s else Run(Next(s, steps[0]), steps[1..])
  }

  /** Through the public mutators a context that does not expect a body
      (a fresh one, say) never comes to expect one, and its state is the one
      the last call set. */
  lemma {:induction false} ExpectBodyUnreachable(s: ParseState, steps: seq<Step>)
    requires s != ExpectBody
    ensures Run(s, steps) != ExpectBody
    ensures steps != [] ==> Run(s, steps) == Next(s, steps[|steps| - 1])
    decreases |steps|
  {
    if steps != [] {
      ExpectBodyUnreachable(Next(s, steps[0]), steps[1..]);
      if |steps| > 1 {
        assert steps[1..][|steps[1..]| - 1] == steps[|steps| - 1];
      }
    }
  }

  /** A request line and then headers complete a request from any state. */
  lemma RequestLineThenHeadersCompletes(s: ParseState)
    ensures Run(s, [ReceiveRequestLineStep, ReceiveHeadersStep]) == GotAll
    ensures Run(s, [ReceiveRequestLineStep]) == ExpectHeaders
  {
    assert [ReceiveRequestLineStep, ReceiveHeadersStep][1..] == [ReceiveHeadersStep];
  }

  class HttpContext {
    var state: ParseState
    var request: HttpRequest

    /** A new context expects a request line and holds an empty request. */
    constructor ()
      ensures state == ExpectRequestLine && request == EmptyRequest
    {
      state := ExpectRequestLine;
      request := EmptyRequest;
    }

    predicate IsExpectRequestLine()
      reads this
    {
      state == ExpectRequestLine
    }

    predicate IsExpectHeaders()
      reads this
    {
      state == ExpectHeaders
    }

    predicate IsExpectBody()
      reads this
    {
      state == ExpectBody
    }

    predicate IsGotAll()
      reads this
    {
      state == GotAll
    }

    /** `receiveRequestLine()`: on to the headers; the request is kept. */
    method ReceiveRequestLine()
      modifies this
      ensures state == Next(old(state), ReceiveRequestLineStep) && IsExpectHeaders()
      ensures request == old(request)
    {
      state := ExpectHeaders;
    }

    /** `receiveHeaders()`: straight to a complete request, skipping the
        body state. */
    method ReceiveHeaders()
      modifies this
      ensures state == Next(old(state), ReceiveHeadersStep) && IsGotAll() && !IsExpectBody()
      ensures request == old(request)
    {
      state := GotAll;
    }

    /** `reset()`: back to the request line with a default request. */
    method Reset()
      modifies this
      ensures state == Next(old(state), ResetStep) && IsExpectRequestLine()
      ensures request == EmptyRequest
    {
      state := ExpectRequestLine;
      request := EmptyRequest;
    }

    /** The parser's writes through the mutable `request()` accessor. */
    method SetRequest(r: HttpRequest)
      modifies this
      ensures request == r && state == old(state)
    {
      request := r;
    }
  }

  /** Exactly one of the four state predicates holds of a context. */
  lemma ExactlyOnePredicate(c: HttpContext)
    ensures c.IsExpectRequestLine() || c.IsExpectHeaders() || c.IsExpectBody() || c.IsGotAll()
    ensures !(c.IsExpectRequestLine() && c.IsExpectHeaders())
    ensures !(c.IsExpectRequestLine() && c.IsExpectBody())
    ensures !(c.IsExpectRequestLine() && c.IsGotAll())
    ensures !(c.IsExpectHeaders() && c.IsExpectBody())
    ensures !(c.IsExpectHeaders() && c.IsGotAll())
    ensures !(c.IsExpectBody() && c.IsGotAll())
  {
  }
}
