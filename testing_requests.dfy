/** lib/BlackPearl/testing.py: the variant of the testing helpers that posts through `requests`.
    Its invoker, testset decorator, `test` and `print` replacement behave as those of
    lib/BlackPearl/testing/testing.py (module `Testing`); what differs is `testcase`, which sends
    the input dict and optional files as they are and decodes the reply only for JSON web
    modules. */
module TestingRequests {
  import opened Wrappers
  import opened PyValue
  import opened PyDict
  import Testing

  /** The invoker frame `testcase` finds two levels up: its `webmodule` and `module_type`. */
  datatype Frame = Frame(webmodule: string, moduleType: Value)

  /** What `testcase` returns: the decoded JSON reply, or the raw reply body. */
  datatype Reply = Decoded(value: Value) | Raw(content: string)

  /** `testcase(input, files)`. `post` answers the request for the url, input and files (None when
      it fails); `decode` decodes a JSON body (None when it is not JSON). */
  function Testcase(frame: Option<Frame>, input: Dict<Value, Value>, files: Value,
                    post: (string, Dict<Value, Value>, Value) -> Option<string>,
                    decode: string -> Option<Value>): (r: Result<Reply, Testing.TestcaseProblem>)
  {
    match frame
    case None => Err(Testing.InvalidTestcaseInvoke)
    case Some(f) =>
      match post(f.webmodule, input, files)
      case None => Err(Testing.TestcaseError)
      case Some(body) =>
        if f.moduleType == VStr("json") then
          match decode(body)
          case None => Err(Testing.TestcaseError)
          case Some(v) => Ok(Decoded(v))
        else Ok(Raw(body))
  }

  /** Outside a testset the call is refused; inside, a failed request is a `TestcaseError`, the
      reply is decoded exactly when the web module type is "json", and otherwise it is returned
      unchanged; the input dict is sent as it is. */
  lemma TestcaseDecodesJsonOnly(frame: Option<Frame>, input: Dict<Value, Value>, files: Value,
                                post: (string, Dict<Value, Value>, Value) -> Option<string>,
                                decode: string -> Option<Value>)
    ensures var r := Testcase(frame, input, files, post, decode);
      && (frame.None? ==> r == Err(Testing.InvalidTestcaseInvoke))
      && (frame.Some? ==>
            var body := post(frame.value.webmodule, input, files);
            && (body.None? ==> r == Err(Testing.TestcaseError))
            && (body.Some? && frame.value.moduleType != VStr("json") ==> r == Ok(Raw(body.value)))
            && (body.Some? && frame.value.moduleType == VStr("json") ==>
                  (r.Ok? <==> decode(body.value).Some?) && (r.Ok? ==> r.value == Decoded(decode(body.value).value))))
  {
  }
}
