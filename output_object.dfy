/** `com.amazon.example.OutputObject`: a two-field holder whose setters
    update one field and return the object itself, for chaining. */
module Output {
  import opened JavaLang

  class OutputObject {
    var result: Option<string>
    var requestId: Option<string>

    /** The implicit constructor: both fields null. */
    constructor ()
      ensures GetResult() == None && GetRequestId() == None
    {
      result, requestId := None, None;
    }

    function GetResult(): (r: Option<string>)
      reads this
      ensures r == result
    {
      result
    }

    function GetRequestId(): (r: Option<string>)
      reads this
      ensures r == requestId
    {
      requestId
    }

    method SetResult(result: Option<string>) returns (self: OutputObject)
      modifies this
      ensures GetResult() == result
      ensures GetRequestId() == old(GetRequestId())
      ensures self == this
    {
      this.result := result;
      return this;
    }

    method SetRequestId(requestId: Option<string>) returns (self: OutputObject)
      modifies this
      ensures GetRequestId() == requestId
      ensures GetResult() == old(GetResult())
      ensures self == this
    {
      this.requestId := requestId;
      return this;
    }
  }
}
