/** The response envelope declared in src/models/response.ts. */
module Responses {
  import opened Wrappers

  /** Detailed information about one operation of a request; `url` is optional. */
  datatype OperationResult = OperationResult(url: Option<string>, statusCode: int, message: string)

  /** The response to an API request. */
  datatype ApiResponse = ApiResponse(success: bool, results: seq<OperationResult>, errors: seq<OperationResult>)

  /** Builds a response that is unsuccessful exactly when its list of errors is non-empty. */
  function MakeApiResponse(results: seq<OperationResult>, errors: seq<OperationResult>): (r: ApiResponse)
    ensures r.success <==> |r.errors| == 0
    ensures r.results == results && r.errors == errors
  {
    ApiResponse(errors == [], results, errors)
  }
}
