/**
 * How the pages turn a rejected HTTP request into the text of an error toast,
 * and what a create form does with the reply. The HTTP call itself is not
 * modelled: its reply is an input.
 */
module ApiErrors {
  import opened Wrappers

  /** The JSON body of an error response; a field that is missing or not a non-empty string is "". */
  datatype ResponseBody = ResponseBody(error: string, message: string)

  /** `error.response`: its `data` may be missing. */
  datatype Response = Response(data: Option<ResponseBody>)

  /**
   * A rejected request as the HTTP client reports it: `response` when the
   * server answered, `requestSent` when a request went out, and the client's
   * own `message` ("" when missing).
   */
  datatype ApiError = ApiError(response: Option<Response>, requestSent: bool, message: string)

  const NoResponseText := "No response from server. Please try again later."

  function BodyError(r: Response): string {
    if r.data.Some? then r.data.value.error else ""
  }

  function BodyMessage(r: Response): string {
    if r.data.Some? then r.data.value.message else ""
  }

  /** `a || b || ...` over strings: the first non-empty one, or "" when all are empty. */
  function FirstNonEmpty(candidates: seq<string>): (r: string)
    ensures r == "" <==> forall i :: 0 <= i < |candidates| ==> candidates[i] == ""
    ensures r != "" ==> exists i :: 0 <= i < |candidates| && candidates[i] == r && AllEmpty(candidates[..i])
  {
    if candidates == [] then ""
    else if candidates[0] != "" then
      assert AllEmpty(candidates[..0]);
      candidates[0]
    else
      var r := FirstNonEmpty(candidates[1..]);
      assert r != "" ==> exists i :: 0 <= i < |candidates| && candidates[i] == r && AllEmpty(candidates[..i]) by {
        if r != "" {
          var i :| 0 <= i < |candidates[1..]| && candidates[1..][i] == r && AllEmpty(candidates[1..][..i]);
          assert candidates[..i + 1] == [candidates[0]] + candidates[1..][..i];
        }
      }
      r
  }

  predicate AllEmpty(s: seq<string>) {
    forall k :: 0 <= k < |s| ==> s[k] == ""
  }

  /**
   * The toast text of the login and password-change handlers: with a
   * response, the server's `error`, else its `message`, else
   * `responseDefault`; with a request but no response, the fixed no-response
   * text; otherwise the client's message, else `fallback`.
   */
  function ErrorMessage(e: ApiError, responseDefault: string, fallback: string): (m: string)
    ensures responseDefault != "" && fallback != "" ==> m != ""
    ensures e.response.Some? ==> m in {BodyError(e.response.value), BodyMessage(e.response.value), responseDefault}
    ensures e.response.None? && e.requestSent ==> m == NoResponseText
    ensures e.response.None? && !e.requestSent ==> m in {e.message, fallback}
  {
    if e.response.Some? then
      var r := e.response.value;
      if BodyError(r) != "" then BodyError(r)
      else if BodyMessage(r) != "" then BodyMessage(r)
      else responseDefault
    else if e.requestSent then NoResponseText
    else if e.message != "" then e.message
    else fallback
  }

  /** The candidates in the order the handlers try them. */
  function Candidates(e: ApiError, responseDefault: string, fallback: string): seq<string> {
    if e.response.Some? then [BodyError(e.response.value), BodyMessage(e.response.value), responseDefault]
    else if e.requestSent then [NoResponseText]
    else [e.message, fallback]
  }

  /** The toast shows the first non-empty candidate: earlier sources take precedence over later ones. */
  lemma ErrorMessagePrecedence(e: ApiError, responseDefault: string, fallback: string)
    ensures ErrorMessage(e, responseDefault, fallback) == FirstNonEmpty(Candidates(e, responseDefault, fallback))
  {
    var c := Candidates(e, responseDefault, fallback);
    if |c| == 3 {
      assert c[1..][1..] == [c[2]];
      assert c[1..][1..][1..] == [];
    } else if |c| == 2 {
      assert c[1..][1..] == [];
    } else {
      assert c[1..] == [];
    }
  }

  /** The create forms' toast: `error.response?.data?.error || fallback`. */
  function CreateErrorMessage(e: ApiError, fallback: string): (m: string)
    ensures fallback != "" ==> m != ""
    ensures m != fallback ==> e.response.Some? && m == BodyError(e.response.value)
    ensures e.response.Some? && BodyError(e.response.value) != "" ==> m == BodyError(e.response.value)
  {
    if e.response.Some? && BodyError(e.response.value) != "" then BodyError(e.response.value) else fallback
  }

  /** The reply of a create call: the new record's id, or the error. */
  datatype Reply = Created(id: string) | Rejected(error: ApiError)

  /** What a create form's submit does: nothing is sent unless the schema passes. */
  datatype SubmitOutcome = NotSent | Navigate(path: string) | ErrorToast(message: string)

  /**
   * Formik calls `onSubmit` only for values the schema accepts; `onSubmit`
   * calls the create service once and pushes the new record's page
   * (`collection/id`), or shows the error toast.
   */
  function CreateOutcome(valid: bool, reply: Reply, collection: string, fallback: string): (o: SubmitOutcome)
    ensures !valid <==> o == NotSent
    ensures o.Navigate? <==> valid && reply.Created?
    ensures o.Navigate? ==> o.path == collection + "/" + reply.id
    ensures o.ErrorToast? ==> reply.Rejected? && o.message == CreateErrorMessage(reply.error, fallback)
    ensures o.ErrorToast? && fallback != "" ==> o.message != ""
  {
    if !valid then NotSent
    else match reply
      case Created(id) => Navigate(collection + "/" + id)
      case Rejected(e) => ErrorToast(CreateErrorMessage(e, fallback))
  }
}
