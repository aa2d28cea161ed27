/** The inbound webhook call: its form fields, the tag list, the method gate
    and the text of the response. */
module Request {
  import opened Text

  /** The form fields the monitoring service posts. An absent field reads as "". */
  datatype Request = Request(
    name: string,
    testMethod: string,
    testId: string,
    status: string,
    statusCode: string,
    url: string,
    ip: string,
    tags: string)

  datatype Response = Response(status: int, body: string)

  const WebsiteMethod: string := "Website"
  const RejectionBody: string := "Method is not a website uptime. Exiting..."
  const GenericBody: string := "This HTTP triggered function executed successfully."

  /** Only website uptime tests are processed. */
  predicate IsWebsite(req: Request)
  {
    req.testMethod == WebsiteMethod
  }

  /** The answer to a call whose method is not a website uptime test. */
  const Rejection: Response := Response(400, RejectionBody)

  /** The tag list: the `Tags` field split at commas, or no tags when it is empty. */
  function TagsOf(raw: string): (tags: seq<string>)
    ensures raw == "" <==> tags == []
    ensures Join(tags, ',') == raw
    ensures forall k :: 0 <= k < |tags| ==> ',' !in tags[k]
  {
    if raw == "" then [] else JoinSplit(raw, ','); SplitPiecesFree(raw, ','); Split(raw, ',')
  }

  /** The summary the handler answers with, given the text it prints for the tags. */
  function Summary(req: Request, tagsText: string): string
  {
    "Test: '" + req.name + "' was triggered. Status: " + req.status + "(" + req.statusCode + ")" +
    " \n URL: " + req.url + " IP: " + req.ip + "\n Tags: " + tagsText +
    " \n Method: " + req.testMethod + " TestID: " + req.testId
  }

  /** The body of the success response: a summary of the call when it names a
      test, a generic sentence otherwise. The tag list prints as a JavaScript
      array does, joined with commas. */
  function ResponseMessage(req: Request): string
  {
    if req.name != "" then Summary(req, Join(TagsOf(req.tags), ',')) else GenericBody
  }

  /** The summary echoes the `Tags` field exactly as it was received. */
  lemma ResponseEchoesTags(req: Request)
    requires req.name != ""
    ensures ResponseMessage(req) == Summary(req, req.tags)
  {
  }
}
