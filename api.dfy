/**
 * What every version of the form exchanges with `POST {API}/api/summary`.
 * The network is not modelled: the outcome of a request is a value the
 * caller supplies.
 */
module Api {
  import opened Wrappers
  import opened JsText

  datatype Lang = KO | EN

  /** The JSON body `{file_id, pdf_url, query, lang}` a request sends. */
  datatype Request = Request(fileId: JsString, pdfUrl: JsString, query: JsString, lang: Lang)

  /**
   * The parsed JSON reply. Each field is None when absent or null. `text` is
   * what `JSON.stringify(data)` prints for this reply.
   */
  datatype Data = Data(error: Option<JsString>, answer: Option<JsString>,
                       summary: Option<JsString>, text: JsString)

  /** The body of a reply, when `res.json()` is reached. */
  datatype Body = Unparseable(message: JsString) | Json(data: Data)

  /**
   * How one `fetch` ends: it rejects (network failure, with the error's
   * message), or it resolves with an HTTP status and a body.
   */
  datatype Response = NetworkFailure(message: JsString) | Http(status: nat, body: Body)

  /** `res.ok`. */
  predicate IsOk(status: nat) {
    200 <= status <= 299
  }

  /** JavaScript truthiness of an optional string: present and not "". */
  predicate Truthy(s: Option<JsString>) {
    s.Some? && s.value != []
  }

  /** `a || b` for an optional string. */
  function Or(a: Option<JsString>, b: JsString): JsString {
    if Truthy(a) then a.value else b
  }

  /** The query of an initial request. */
  const SummaryAll: JsString := FromString("SUMMARY_ALL")

  /** The "❗ " every user-facing error message starts with. */
  const Alert: JsString := FromString("❗ ")

  /** A log in the opposite order, for the forms that keep the newest entry first. */
  function Reverse(xs: seq<JsString>): (r: seq<JsString>)
    ensures |r| == |xs|
    ensures forall i :: 0 <= i < |xs| ==> r[i] == xs[|xs| - 1 - i]
  {
    if xs == [] then []
    else
      var r := Reverse(xs[1..]) + [xs[0]];
      assert forall i :: 0 <= i < |xs| - 1 ==> r[i] == xs[1..][|xs| - 2 - i];
      r
  }

  /**
   * One follow-up log entry: `` `Q: ${query}\nA: ${answer}` ``. It starts
   * with "Q: " and the question, and ends with the answer after a line break
   * and "A: ".
   */
  function Entry(query: JsString, answer: JsString): (e: JsString)
    ensures |e| == 3 + |query| + 4 + |answer|
    ensures e[..3] == FromString("Q: ") && e[3..3 + |query|] == query
    ensures e[3 + |query|..7 + |query|] == FromString("\nA: ") && e[7 + |query|..] == answer
  {
    FromString("Q: ") + query + FromString("\nA: ") + answer
  }
}
