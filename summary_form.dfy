/**
 * The form in `src/components/PdfSummaryForm/PdfSummaryForm.tsx`: one
 * `status` field instead of two loading flags, every failure reported in
 * `error` as "❗ " plus the thrown message, follow-up answers prepended to
 * the log, and a `phase` that switches to the result view after a summary.
 */
module SummaryForm {
  import opened Wrappers
  import opened JsText
  import opened Numerals
  import opened Api
  import FileId

  datatype Phase = Input | Summary
  datatype Status = Idle | LoadingSummary | LoadingFollowup | SubmittingFeedback

  /** The component state `callApi` and the handlers read and write. */
  datatype State = State(
    phase: Phase,
    status: Status,
    error: JsString,
    pdfUrl: JsString,
    lang: Lang,
    summary: JsString,
    followupLog: seq<JsString>,
    fileId: Option<JsString>)  // fileIdRef.current; None is null

  /** The state of a freshly mounted form. */
  function Initial(): State {
    State(Input, Idle, [], [], KO, [], [], None)
  }

  /** How the `try` block of `callApi` ends: with an answer, or by throwing an Error. */
  datatype Outcome = Answer(text: JsString) | Thrown(message: JsString)

  const NotFound: JsString := FromString("PDF를 찾을 수 없습니다.")

  /** `` `서버 오류 (${res.status})` ``. */
  function ServerError(status: nat): JsString {
    FromString("서버 오류 (") + Decimal(status) + FromString(")")
  }

  /** The message thrown for a reply that is not `res.ok`. */
  function HttpMessage(status: nat): JsString {
    if status == 404 then NotFound else ServerError(status)
  }

  /**
   * What the `try` block makes of a response. It yields an answer exactly
   * for an OK reply whose parsed data has no truthy `error`, and that answer
   * is `data.answer ?? data.summary ?? JSON.stringify(data)`. A reply that
   * is not OK throws its status message, an OK reply with a truthy `error`
   * throws that error, and a rejected fetch or `res.json()` throws its own
   * message.
   */
  function Evaluate(r: Response): (o: Outcome)
    ensures o.Answer? <==> r.Http? && IsOk(r.status) && r.body.Json? && !Truthy(r.body.data.error)
    ensures o.Answer? ==> o.text == r.body.data.answer.GetOr(r.body.data.summary.GetOr(r.body.data.text))
    ensures r.Http? && !IsOk(r.status) ==> o == Thrown(HttpMessage(r.status))
    ensures r.NetworkFailure? ==> o == Thrown(r.message)
    ensures r.Http? && r.body.Unparseable? && IsOk(r.status) ==> o == Thrown(r.body.message)
    ensures r.Http? && IsOk(r.status) && r.body.Json? && Truthy(r.body.data.error) ==> o == Thrown(r.body.data.error.value)
  {
    match r
    case NetworkFailure(m) => Thrown(m)
    case Http(status, body) =>
      if !IsOk(status) then Thrown(HttpMessage(status))
      else
        match body
        case Unparseable(m) => Thrown(m)
        case Json(d) =>
          if Truthy(d.error) then Thrown(d.error.value)
          else Answer(d.answer.GetOr(d.summary.GetOr(d.text)))
  }

  /** `setStatus(loading)` and `setError('')`, before the request goes out. */
  function Begin(s: State, follow: bool): State {
    s.(status := if follow then LoadingFollowup else LoadingSummary, error := [])
  }

  /** The rest of `callApi`: apply the outcome (or the `catch`), then `finally`. */
  function Settle(s: State, query: JsString, follow: bool, o: Outcome): State {
    var t :=
      match o
      case Thrown(m) => s.(error := Alert + m)
      case Answer(a) =>
        if follow then s.(followupLog := [Entry(query, a)] + s.followupLog)
        else s.(summary := a, followupLog := [], phase := Summary);
    t.(status := Idle)
  }

  /**
   * One run of `callApi(query, follow)` that receives `r`, as one atomic
   * transition. It never touches the URL, the language or the stored id.
   */
  function AfterCallApi(s: State, query: JsString, follow: bool, r: Response): (t: State)
    ensures t.pdfUrl == s.pdfUrl && t.lang == s.lang && t.fileId == s.fileId
    ensures Truthy(s.fileId) ==> t.status == Idle
    ensures !Truthy(s.fileId) ==> t == s
  {
    if !Truthy(s.fileId) then s
    else Settle(Begin(s, follow), query, follow, Evaluate(r))
  }

  /** The request `callApi` sends, if it gets past the guard. */
  function SentRequest(s: State, query: JsString): Option<Request> {
    if Truthy(s.fileId) then Some(Request(s.fileId.value, s.pdfUrl, query, s.lang)) else None
  }

  /** `handleSummary`: store the id of the current URL, then ask for the summary. */
  function AfterHandleSummary(s: State, r: Response): (t: State)
    ensures t.fileId == Some(FileId.IdOf(s.pdfUrl))
    ensures t.status == Idle
  {
    AfterCallApi(s.(fileId := Some(FileId.IdOf(s.pdfUrl))), SummaryAll, false, r)
  }

  /**
   * `handleAsk(q)`: a follow-up request. It never changes the summary, the
   * phase, the URL, the language or the stored id.
   */
  function AfterHandleAsk(s: State, q: JsString, r: Response): (t: State)
    ensures t.summary == s.summary && t.phase == s.phase
    ensures t.pdfUrl == s.pdfUrl && t.lang == s.lang && t.fileId == s.fileId
  {
    AfterCallApi(s, q, true, r)
  }

  // ------------------------------------------------------------ properties

  /** Without a stored id, `callApi` returns at once and nothing changes. */
  lemma CallApiWithoutFileId(s: State, query: JsString, follow: bool, r: Response)
    requires !Truthy(s.fileId)
    ensures AfterCallApi(s, query, follow, r) == s
    ensures SentRequest(s, query).None?
  {
  }

  /**
   * The error is cleared and the status set before the request, so neither
   * the old error nor the old status has any effect on the new state.
   */
  lemma CallApiForgetsErrorAndStatus(s: State, e: JsString, st: Status, query: JsString, follow: bool, r: Response)
    requires Truthy(s.fileId)
    ensures AfterCallApi(s.(error := e, status := st), query, follow, r) == AfterCallApi(s, query, follow, r)
    ensures AfterCallApi(s, query, follow, r).status == Idle
  {
  }

  /**
   * A reply that is not OK reports "PDF를 찾을 수 없습니다." for 404 and
   * "서버 오류 (<status>)" for every other status, and changes nothing else.
   */
  lemma HttpFailureReported(s: State, query: JsString, follow: bool, status: nat, body: Body)
    requires Truthy(s.fileId) && !IsOk(status)
    ensures var t := AfterCallApi(s, query, follow, Http(status, body));
      && t == s.(status := Idle, error := t.error)
      && (status == 404 ==> t.error == Alert + FromString("PDF를 찾을 수 없습니다."))
      && (status != 404 ==> t.error == Alert + FromString("서버 오류 (") + Decimal(status) + FromString(")"))
  {
  }

  /** 422 has no message of its own here: it is reported as a server error. */
  lemma Http422IsServerError(s: State, query: JsString, follow: bool, body: Body)
    requires Truthy(s.fileId)
    ensures AfterCallApi(s, query, follow, Http(422, body)).error == Alert + ServerError(422)
  {
  }

  /** A truthy `data.error` is shown after "❗ " and nothing else changes. */
  lemma ErrorFieldReported(s: State, query: JsString, follow: bool, status: nat, d: Data)
    requires Truthy(s.fileId) && IsOk(status) && Truthy(d.error)
    ensures AfterCallApi(s, query, follow, Http(status, Json(d)))
         == s.(status := Idle, error := Alert + d.error.value)
  {
  }

  /** A failed fetch or an unreadable body shows the thrown message after "❗ ". */
  lemma TransportFailureReported(s: State, query: JsString, follow: bool, r: Response)
    requires Truthy(s.fileId)
    requires r.NetworkFailure? || (IsOk(r.status) && r.body.Unparseable?)
    ensures AfterCallApi(s, query, follow, r)
         == s.(status := Idle, error := Alert + (if r.NetworkFailure? then r.message else r.body.message))
  {
  }

  /**
   * `data.answer ?? data.summary ?? JSON.stringify(data)`: a present answer
   * wins even when it is the empty string; then the summary; then the text.
   */
  lemma AnswerPreference(status: nat, d: Data)
    requires IsOk(status) && !Truthy(d.error)
    ensures d.answer.Some? ==> Evaluate(Http(status, Json(d))) == Answer(d.answer.value)
    ensures d.answer.None? && d.summary.Some? ==> Evaluate(Http(status, Json(d))) == Answer(d.summary.value)
    ensures d.answer.None? && d.summary.None? ==> Evaluate(Http(status, Json(d))) == Answer(d.text)
  {
  }

  /**
   * A successful follow-up puts its entry in front of the log; the older
   * entries follow in their order; summary and phase stay as they were.
   */
  lemma FollowupPrepends(s: State, q: JsString, r: Response, a: JsString)
    requires Truthy(s.fileId) && Evaluate(r) == Answer(a)
    ensures var t := AfterCallApi(s, q, true, r);
      && |t.followupLog| == |s.followupLog| + 1
      && t.followupLog[0] == Entry(q, a)
      && t.followupLog[1..] == s.followupLog
      && t.summary == s.summary && t.phase == s.phase && t.error == []
  {
  }

  /** A successful summary request shows the result, empties the log and switches to the result view. */
  lemma SummaryReplaces(s: State, query: JsString, r: Response, a: JsString)
    requires Truthy(s.fileId) && Evaluate(r) == Answer(a)
    ensures var t := AfterCallApi(s, query, false, r);
      t.summary == a && t.followupLog == [] && t.phase == Summary && t.error == []
  {
  }

  /** `handleSummary` stores the id and then runs `callApi('SUMMARY_ALL')`, which sends it. */
  lemma HandleSummaryStoresId(s: State, id: JsString, r: Response)
    requires id == FileId.IdOf(s.pdfUrl)
    ensures AfterHandleSummary(s, r) == AfterCallApi(s.(fileId := Some(id)), SummaryAll, false, r)
    ensures SentRequest(s.(fileId := Some(id)), SummaryAll) == Some(Request(id, s.pdfUrl, SummaryAll, s.lang))
  {
  }

  /** `handleSummary` always gets past the guard: the id it stores is never empty. */
  lemma HandleSummarySends(s: State)
    ensures SentRequest(s.(fileId := Some(FileId.IdOf(s.pdfUrl))), SummaryAll)
         == Some(Request(FileId.IdOf(s.pdfUrl), s.pdfUrl, SummaryAll, s.lang))
  {
  }

  // ------------------------------------------------------------ sessions

  /** A series of `handleAsk` calls, each with its question and its response. */
  function AskAll(s: State, asks: seq<(JsString, Response)>): State
    decreases |asks|
  {
    if asks == [] then s else AskAll(AfterHandleAsk(s, asks[0].0, asks[0].1), asks[1..])
  }

  predicate AllAnswered(asks: seq<(JsString, Response)>) {
    forall i :: 0 <= i < |asks| ==> Evaluate(asks[i].1).Answer?
  }

  /** The log entries of answered asks, in the order they were asked. */
  function Entries(asks: seq<(JsString, Response)>): (es: seq<JsString>)
    requires AllAnswered(asks)
    ensures |es| == |asks|
    ensures forall i :: 0 <= i < |asks| ==> es[i] == Entry(asks[i].0, Evaluate(asks[i].1).text)
  {
    if asks == [] then [] else [Entry(asks[0].0, Evaluate(asks[0].1).text)] + Entries(asks[1..])
  }

  /**
   * After answered follow-ups the newest entry comes first: the log is the
   * entries in reverse order of asking, in front of the old log. The summary,
   * the phase and the stored id do not change.
   */
  lemma {:induction false} AskAllNewestFirst(s: State, asks: seq<(JsString, Response)>)
    decreases |asks|
    requires Truthy(s.fileId) && AllAnswered(asks)
    ensures var t := AskAll(s, asks);
      && t.followupLog == Reverse(Entries(asks)) + s.followupLog
      && t.summary == s.summary && t.phase == s.phase && t.fileId == s.fileId
  {
    if asks != [] {
      var s1 := AfterHandleAsk(s, asks[0].0, asks[0].1);
      assert AllAnswered(asks[1..]) by {
        forall i | 0 <= i < |asks[1..]| ensures Evaluate(asks[1..][i].1).Answer? {
          assert asks[1..][i] == asks[i + 1];
        }
      }
      AskAllNewestFirst(s1, asks[1..]);
      var e := Entries(asks);
      assert e == [e[0]] + Entries(asks[1..]);
      assert Reverse(e) == Reverse(Entries(asks[1..])) + [e[0]];
    }
  }

  // ------------------------------------------------------------ the component

  /** The form's state fields and `fileIdRef`, updated in place by its methods. */
  class Form {
    var phase: Phase
    var status: Status
    var error: JsString
    var pdfUrl: JsString
    var lang: Lang
    var summary: JsString
    var followupLog: seq<JsString>
    var fileIdRef: Option<JsString>

    function Snapshot(): State
      reads this
    {
      State(phase, status, error, pdfUrl, lang, summary, followupLog, fileIdRef)
    }

    constructor ()
      ensures Snapshot() == Initial()
    {
      phase, status, error, pdfUrl, lang := Input, Idle, [], [], KO;
      summary, followupLog, fileIdRef := [], [], None;
    }

    /** `callApi(query, follow)` receiving `response`; returns the request it sends. */
    method CallApi(query: JsString, follow: bool, response: Response) returns (sent: Option<Request>)
      modifies this
      ensures sent == SentRequest(old(Snapshot()), query)
      ensures Snapshot() == AfterCallApi(old(Snapshot()), query, follow, response)
    {
      if !Truthy(fileIdRef) {
        return None;
      }
      status := if follow then LoadingFollowup else LoadingSummary;
      error := [];
      sent := Some(Request(fileIdRef.value, pdfUrl, query, lang));
      var thrown: Option<JsString> := None;
      match response {
        case NetworkFailure(m) =>
          thrown := Some(m);
        case Http(code, body) =>
          if !IsOk(code) {
            thrown := Some(if code == 404 then NotFound else ServerError(code));
          } else {
            match body {
              case Unparseable(m) =>
                thrown := Some(m);
              case Json(d) =>
                if Truthy(d.error) {
                  thrown := Some(d.error.value);
                } else {
                  var answer := d.answer.GetOr(d.summary.GetOr(d.text));
                  if follow {
                    followupLog := [Entry(query, answer)] + followupLog;
                  } else {
                    summary := answer;
                    followupLog := [];
                    phase := Summary;
                  }
                }
            }
          }
      }
      if thrown.Some? {
        error := Alert + thrown.value;
      }
      status := Idle;
    }

    /** `handleSummary`. */
    method HandleSummary(response: Response) returns (sent: Option<Request>)
      modifies this
      ensures sent == Some(Request(FileId.IdOf(old(pdfUrl)), old(pdfUrl), SummaryAll, old(lang)))
      ensures Snapshot() == AfterHandleSummary(old(Snapshot()), response)
    {
      ghost var s0 := Snapshot();
      var id := FileId.GenId(pdfUrl);
      HandleSummaryStoresId(s0, id, response);
      fileIdRef := Some(id);
      sent := CallApi(SummaryAll, false, response);
    }

    /** `handleAsk(q)`. */
    method HandleAsk(q: JsString, response: Response) returns (sent: Option<Request>)
      modifies this
      ensures sent == SentRequest(old(Snapshot()), q)
      ensures Snapshot() == AfterHandleAsk(old(Snapshot()), q, response)
    {
      sent := CallApi(q, true, response);
    }
  }
}
