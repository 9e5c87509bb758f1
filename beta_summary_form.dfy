/**
 * The form in `src/components/PdfSummaryForm-beta.tsx`: two loading flags,
 * failures reported in `errorMsg` with a message of their own for 404 and
 * 422 and one fixed message for transport failures, follow-up answers
 * prepended to the log, and an initial summary taken from `data.summary`.
 */
module BetaSummaryForm {
  import opened Wrappers
  import opened JsText
  import opened Numerals
  import opened Api
  import FileId

  /** The component state `callApi` and the handlers read and write. */
  datatype State = State(
    pdfUrl: JsString,
    summary: JsString,
    followup: JsString,          // the follow-up question being typed
    followupLog: seq<JsString>,
    lang: Lang,
    isSummarizing: bool,
    isFollowupLoading: bool,
    errorMsg: JsString,
    fileId: Option<JsString>)    // fileIdRef.current; None is null

  /** The state of a freshly mounted form. */
  function Initial(): State {
    State([], [], [], [], KO, false, false, [], None)
  }

  const NotFound: JsString := FromString("❗ PDF를 찾을 수 없습니다.")
  const Invalid: JsString := FromString("❗ 요청 정보가 잘못되었습니다.")
  const NetworkError: JsString := FromString("❗ 요청 실패: 네트워크 오류 또는 서버 미응답")

  /** `` `❗ 서버 오류 (${res.status})` ``. */
  function ServerError(status: nat): JsString {
    FromString("❗ 서버 오류 (") + Decimal(status) + FromString(")")
  }

  /** The message shown for a reply that is not `res.ok`. */
  function HttpMessage(status: nat): JsString {
    if status == 404 then NotFound
    else if status == 422 then Invalid
    else ServerError(status)
  }

  /** How the `try` block of `callApi` ends: with a message to show, or with the reply's data. */
  datatype Outcome = Failed(message: JsString) | Answered(data: Data)

  /**
   * What `callApi` makes of a response. It yields the reply's data exactly
   * for an OK reply whose data has no truthy `error`; an OK reply with one
   * gets "❗ " and that error. A reply that is not OK gets its status
   * message; a rejected fetch or `res.json()` lands in
   * `catch` and gets the fixed network message.
   */
  function Evaluate(r: Response): (o: Outcome)
    ensures o.Answered? <==> r.Http? && IsOk(r.status) && r.body.Json? && !Truthy(r.body.data.error)
    ensures o.Answered? ==> o.data == r.body.data
    ensures r.Http? && !IsOk(r.status) ==> o == Failed(HttpMessage(r.status))
    ensures r.NetworkFailure? || (r.Http? && IsOk(r.status) && r.body.Unparseable?) ==> o == Failed(NetworkError)
    ensures r.Http? && IsOk(r.status) && r.body.Json? && Truthy(r.body.data.error) ==> o == Failed(Alert + r.body.data.error.value)
  {
    match r
    case NetworkFailure(_) => Failed(NetworkError)
    case Http(status, body) =>
      if !IsOk(status) then Failed(HttpMessage(status))
      else
        match body
        case Unparseable(_) => Failed(NetworkError)
        case Json(d) => if Truthy(d.error) then Failed(Alert + d.error.value) else Answered(d)
  }

  /** `data.answer ?? data.summary ?? JSON.stringify(data)`. */
  function Result(d: Data): JsString {
    d.answer.GetOr(d.summary.GetOr(d.text))
  }

  /** `setLoading(true)` on the flag of this kind of request, and `setErrorMsg('')`. */
  function Begin(s: State, isFollowup: bool): State {
    if isFollowup then s.(isFollowupLoading := true, errorMsg := [])
    else s.(isSummarizing := true, errorMsg := [])
  }

  /** The rest of `callApi`: apply the outcome, then `finally { setLoading(false) }`. */
  function Settle(s: State, query: JsString, isFollowup: bool, o: Outcome): State {
    var t :=
      match o
      case Failed(m) => s.(errorMsg := m)
      case Answered(d) =>
        if isFollowup then s.(followupLog := [Entry(query, Result(d))] + s.followupLog)
        else s.(summary := d.summary.GetOr([]), followupLog := []);
    if isFollowup then t.(isFollowupLoading := false) else t.(isSummarizing := false)
  }

  /**
   * One run of `callApi(query, isFollowup, fileId)` that receives `r`, as one
   * atomic transition. It never touches the URL, the question being typed,
   * the language or the stored id, and it ends with its loading flag down.
   */
  function AfterCallApi(s: State, query: JsString, isFollowup: bool, r: Response): (t: State)
    ensures t.pdfUrl == s.pdfUrl && t.followup == s.followup && t.lang == s.lang && t.fileId == s.fileId
    ensures isFollowup ==> !t.isFollowupLoading && t.isSummarizing == s.isSummarizing
    ensures !isFollowup ==> !t.isSummarizing && t.isFollowupLoading == s.isFollowupLoading
  {
    Settle(Begin(s, isFollowup), query, isFollowup, Evaluate(r))
  }

  /** The request `callApi` sends. */
  function SentRequest(s: State, query: JsString, fileId: JsString): Request {
    Request(fileId, s.pdfUrl, query, s.lang)
  }

  /**
   * `generateFileId(url)`: the prefix, the hex hash of the trimmed,
   * lower-cased URL and its base name. It yields the same id as `genId` in
   * the hash-based form, and the id reads back into its two parts.
   */
  function GenerateFileId(url: JsString): (id: JsString)
    ensures id == FileId.IdOf(url)
    ensures FileId.SplitId(id) == Some((Hex(FileId.Hash(FileId.Normalize(url))), FileId.BaseName(FileId.Normalize(url))))
  {
    var normalized := FileId.Normalize(url);
    var baseName := FileId.BaseName(normalized);
    FileId.Prefix + Hex(FileId.Hash(normalized)) + [Underscore] + baseName
  }

  /** `handleInitialSummary`: store the id of the current URL, then ask for the summary. */
  function AfterHandleInitialSummary(s: State, r: Response): (t: State)
    ensures t.fileId == Some(GenerateFileId(s.pdfUrl))
  {
    AfterCallApi(s.(fileId := Some(GenerateFileId(s.pdfUrl))), SummaryAll, false, r)
  }

  /** An id computed as `genId` does is the one `handleInitialSummary` stores. */
  lemma StoredIdIsGenerated(s: State, fid: JsString, r: Response)
    requires fid == FileId.IdOf(s.pdfUrl)
    ensures GenerateFileId(s.pdfUrl) == fid
    ensures AfterHandleInitialSummary(s, r) == AfterCallApi(s.(fileId := Some(fid)), SummaryAll, false, r)
  {
  }

  /** `handleFollowup`: ask the typed question, if an id is stored. */
  function AfterHandleFollowup(s: State, r: Response): (t: State)
    ensures !Truthy(s.fileId) ==> t == s
  {
    if !Truthy(s.fileId) then s else AfterCallApi(s, s.followup, true, r)
  }

  // ------------------------------------------------------------ properties

  /**
   * While the request is out only the flag of its kind is raised; the other
   * flag keeps its value before and after, and the raised flag is lowered on
   * every way out.
   */
  lemma LoadingFlags(s: State, query: JsString, isFollowup: bool, r: Response)
    ensures isFollowup ==> Begin(s, true).isFollowupLoading && Begin(s, true).isSummarizing == s.isSummarizing
    ensures !isFollowup ==> Begin(s, false).isSummarizing && Begin(s, false).isFollowupLoading == s.isFollowupLoading
    ensures var t := AfterCallApi(s, query, isFollowup, r);
      && (isFollowup ==> !t.isFollowupLoading && t.isSummarizing == s.isSummarizing)
      && (!isFollowup ==> !t.isSummarizing && t.isFollowupLoading == s.isFollowupLoading)
  {
  }

  /** The old error message has no effect: it is cleared before each request. */
  lemma CallApiForgetsError(s: State, e: JsString, query: JsString, isFollowup: bool, r: Response)
    ensures AfterCallApi(s.(errorMsg := e), query, isFollowup, r) == AfterCallApi(s, query, isFollowup, r)
  {
  }

  /**
   * A reply that is not OK shows one of three messages (404, 422, any other
   * status with its number) and leaves the summary and the log alone.
   */
  lemma HttpFailureReported(s: State, query: JsString, isFollowup: bool, status: nat, body: Body)
    requires !IsOk(status)
    ensures var t := AfterCallApi(s, query, isFollowup, Http(status, body));
      && t.summary == s.summary && t.followupLog == s.followupLog
      && (status == 404 ==> t.errorMsg == FromString("❗ PDF를 찾을 수 없습니다."))
      && (status == 422 ==> t.errorMsg == FromString("❗ 요청 정보가 잘못되었습니다."))
      && (status != 404 && status != 422 ==>
            t.errorMsg == FromString("❗ 서버 오류 (") + Decimal(status) + FromString(")"))
  {
  }

  /** A truthy `data.error` is shown after "❗ "; only the flag of the request changes besides. */
  lemma ErrorFieldReported(s: State, query: JsString, isFollowup: bool, status: nat, d: Data)
    requires IsOk(status) && Truthy(d.error)
    ensures AfterCallApi(s, query, isFollowup, Http(status, Json(d)))
         == (if isFollowup then s.(isFollowupLoading := false) else s.(isSummarizing := false))
              .(errorMsg := Alert + d.error.value)
  {
  }

  /** A rejected fetch or an unreadable body shows the fixed network message, whatever the error said. */
  lemma TransportFailureReported(s: State, query: JsString, isFollowup: bool, r: Response)
    requires r.NetworkFailure? || (IsOk(r.status) && r.body.Unparseable?)
    ensures var t := AfterCallApi(s, query, isFollowup, r);
      && t.errorMsg == FromString("❗ 요청 실패: 네트워크 오류 또는 서버 미응답")
      && t.summary == s.summary && t.followupLog == s.followupLog
  {
  }

  /**
   * An initial summary stores `data.summary ?? ''`, not the answer-preferring
   * result, and empties the log: a reply with only an `answer` leaves the
   * summary empty.
   */
  lemma InitialSummaryUsesSummaryField(s: State, query: JsString, status: nat, d: Data)
    requires IsOk(status) && !Truthy(d.error)
    ensures var t := AfterCallApi(s, query, false, Http(status, Json(d)));
      && t.summary == (if d.summary.Some? then d.summary.value else [])
      && t.followupLog == [] && t.errorMsg == []
    ensures d.answer.Some? && d.summary.None? ==> AfterCallApi(s, query, false, Http(status, Json(d))).summary == []
  {
  }

  /**
   * A successful follow-up puts `Q: <q>\nA: <result>` in front of the log and
   * leaves the summary alone; the result prefers a present `answer`, even "".
   */
  lemma FollowupPrepends(s: State, q: JsString, status: nat, d: Data)
    requires IsOk(status) && !Truthy(d.error)
    ensures var t := AfterCallApi(s, q, true, Http(status, Json(d)));
      && t.followupLog == [Entry(q, Result(d))] + s.followupLog
      && t.summary == s.summary && t.errorMsg == []
    ensures d.answer.Some? ==> Result(d) == d.answer.value
    ensures d.answer.None? ==> Result(d) == if d.summary.Some? then d.summary.value else d.text
  {
  }

  /** `handleFollowup` does nothing without a stored id, and asks the typed question with it. */
  lemma HandleFollowupGuard(s: State, r: Response)
    ensures !Truthy(s.fileId) ==> AfterHandleFollowup(s, r) == s
    ensures Truthy(s.fileId) ==> AfterHandleFollowup(s, r) == AfterCallApi(s, s.followup, true, r)
  {
  }

  // ------------------------------------------------------------ sessions

  /** A series of `handleFollowup` calls, each with the question typed and the response it gets. */
  function FollowAll(s: State, asks: seq<(JsString, Response)>): State
    decreases |asks|
  {
    if asks == [] then s
    else FollowAll(AfterHandleFollowup(s.(followup := asks[0].0), asks[0].1), asks[1..])
  }

  predicate AllAnswered(asks: seq<(JsString, Response)>) {
    forall i :: 0 <= i < |asks| ==> Evaluate(asks[i].1).Answered?
  }

  /** The log entries of answered asks, in the order they were asked. */
  function Entries(asks: seq<(JsString, Response)>): (es: seq<JsString>)
    requires AllAnswered(asks)
    ensures |es| == |asks|
    ensures forall i :: 0 <= i < |asks| ==> es[i] == Entry(asks[i].0, Result(Evaluate(asks[i].1).data))
  {
    if asks == [] then [] else [Entry(asks[0].0, Result(Evaluate(asks[0].1).data))] + Entries(asks[1..])
  }

  /** After answered follow-ups the log holds the new entries newest first, in front of the old log. */
  lemma {:induction false} FollowAllNewestFirst(s: State, asks: seq<(JsString, Response)>)
    requires Truthy(s.fileId) && AllAnswered(asks)
    ensures var t := FollowAll(s, asks);
      t.followupLog == Reverse(Entries(asks)) + s.followupLog && t.summary == s.summary && t.fileId == s.fileId
    decreases |asks|
  {
    if asks != [] {
      var s1 := AfterHandleFollowup(s.(followup := asks[0].0), asks[0].1);
      assert AllAnswered(asks[1..]) by {
        forall i | 0 <= i < |asks[1..]| ensures Evaluate(asks[1..][i].1).Answered? {
          assert asks[1..][i] == asks[i + 1];
        }
      }
      FollowAllNewestFirst(s1, asks[1..]);
      var e := Entries(asks);
      assert e == [e[0]] + Entries(asks[1..]);
      assert Reverse(e) == Reverse(Entries(asks[1..])) + [e[0]];
    }
  }

  // ------------------------------------------------------------ the component

  /** The form's state fields and `fileIdRef`, updated in place by its methods. */
  class Form {
    var pdfUrl: JsString
    var summary: JsString
    var followup: JsString
    var followupLog: seq<JsString>
    var lang: Lang
    var isSummarizing: bool
    var isFollowupLoading: bool
    var errorMsg: JsString
    var fileIdRef: Option<JsString>

    function Snapshot(): State
      reads this
    {
      State(pdfUrl, summary, followup, followupLog, lang, isSummarizing, isFollowupLoading, errorMsg, fileIdRef)
    }

    constructor ()
      ensures Snapshot() == Initial()
    {
      pdfUrl, summary, followup, followupLog, lang := [], [], [], [], KO;
      isSummarizing, isFollowupLoading, errorMsg, fileIdRef := false, false, [], None;
    }

    /** `setLoading(value)` with `setLoading` chosen by `isFollowup`. */
    method SetLoading(isFollowup: bool, value: bool)
      modifies this
      ensures Snapshot() == if isFollowup then old(Snapshot()).(isFollowupLoading := value)
                            else old(Snapshot()).(isSummarizing := value)
    {
      if isFollowup {
        isFollowupLoading := value;
      } else {
        isSummarizing := value;
      }
    }

    /** `callApi(query, isFollowup, fileId)` receiving `response`; returns the request it sends. */
    method CallApi(query: JsString, isFollowup: bool, fileId: JsString, response: Response) returns (sent: Request)
      modifies this
      ensures sent == SentRequest(old(Snapshot()), query, fileId)
      ensures Snapshot() == AfterCallApi(old(Snapshot()), query, isFollowup, response)
    {
      SetLoading(isFollowup, true);
      errorMsg := [];
      sent := Request(fileId, pdfUrl, query, lang);
      match response {
        case NetworkFailure(_) =>
          assert Evaluate(response) == Failed(NetworkError);
          errorMsg := NetworkError;
        case Http(code, body) =>
          if !IsOk(code) {
            var msg := if code == 404 then NotFound else if code == 422 then Invalid else ServerError(code);
            assert Evaluate(response) == Failed(msg);
            errorMsg := msg;
          } else {
            match body {
              case Unparseable(_) =>
                assert Evaluate(response) == Failed(NetworkError);
                errorMsg := NetworkError;
              case Json(d) =>
                if Truthy(d.error) {
                  assert Evaluate(response) == Failed(Alert + d.error.value);
                  errorMsg := Alert + d.error.value;
                } else {
                  assert Evaluate(response) == Answered(d);
                  var result := d.answer.GetOr(d.summary.GetOr(d.text));
                  if isFollowup {
                    followupLog := [Entry(query, result)] + followupLog;
                  } else {
                    summary := d.summary.GetOr([]);
                    followupLog := [];
                  }
                }
            }
          }
      }
      SetLoading(isFollowup, false);
    }

    /** `handleInitialSummary`. */
    method HandleInitialSummary(response: Response) returns (sent: Request)
      modifies this
      ensures sent == Request(GenerateFileId(old(pdfUrl)), old(pdfUrl), SummaryAll, old(lang))
      ensures Snapshot() == AfterHandleInitialSummary(old(Snapshot()), response)
    {
      ghost var s0 := Snapshot();
      var fid := FileId.GenId(pdfUrl);
      StoredIdIsGenerated(s0, fid, response);
      fileIdRef := Some(fid);
      sent := CallApi(SummaryAll, false, fid, response);
    }

    /** `handleFollowup`; returns the request it sends, if any. */
    method HandleFollowup(response: Response) returns (sent: Option<Request>)
      modifies this
      ensures sent == if Truthy(old(fileIdRef)) then Some(SentRequest(old(Snapshot()), old(followup), old(fileIdRef).value)) else None
      ensures Snapshot() == AfterHandleFollowup(old(Snapshot()), response)
    {
      if !Truthy(fileIdRef) {
        return None;
      }
      var request := CallApi(followup, true, fileIdRef.value, response);
      sent := Some(request);
    }
  }
}
