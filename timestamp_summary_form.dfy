/**
 * The form in `src/components/PdfSummaryForm.tsx`, the one the home page
 * renders: ids built from the clock, no error field (failures of an initial
 * request, and every transport failure, are written into `summary`), the
 * result taken from `data.summary || JSON.stringify(data)`, and follow-up
 * answers appended to the log.
 */
module TimestampSummaryForm {
  import opened Wrappers
  import opened JsText
  import opened Numerals
  import opened Api
  import FileId

  /** The component state `callApi` and the handlers read and write. */
  datatype State = State(
    pdfUrl: JsString,
    summary: JsString,
    followup: JsString,          // the follow-up question being typed
    followupLog: seq<JsString>,
    lang: Lang,
    isSummarizing: bool,
    isFollowupLoading: bool,
    fileId: Option<JsString>)    // fileIdRef.current; None is null

  /** The state of a freshly mounted form. */
  function Initial(): State {
    State([], [], [], [], KO, false, false, None)
  }

  /**
   * `generateFileId(url)` at clock reading `now` (`Date.now()`): the name
   * part comes from the raw URL, neither trimmed nor lower-cased.
   */
  function GenerateFileId(url: JsString, now: nat): (id: JsString)
    ensures |id| > 5
    ensures FileId.SplitId(id) == Some((Decimal(now), FileId.BaseName(url)))
  {
    FileId.SplitCompose(Decimal(now), FileId.BaseName(url));
    FileId.Compose(Decimal(now), FileId.BaseName(url))
  }

  /** Two ids made at different times differ, and an id tells the name part it was made from. */
  lemma GenerateFileIdDeterminesParts(u: JsString, m: nat, v: JsString, n: nat)
    requires GenerateFileId(u, m) == GenerateFileId(v, n)
    ensures m == n && FileId.BaseName(u) == FileId.BaseName(v)
  {
    ToStringInjective(m, n, 10);
  }

  /** Unlike `genId`, the name part is case-sensitive: "A" and "a" give different ids. */
  lemma GenerateFileIdIsCaseSensitive(now: nat)
    ensures GenerateFileId([0x41], now) != GenerateFileId([0x61], now)
  {
    SingleLetterBaseName(0x41);
    SingleLetterBaseName(0x61);
  }

  /** A URL of one letter is its own base name. */
  lemma SingleLetterBaseName(u: CodeUnit)
    requires IsWordUnit(u)
    ensures FileId.BaseName([u]) == [u]
  {
    LastSegmentOfUnit(u);
    assert ReplaceNonWord([u]) == [u];
  }

  const NotFound: JsString := FromString("❗ PDF를 찾을 수 없습니다.")
  const Invalid: JsString := FromString("❗ 요청 정보가 잘못되었습니다.")
  const RequestFailed: JsString := FromString("❗ 요약 요청 실패")
  const NetworkError: JsString := FromString("❗ 요약 실패: 네트워크 오류 또는 서버 에러")

  /** The message for a reply that is not `res.ok`. */
  function HttpMessage(status: nat): JsString {
    if status == 404 then NotFound
    else if status == 422 then Invalid
    else RequestFailed
  }

  /** How the `try` block of `callApi` ends. */
  datatype Outcome = HttpFailed(message: JsString) | Crashed | Answered(result: JsString)

  /**
   * What `callApi` makes of a response: `data.error` and `data.answer` are
   * never looked at; a rejected fetch or `res.json()` lands in `catch`.
   */
  function Evaluate(r: Response): (o: Outcome)
    ensures o.Answered? <==> r.Http? && IsOk(r.status) && r.body.Json?
    ensures o.Answered? ==> o.result == Or(r.body.data.summary, r.body.data.text)
    ensures r.Http? && !IsOk(r.status) ==> o == HttpFailed(HttpMessage(r.status))
    ensures o.Crashed? <==> r.NetworkFailure? || (r.Http? && IsOk(r.status) && r.body.Unparseable?)
  {
    match r
    case NetworkFailure(_) => Crashed
    case Http(status, body) =>
      if !IsOk(status) then HttpFailed(HttpMessage(status))
      else
        match body
        case Unparseable(_) => Crashed
        case Json(d) => Answered(Or(d.summary, d.text))
  }

  /** `setLoading(true)` on the flag of this kind of request. */
  function Begin(s: State, isFollowup: bool): State {
    if isFollowup then s.(isFollowupLoading := true) else s.(isSummarizing := true)
  }

  /** The rest of `callApi`: apply the outcome, then `finally { setLoading(false) }`. */
  function Settle(s: State, query: JsString, isFollowup: bool, o: Outcome): State {
    var t :=
      match o
      case HttpFailed(m) => if isFollowup then s else s.(summary := m)
      case Crashed => s.(summary := NetworkError)
      case Answered(a) =>
        if isFollowup then s.(followupLog := s.followupLog + [Entry(query, a)])
        else s.(summary := a, followupLog := []);
    if isFollowup then t.(isFollowupLoading := false) else t.(isSummarizing := false)
  }

  /**
   * One run of `callApi(query, isFollowup, fileId)` that receives `r`, as one
   * atomic transition. It never touches the URL, the question being typed,
   * the language or the stored id, and it ends with its loading flag down.
   */
  function AfterCallApi(s: State, query: JsString, isFollowup: bool, r: Response): (t: State)
    ensures t.pdfUrl == s.pdfUrl && t.followup == s.followup && t.lang == s.lang && t.fileId == s.fileId
    ensures isFollowup ==> !t.isFollowupLoading && t.isSummarizing == s.isSummarizing
    ensures !isFollowup ==> !t.isSummarizing && t.isFollowupLoading == s.isFollowupLoading
  {
    Settle(Begin(s, isFollowup), query, isFollowup, Evaluate(r))
  }

  /** The request `callApi` sends. */
  function SentRequest(s: State, query: JsString, fileId: JsString): Request {
    Request(fileId, s.pdfUrl, query, s.lang)
  }

  /** `handleInitialSummary` at clock reading `now`. */
  function AfterHandleInitialSummary(s: State, now: nat, r: Response): (t: State)
    ensures t.fileId == Some(GenerateFileId(s.pdfUrl, now))
  {
    AfterCallApi(s.(fileId := Some(GenerateFileId(s.pdfUrl, now))), SummaryAll, false, r)
  }

  /** `handleFollowup`: ask the typed question, if an id is stored. */
  function AfterHandleFollowup(s: State, r: Response): (t: State)
    ensures !Truthy(s.fileId) ==> t == s
  {
    if !Truthy(s.fileId) then s else AfterCallApi(s, s.followup, true, r)
  }

  // ------------------------------------------------------------ properties

  /**
   * While the request is out only the flag of its kind is raised; the other
   * flag keeps its value before and after, and the raised flag is lowered on
   * every way out.
   */
  lemma LoadingFlags(s: State, query: JsString, isFollowup: bool, r: Response)
    ensures isFollowup ==> Begin(s, true).isFollowupLoading && Begin(s, true).isSummarizing == s.isSummarizing
    ensures !isFollowup ==> Begin(s, false).isSummarizing && Begin(s, false).isFollowupLoading == s.isFollowupLoading
    ensures var t := AfterCallApi(s, query, isFollowup, r);
      && (isFollowup ==> !t.isFollowupLoading && t.isSummarizing == s.isSummarizing)
      && (!isFollowup ==> !t.isSummarizing && t.isFollowupLoading == s.isFollowupLoading)
  {
  }

  /**
   * A reply that is not OK writes its message (404, 422, or "❗ 요약 요청 실패")
   * into the summary of an initial request; a follow-up changes nothing but
   * its loading flag.
   */
  lemma HttpFailureReported(s: State, query: JsString, isFollowup: bool, status: nat, body: Body)
    requires !IsOk(status)
    ensures var t := AfterCallApi(s, query, isFollowup, Http(status, body));
      && (isFollowup ==> t == s.(isFollowupLoading := false))
      && (!isFollowup ==> t == s.(isSummarizing := false, summary := t.summary))
      && (!isFollowup && status == 404 ==> t.summary == FromString("❗ PDF를 찾을 수 없습니다."))
      && (!isFollowup && status == 422 ==> t.summary == FromString("❗ 요청 정보가 잘못되었습니다."))
      && (!isFollowup && status != 404 && status != 422 ==> t.summary == FromString("❗ 요약 요청 실패"))
  {
  }

  /**
   * A rejected fetch or an unreadable body overwrites the summary with the
   * network message, follow-up or not, and leaves the log alone.
   */
  lemma TransportFailureOverwritesSummary(s: State, query: JsString, isFollowup: bool, r: Response)
    requires r.NetworkFailure? || (IsOk(r.status) && r.body.Unparseable?)
    ensures var t := AfterCallApi(s, query, isFollowup, r);
      t.summary == FromString("❗ 요약 실패: 네트워크 오류 또는 서버 에러") && t.followupLog == s.followupLog
  {
  }

  /**
   * `data.summary || JSON.stringify(data)`: an empty or missing summary falls
   * back to the stringified reply, and `data.error` makes no difference.
   */
  lemma ResultFallsBack(status: nat, d: Data, e: Option<JsString>)
    requires IsOk(status)
    ensures Evaluate(Http(status, Json(d))) == Evaluate(Http(status, Json(d.(error := e))))
    ensures Truthy(d.summary) ==> Evaluate(Http(status, Json(d))) == Answered(d.summary.value)
    ensures !Truthy(d.summary) ==> Evaluate(Http(status, Json(d))) == Answered(d.text)
  {
  }

  /**
   * A successful follow-up appends its entry: the log grows by one, the
   * earlier entries stay in place, and the summary is untouched.
   */
  lemma FollowupAppends(s: State, q: JsString, r: Response, a: JsString)
    requires Evaluate(r) == Answered(a)
    ensures var t := AfterCallApi(s, q, true, r);
      && |t.followupLog| == |s.followupLog| + 1
      && t.followupLog[..|s.followupLog|] == s.followupLog
      && t.followupLog[|s.followupLog|] == Entry(q, a)
      && t.summary == s.summary
  {
  }

  /** A successful initial request shows the result and empties the log. */
  lemma InitialSummaryReplaces(s: State, query: JsString, r: Response, a: JsString)
    requires Evaluate(r) == Answered(a)
    ensures var t := AfterCallApi(s, query, false, r);
      t.summary == a && t.followupLog == []
  {
  }

  /** `handleFollowup` does nothing without a stored id, and asks the typed question with it. */
  lemma HandleFollowupGuard(s: State, r: Response)
    ensures !Truthy(s.fileId) ==> AfterHandleFollowup(s, r) == s
    ensures Truthy(s.fileId) ==> AfterHandleFollowup(s, r) == AfterCallApi(s, s.followup, true, r)
  {
  }

  // ------------------------------------------------------------ sessions

  /** A series of `handleFollowup` calls, each with the question typed and the response it gets. */
  function FollowAll(s: State, asks: seq<(JsString, Response)>): State
    decreases |asks|
  {
    if asks == [] then s
    else FollowAll(AfterHandleFollowup(s.(followup := asks[0].0), asks[0].1), asks[1..])
  }

  predicate AllAnswered(asks: seq<(JsString, Response)>) {
    forall i :: 0 <= i < |asks| ==> Evaluate(asks[i].1).Answered?
  }

  /** The log entries of answered asks, in the order they were asked. */
  function Entries(asks: seq<(JsString, Response)>): (es: seq<JsString>)
    requires AllAnswered(asks)
    ensures |es| == |asks|
  {
    if asks == [] then [] else [Entry(asks[0].0, Evaluate(asks[0].1).result)] + Entries(asks[1..])
  }

  /** Entry `i` is the question of the `i`-th ask and the result of its reply. */
  lemma {:induction false} EntriesAt(asks: seq<(JsString, Response)>, i: nat)
    requires AllAnswered(asks) && i < |asks|
    ensures Entries(asks)[i] == Entry(asks[i].0, Evaluate(asks[i].1).result)
    decreases i
  {
    if i > 0 {
      assert AllAnswered(asks[1..]) by {
        forall j | 0 <= j < |asks[1..]| ensures Evaluate(asks[1..][j].1).Answered? {
          assert asks[1..][j] == asks[j + 1];
        }
      }
      EntriesAt(asks[1..], i - 1);
      assert asks[1..][i - 1] == asks[i];
    }
  }

  /** After answered follow-ups the log is the old log followed by the new entries in the order asked. */
  lemma {:induction false} FollowAllInOrder(s: State, asks: seq<(JsString, Response)>)
    requires Truthy(s.fileId) && AllAnswered(asks)
    ensures var t := FollowAll(s, asks);
      t.followupLog == s.followupLog + Entries(asks) && t.summary == s.summary && t.fileId == s.fileId
    decreases |asks|
  {
    if asks != [] {
      var s1 := AfterHandleFollowup(s.(followup := asks[0].0), asks[0].1);
      assert AllAnswered(asks[1..]) by {
        forall i | 0 <= i < |asks[1..]| ensures Evaluate(asks[1..][i].1).Answered? {
          assert asks[1..][i] == asks[i + 1];
        }
      }
      FollowStep(s, asks[0].0, asks[0].1);
      FollowAllInOrder(s1, asks[1..]);
      assert Entries(asks) == [Entry(asks[0].0, Evaluate(asks[0].1).result)] + Entries(asks[1..]);
    }
  }

  /** One answered `handleFollowup` appends its entry and keeps the summary and the id. */
  lemma FollowStep(s: State, q: JsString, r: Response)
    requires Truthy(s.fileId) && Evaluate(r).Answered?
    ensures var t := AfterHandleFollowup(s.(followup := q), r);
      t.followupLog == s.followupLog + [Entry(q, Evaluate(r).result)] && t.summary == s.summary && t.fileId == s.fileId
  {
  }

  // ------------------------------------------------------------ the component

  /** The form's state fields and `fileIdRef`, updated in place by its methods. */
  class Form {
    var pdfUrl: JsString
    var summary: JsString
    var followup: JsString
    var followupLog: seq<JsString>
    var lang: Lang
    var isSummarizing: bool
    var isFollowupLoading: bool
    var fileIdRef: Option<JsString>

    function Snapshot(): State
      reads this
    {
      State(pdfUrl, summary, followup, followupLog, lang, isSummarizing, isFollowupLoading, fileIdRef)
    }

    constructor ()
      ensures Snapshot() == Initial()
    {
      pdfUrl, summary, followup, followupLog := [], [], [], [];
      lang, isSummarizing, isFollowupLoading, fileIdRef := KO, false, false, None;
    }

    /** `setLoading(value)` with `setLoading` chosen by `isFollowup`. */
    method SetLoading(isFollowup: bool, value: bool)
      modifies this
      ensures Snapshot() == if isFollowup then old(Snapshot()).(isFollowupLoading := value)
                            else old(Snapshot()).(isSummarizing := value)
    {
      if isFollowup {
        isFollowupLoading := value;
      } else {
        isSummarizing := value;
      }
    }

    /** `callApi(query, isFollowup, fileId)` receiving `response`; returns the request it sends. */
    method CallApi(query: JsString, isFollowup: bool, fileId: JsString, response: Response) returns (sent: Request)
      modifies this
      ensures sent == SentRequest(old(Snapshot()), query, fileId)
      ensures Snapshot() == AfterCallApi(old(Snapshot()), query, isFollowup, response)
    {
      SetLoading(isFollowup, true);
      sent := Request(fileId, pdfUrl, query, lang);
      match response {
        case NetworkFailure(_) =>
          summary := NetworkError;
        case Http(code, body) =>
          if !IsOk(code) {
            var msg := if code == 404 then NotFound else if code == 422 then Invalid else RequestFailed;
            if !isFollowup {
              summary := msg;
            }
          } else {
            match body {
              case Unparseable(_) =>
                summary := NetworkError;
              case Json(d) =>
                var result := Or(d.summary, d.text);
                if isFollowup {
                  followupLog := followupLog + [Entry(query, result)];
                } else {
                  summary := result;
                  followupLog := [];
                }
            }
          }
      }
      SetLoading(isFollowup, false);
    }

    /** `handleInitialSummary`, with `Date.now()` read as `now`. */
    method HandleInitialSummary(now: nat, response: Response) returns (sent: Request)
      modifies this
      ensures sent == Request(GenerateFileId(old(pdfUrl), now), old(pdfUrl), SummaryAll, old(lang))
      ensures Snapshot() == AfterHandleInitialSummary(old(Snapshot()), now, response)
    {
      var fid := GenerateFileId(pdfUrl, now);
      fileIdRef := Some(fid);
      sent := CallApi(SummaryAll, false, fid, response);
    }

    /** `handleFollowup`; returns the request it sends, if any. */
    method HandleFollowup(response: Response) returns (sent: Option<Request>)
      modifies this
      ensures sent == if Truthy(old(fileIdRef)) then Some(SentRequest(old(Snapshot()), old(followup), old(fileIdRef).value)) else None
      ensures Snapshot() == AfterHandleFollowup(old(Snapshot()), response)
    {
      if !Truthy(fileIdRef) {
        return None;
      }
      var request := CallApi(followup, true, fileIdRef.value, response);
      sent := Some(request);
    }
  }
}
