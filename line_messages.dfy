/**
 * LINE push notifications: the three message templates and the
 * skip-or-send decision of `sendLineMessage`.  The HTTP call itself is
 * outside the model; its outcome is a parameter.
 */
module LineMessages {
  import opened Wrappers
  import opened Domain

  const Brand: string := "【ゲンバディ】"

  /** The status words of `caseStatusChanged`; PENDING has none. */
  function StatusWords(status: string): Option<string> {
    if status == "ASSIGNED" then Some("担当者に決定しました")
    else if status == "IN_PROGRESS" then Some("対応中に変更されました")
    else if status == "COMPLETED" then Some("完了しました")
    else if status == "CANCELLED" then Some("キャンセルされました")
    else None
  }

  /** The text of a quoted case title, as every template embeds it. */
  function Quoted(caseTitle: string): string {
    "案件「" + caseTitle + "」"
  }

  function CaseStatusChanged(caseTitle: string, status: string): (msg: string)
    ensures Brand + Quoted(caseTitle) <= msg
  {
    Brand + "案件「" + caseTitle + "」のステータスが「" + StatusWords(status).GetOr(status) + "」に更新されました。"
  }

  function NewMessage(caseTitle: string, senderName: string): (msg: string)
    ensures Brand + Quoted(caseTitle) + "に" + senderName <= msg
  {
    Brand + "案件「" + caseTitle + "」に" + senderName + "からメッセージが届きました。アプリを確認してください。"
  }

  function CaseAssigned(caseTitle: string): (msg: string)
    ensures Brand + "新しい案件「" + caseTitle + "」" <= msg
  {
    Brand + "新しい案件「" + caseTitle + "」が割り当てられました。詳細をアプリで確認してください。"
  }

  /** The part of a status-change message that names the new status. */
  function StatusPart(caseTitle: string, msg: string): string
    requires |Brand + Quoted(caseTitle) + "のステータスが「"| + |"」に更新されました。"| <= |msg|
  {
    msg[|Brand + Quoted(caseTitle) + "のステータスが「"|..|msg| - |"」に更新されました。"|]
  }

  /** A mapped status is shown by its words; PENDING, which has none, verbatim. */
  lemma {:induction false} StatusShownInMessage(caseTitle: string, status: string)
    requires ParseCaseStatus(status).Some?
    ensures var msg := CaseStatusChanged(caseTitle, status);
            |Brand + Quoted(caseTitle) + "のステータスが「"| + |"」に更新されました。"| <= |msg|
            && StatusPart(caseTitle, msg) == StatusWords(status).GetOr(status)
    ensures StatusWords("PENDING").None?
  {
    var head := Brand + Quoted(caseTitle) + "のステータスが「";
    var words := StatusWords(status).GetOr(status);
    var tail := "」に更新されました。";
    var msg := CaseStatusChanged(caseTitle, status);
    assert msg == head + words + tail;
    assert msg[|head|..|msg| - |tail|] == words;
  }

  /** The assignment message determines the case title. */
  lemma {:induction false} CaseAssignedDeterminesTitle(a: string, b: string)
    requires CaseAssigned(a) == CaseAssigned(b)
    ensures a == b
  {
    var head := Brand + "新しい案件「";
    var tail := "」が割り当てられました。詳細をアプリで確認してください。";
    assert CaseAssigned(a) == head + a + tail;
    assert CaseAssigned(b) == head + b + tail;
    assert |a| == |b|;
    assert a == CaseAssigned(a)[|head|..|head| + |a|];
    assert b == CaseAssigned(b)[|head|..|head| + |b|];
  }

  /** The push request: recipient, text and bearer credential. */
  datatype Push = Push(to: string, text: string, authorization: string)

  /** What `sendLineMessage` does; a failed `fetch` propagates to its caller. */
  datatype Delivery = Skipped | Delivered(request: Push) | Logged(request: Push) | Raised(request: Push)

  /**
   * Without an access token nothing is sent; otherwise one push is made.
   * `reply` is the HTTP outcome: none when the request itself fails, which
   * raises, otherwise whether the response was OK; a non-OK response is
   * logged rather than raised.
   */
  function SendLineMessage(accessToken: Option<string>, lineUserId: string, message: string, reply: Option<bool>)
    : (d: Delivery)
    ensures d == Skipped <==> !(accessToken.Some? && accessToken.value != "")
    ensures d != Skipped ==>
              d.request == Push(lineUserId, message, "Bearer " + accessToken.value)
              && (d.Raised? <==> reply.None?)
              && (d.Logged? <==> reply == Some(false))
  {
    if accessToken.None? || accessToken.value == "" then Skipped
    else
      var request := Push(lineUserId, message, "Bearer " + accessToken.value);
      match reply
      case None => Raised(request)
      case Some(ok) => if ok then Delivered(request) else Logged(request)
  }
}
