/** The case status badge: a fixed label for each of the five case statuses. */
module StatusBadge {
  import opened Wrappers
  import opened Domain

  /** `statusMap[status].label`; every status has an entry. */
  function Label(status: CaseStatus): string {
    match status
    case Pending => "受付待ち"
    case Assigned => "担当者決定"
    case InProgress => "対応中"
    case Completed => "完了"
    case Cancelled => "キャンセル"
  }

  /** The status a badge label stands for. */
  function StatusOfLabel(text: string): (r: Option<CaseStatus>)
    ensures r.Some? ==> Label(r.value) == text
  {
    if text == "受付待ち" then Some(Pending)
    else if text == "担当者決定" then Some(Assigned)
    else if text == "対応中" then Some(InProgress)
    else if text == "完了" then Some(Completed)
    else if text == "キャンセル" then Some(CaseStatus.Cancelled)
    else None
  }

  /** The labels are pairwise distinct: a badge identifies its status. */
  lemma LabelIdentifiesStatus(status: CaseStatus)
    ensures StatusOfLabel(Label(status)) == Some(status)
  {
    match status
    case Pending =>
    case Assigned => assert Label(status)[0] != "受付待ち"[0];
    case InProgress =>
      assert Label(status)[0] != "受付待ち"[0] && Label(status)[0] != "担当者決定"[0];
    case Completed =>
      assert Label(status) != "受付待ち" && Label(status) != "担当者決定" && Label(status) != "対応中" by {
        assert |Label(status)| == 2;
      }
    case Cancelled =>
      assert Label(status)[0] != "受付待ち"[0] && Label(status)[0] != "担当者決定"[0];
      assert Label(status)[0] != "対応中"[0] && Label(status)[0] != "完了"[0];
  }
}
