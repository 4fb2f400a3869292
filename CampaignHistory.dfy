/** The campaign list: status chips, the per-row progress expression and the
    delete-confirmation dialog. */
module CampaignHistory {
  import opened Common
  import opened Text
  import CampaignLogs

  /** `getStatusColor` for a campaign status: compared lower-cased, absent or
      unknown gives default. */
  function StatusColor(status: Option<string>): (c: Color)
    ensures c == Info <==> status.Some? && ToLower(status.value) == "scheduled"
    ensures c == Warning <==> status.Some? && ToLower(status.value) == "running"
    ensures c == Success <==> status.Some? && ToLower(status.value) == "completed"
    ensures c == Error <==> status.Some? && ToLower(status.value) == "failed"
    ensures c == Default <==>
      status.None? || ToLower(status.value) !in {"scheduled", "running", "completed", "failed"}
  {
    match status
    case None => Default
    case Some(s) =>
      var l := ToLower(s);
      if l == "draft" then Default
      else if l == "scheduled" then Info
      else if l == "running" then Warning
      else if l == "completed" then Success
      else if l == "failed" then Error
      else Default
  }

  lemma StatusColorIgnoresCase(s: string)
    ensures StatusColor(Some(ToUpper(s))) == StatusColor(Some(s))
    ensures StatusColor(Some(ToLower(s))) == StatusColor(Some(s))
  {
    LowerIgnoresCase(s);
  }

  /** The stats a listed campaign carries, read without defaults. */
  datatype CampaignStats = CampaignStats(audienceSize: int, sent: int, failed: int)

  datatype CampaignRow = CampaignRow(id: string, name: string, description: string,
                                     status: Option<string>, stats: CampaignStats)

  /** A JavaScript number as far as a quotient can make one. */
  datatype Number = Finite(value: real) | NaN | Infinity(negative: bool)

  /** `stats.sent / stats.audienceSize * 100` as written: `failed` plays no part,
      and there is no guard, so an empty audience gives NaN or an infinity. */
  function Progress(st: CampaignStats): (r: Number)
    ensures st.audienceSize != 0 ==> r.Finite? && r.value * st.audienceSize as real == st.sent as real * 100.0
    ensures 0 <= st.sent <= st.audienceSize && st.audienceSize > 0 ==> r.Finite? && 0.0 <= r.value <= 100.0
    ensures st.audienceSize == 0 ==> !r.Finite?
  {
    if st.audienceSize == 0 then
      if st.sent == 0 then NaN else Infinity(st.sent < 0)
    else if st.audienceSize > 0 then
      CampaignLogs.Percentage(st.sent as real, st.audienceSize as real);
      Finite(st.sent as real / st.audienceSize as real * 100.0)
    else
      CampaignLogs.Percentage(-st.sent as real, -st.audienceSize as real);
      Finite(st.sent as real / st.audienceSize as real * 100.0)
  }

  /** A campaign whose audience is empty shows no percentage at all. */
  lemma EmptyAudienceProgress(sent: int, failed: int)
    ensures Progress(CampaignStats(0, 0, failed)) == NaN
    ensures sent > 0 ==> Progress(CampaignStats(0, sent, failed)) == Infinity(false)
  {
  }

  /** The progress bar with the zero guard the delivery-log screen has. */
  function GuardedProgress(st: CampaignStats): (p: real)
    ensures st.audienceSize > 0 ==> Progress(st) == Finite(p)
    ensures st.audienceSize <= 0 ==> p == 0.0
    ensures 0 <= st.sent <= st.audienceSize ==> 0.0 <= p <= 100.0
  {
    if st.audienceSize > 0 then
      CampaignLogs.Percentage(st.sent as real, st.audienceSize as real);
      st.sent as real / st.audienceSize as real * 100.0
    else 0.0
  }

  /** The list counts only sent messages, the delivery-log screen sent and
      failed ones: for the same counters the list never shows more, and shows
      the same exactly when nothing failed. */
  lemma ListProgressIgnoresFailed(st: CampaignStats)
    requires st.audienceSize > 0 && st.failed >= 0
    ensures var logs := CampaignLogs.Stats(Some(st.audienceSize), Some(st.sent), Some(st.failed));
      GuardedProgress(st) <= CampaignLogs.Progress(logs)
      && (GuardedProgress(st) == CampaignLogs.Progress(logs) <==> st.failed == 0)
  {
    var logs := CampaignLogs.Stats(Some(st.audienceSize), Some(st.sent), Some(st.failed));
    var total := st.audienceSize as real;
    var gap := CampaignLogs.Progress(logs) - GuardedProgress(st);
    assert gap * total == st.failed as real * 100.0;
    CampaignLogs.SignOfFactor(gap, total);
  }

  datatype Request = GetCampaigns | DeleteCampaign(campaignId: string)

  const FetchError := "Failed to fetch campaigns. Please try again later."
  const DeleteError := "Failed to delete campaign. Please try again later."

  class History {
    var campaigns: seq<CampaignRow>
    var loading: bool
    var error: Option<string>
    var deleteDialogOpen: bool
    var campaignToDelete: Option<CampaignRow>
    var requests: seq<Request>

    /** An open dialog always has a campaign to delete. */
    predicate Valid()
      reads this
    {
      deleteDialogOpen ==> campaignToDelete.Some?
    }

    constructor ()
      ensures Valid() && campaigns == [] && loading && error.None? && !deleteDialogOpen
      ensures campaignToDelete.None? && requests == []
    {
      campaigns, loading, error := [], true, None;
      deleteDialogOpen, campaignToDelete, requests := false, None, [];
    }

    /** `fetchCampaigns`, run on mount and after a successful delete. */
    method FetchCampaigns(reply: Reply<seq<CampaignRow>>)
      modifies this`campaigns, this`loading, this`error, this`requests
      ensures requests == old(requests) + [GetCampaigns] && !loading
      ensures reply.Ok? ==> campaigns == reply.data && error.None?
      ensures reply.Fail? ==> campaigns == old(campaigns) && error == Some(FetchError)
    {
      loading := true;
      requests := requests + [GetCampaigns];
      match reply {
        case Ok(rows) =>
          campaigns := rows;
          error := None;
        case Fail(_) =>
          error := Some(FetchError);
      }
      loading := false;
    }

    method HandleDeleteClick(c: CampaignRow)
      modifies this`deleteDialogOpen, this`campaignToDelete
      ensures Valid() && deleteDialogOpen && campaignToDelete == Some(c)
    {
      campaignToDelete := Some(c);
      deleteDialogOpen := true;
    }

    /** `handleDeleteConfirm`, reachable from the open dialog's Delete button;
        a successful delete closes the dialog and refetches the list. */
    method HandleDeleteConfirm(delete: Reply<()>, refetch: Reply<seq<CampaignRow>>)
      requires Valid() && deleteDialogOpen
      modifies this`campaigns, this`loading, this`error, this`requests, this`deleteDialogOpen,
               this`campaignToDelete
      ensures Valid()
      ensures delete.Ok? ==>
        requests == old(requests) + [DeleteCampaign(old(campaignToDelete).value.id), GetCampaigns]
        && !deleteDialogOpen && campaignToDelete.None? && !loading
        && (refetch.Ok? ==> campaigns == refetch.data && error.None?)
        && (refetch.Fail? ==> campaigns == old(campaigns) && error == Some(FetchError))
      ensures delete.Fail? ==>
        requests == old(requests) + [DeleteCampaign(old(campaignToDelete).value.id)]
        && deleteDialogOpen && campaignToDelete == old(campaignToDelete)
        && error == Some(DeleteError) && campaigns == old(campaigns) && loading == old(loading)
    {
      requests := requests + [DeleteCampaign(campaignToDelete.value.id)];
      if delete.Ok? {
        deleteDialogOpen := false;
        campaignToDelete := None;
        FetchCampaigns(refetch);
      } else {
        error := Some(DeleteError);
      }
    }

    method HandleDeleteCancel()
      modifies this`deleteDialogOpen, this`campaignToDelete
      ensures Valid() && !deleteDialogOpen && campaignToDelete.None?
    {
      deleteDialogOpen := false;
      campaignToDelete := None;
    }
  }
}
