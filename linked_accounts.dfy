/**
 * The linked-accounts panel: what it tells the user when the browser comes back from the
 * account-linking flow, which accounts offer an unlink action, and the load and unlink flows
 * that replace the panel's list of accounts.
 */
module LinkedAccounts {
  import opened Wrappers
  import opened Strings

  // The `linkedAccount` statuses and `reason` codes the callback URL can carry.
  const Success := "success"
  const Error := "error"
  const PrimaryAccount := "primary_account"
  const AlreadyLinked := "already_linked"
  const SaveFailed := "save_failed"
  const OauthFailed := "oauth_failed"

  const LinkedPrefix := "Successfully linked account: "
  const DefaultLinkError := "Failed to link account. Please try again."
  const PrimaryAccountError := "\U{26A0}\U{FE0F} This email is already registered as your primary account. You cannot link your primary account as a linked account."
  const AlreadyLinkedError := "\U{26A0}\U{FE0F} This email is already linked to another user account."
  const SaveFailedError := "\U{274C} Failed to save the linked account. Please try again."
  const OauthFailedError := "\U{274C} Google authentication failed. Please try again."
  const UnlinkPrompt := "Are you sure you want to unlink this account?"
  const UnlinkFailed := "Failed to unlink account. Please try again."

  /** The message shown for a failed link, chosen by the `reason` parameter. */
  function LinkErrorMessage(reason: Option<string>): string {
    if reason == Some(PrimaryAccount) then PrimaryAccountError
    else if reason == Some(AlreadyLinked) then AlreadyLinkedError
    else if reason == Some(SaveFailed) then SaveFailedError
    else if reason == Some(OauthFailed) then OauthFailedError
    else DefaultLinkError
  }

  /** What the panel does about the callback parameters when it mounts. */
  datatype CallbackOutcome = CallbackOutcome(message: Option<string>, cleanUrl: bool, reloadLater: bool)

  /** The outcome of the `linkedAccount`, `email` and `reason` parameters. */
  function LinkCallbackOutcome(status: Option<string>, email: Option<string>, reason: Option<string>): CallbackOutcome {
    if status == Some(Success) then CallbackOutcome(Some(LinkedPrefix + OrElse(email, Unknown)), true, true)
    else if status == Some(Error) then CallbackOutcome(Some(LinkErrorMessage(reason)), true, false)
    else CallbackOutcome(None, false, false)
  }

  /** The five failure messages are pairwise distinct (their lengths differ), so the reason can be read off the message. */
  lemma LinkErrorMessageCases(reason: Option<string>)
    ensures LinkErrorMessage(reason) == PrimaryAccountError <==> reason == Some(PrimaryAccount)
    ensures LinkErrorMessage(reason) == AlreadyLinkedError <==> reason == Some(AlreadyLinked)
    ensures LinkErrorMessage(reason) == SaveFailedError <==> reason == Some(SaveFailed)
    ensures LinkErrorMessage(reason) == OauthFailedError <==> reason == Some(OauthFailed)
    ensures LinkErrorMessage(reason) == DefaultLinkError <==>
      reason !in {Some(PrimaryAccount), Some(AlreadyLinked), Some(SaveFailed), Some(OauthFailed)}
  {
    assert |PrimaryAccountError| == 118 && |AlreadyLinkedError| == 56 && |SaveFailedError| == 54;
    assert |OauthFailedError| == 49 && |DefaultLinkError| == 41;
  }

  /**
   * The callback cleans the URL exactly when the status is success or error, a message is shown
   * exactly then, and only success schedules a reload of the list.
   */
  lemma CallbackCleansUrl(status: Option<string>, email: Option<string>, reason: Option<string>)
    ensures var r := LinkCallbackOutcome(status, email, reason);
      && (r.cleanUrl <==> status == Some(Success) || status == Some(Error))
      && (r.message.Some? <==> r.cleanUrl)
      && (r.reloadLater <==> status == Some(Success))
  {
    assert Success != Error by {
      assert Success[0] != Error[0];
    }
  }

  /** A successful link names the linked e-mail, or `Unknown` when the URL carries none. */
  lemma CallbackSuccessMessage(email: Option<string>, reason: Option<string>)
    ensures var r := LinkCallbackOutcome(Some(Success), email, reason);
      && r.message.Some?
      && |LinkedPrefix| <= |r.message.value| && r.message.value[..|LinkedPrefix|] == LinkedPrefix
      && r.message.value[|LinkedPrefix|..] == (if Truthy(email) then email.value else Unknown)
  {
    var m := LinkedPrefix + OrElse(email, Unknown);
    assert m[..|LinkedPrefix|] == LinkedPrefix && m[|LinkedPrefix|..] == OrElse(email, Unknown);
  }

  /** A failed link shows the message of its reason, whatever e-mail the URL carries. */
  lemma CallbackErrorMessage(email: Option<string>, reason: Option<string>)
    ensures LinkCallbackOutcome(Some(Error), email, reason).message == Some(LinkErrorMessage(reason))
  {
    assert Success != Error by {
      assert Success[0] != Error[0];
    }
  }

  /** One account as the panel lists it. */
  datatype LinkedAccount = LinkedAccount(id: string, name: Option<string>, email: string,
                                         picture: Option<string>, isPrimary: bool)

  /** The ids whose cards carry an unlink button, in list order: those of non-primary accounts. */
  function UnlinkTargets(accounts: seq<LinkedAccount>): (r: seq<string>)
    ensures |r| <= |accounts|
    ensures forall id :: id in r <==> exists i :: 0 <= i < |accounts| && !accounts[i].isPrimary && accounts[i].id == id
  {
    if accounts == [] then []
    else
      var rest := UnlinkTargets(accounts[1..]);
      assert forall id :: id in rest <==> exists i :: 1 <= i < |accounts| && !accounts[i].isPrimary && accounts[i].id == id by {
        forall id
          ensures id in rest <==> exists i :: 1 <= i < |accounts| && !accounts[i].isPrimary && accounts[i].id == id
        {
          if id in rest {
            var j :| 0 <= j < |accounts[1..]| && !accounts[1..][j].isPrimary && accounts[1..][j].id == id;
            assert accounts[j + 1] == accounts[1..][j];
          }
          if exists i :: 1 <= i < |accounts| && !accounts[i].isPrimary && accounts[i].id == id {
            var i :| 1 <= i < |accounts| && !accounts[i].isPrimary && accounts[i].id == id;
            assert accounts[1..][i - 1] == accounts[i];
          }
        }
      }
      if accounts[0].isPrimary then rest else [accounts[0].id] + rest
  }

  /** Account ids are unique in the list. */
  predicate DistinctIds(accounts: seq<LinkedAccount>) {
    forall i, j :: 0 <= i < j < |accounts| ==> accounts[i].id != accounts[j].id
  }

  /** With unique ids, no primary account can be unlinked from the panel. */
  lemma PrimaryNeverUnlinkable(accounts: seq<LinkedAccount>, k: nat)
    requires DistinctIds(accounts) && k < |accounts| && accounts[k].isPrimary
    ensures accounts[k].id !in UnlinkTargets(accounts)
  {
    forall i | 0 <= i < |accounts| && !accounts[i].isPrimary
      ensures accounts[i].id != accounts[k].id
    {
      if i < k {
        assert accounts[i].id != accounts[k].id;
      } else if k < i {
        assert accounts[k].id != accounts[i].id;
      }
    }
  }

  /** Every non-primary account has an unlink button, and there is one button per such account. */
  lemma {:induction false} UnlinkTargetsCount(accounts: seq<LinkedAccount>)
    ensures (forall i :: 0 <= i < |accounts| ==> !accounts[i].isPrimary) ==> |UnlinkTargets(accounts)| == |accounts|
    ensures (forall i :: 0 <= i < |accounts| ==> accounts[i].isPrimary) ==> UnlinkTargets(accounts) == []
  {
    if accounts != [] {
      UnlinkTargetsCount(accounts[1..]);
      assert forall i :: 1 <= i < |accounts| ==> accounts[i] == accounts[1..][i - 1];
    }
  }

  /** What the panel does outside its own state, in order. */
  datatype PanelEffect =
    | FetchLinked(userId: string)
    | ScheduleReload
    | Alert(message: string)
    | ReplaceUrl
    | Confirm(prompt: string)
    | Unlink(userId: string, accountId: string)

  /** The effects of the callback outcome `o`: the delayed reload, the message, the URL clean-up. */
  function CallbackEffects(o: CallbackOutcome): seq<PanelEffect> {
    (if o.reloadLater then [ScheduleReload] else [])
    + (if o.message.Some? then [Alert(o.message.value)] else [])
    + (if o.cleanUrl then [ReplaceUrl] else [])
  }

  /** Statuses other than success and error leave no trace; the other two alert and clean the URL. */
  lemma CallbackEffectsCases(status: Option<string>, email: Option<string>, reason: Option<string>)
    ensures var o := LinkCallbackOutcome(status, email, reason);
      && (status == Some(Success) ==> CallbackEffects(o) == [ScheduleReload, Alert(o.message.value), ReplaceUrl])
      && (status == Some(Error) ==> CallbackEffects(o) == [Alert(LinkErrorMessage(reason)), ReplaceUrl])
      && (status != Some(Success) && status != Some(Error) ==> CallbackEffects(o) == [])
  {
    CallbackCleansUrl(status, email, reason);
    CallbackErrorMessage(email, reason);
  }

  /** The panel of one user's linked accounts. */
  class LinkedAccountsPanel {
    const userId: string
    var accounts: seq<LinkedAccount>
    var loading: bool
    ghost var log: seq<PanelEffect>

    /** The panel as first rendered: loading, with no accounts. */
    constructor(userId: string)
      ensures this.userId == userId && accounts == [] && loading && log == []
    {
      this.userId := userId;
      accounts := [];
      loading := true;
      log := [];
    }

    /** `loadLinkedAccounts`: fetch the user's accounts (the response is `fetched`) and show them. */
    method LoadLinkedAccounts(fetched: seq<LinkedAccount>)
      modifies this`accounts, this`loading, this`log
      ensures accounts == fetched && !loading && log == old(log) + [FetchLinked(userId)]
    {
      loading := true;
      log := log + [FetchLinked(userId)];
      accounts := fetched;
      loading := false;
    }

    /** The mount effect: load the list, then act on the callback parameters of the URL. */
    method OnMount(status: Option<string>, email: Option<string>, reason: Option<string>, fetched: seq<LinkedAccount>)
      modifies this`accounts, this`loading, this`log
      ensures accounts == fetched && !loading
      ensures log == old(log) + [FetchLinked(userId)] + CallbackEffects(LinkCallbackOutcome(status, email, reason))
    {
      LoadLinkedAccounts(fetched);
      ghost var loaded := log;
      if status == Some(Success) {
        log := log + [ScheduleReload];
        log := log + [Alert(LinkedPrefix + OrElse(email, Unknown))];
        log := log + [ReplaceUrl];
      } else if status == Some(Error) {
        var errorMessage := LinkErrorMessage(reason);
        log := log + [Alert(errorMessage)];
        log := log + [ReplaceUrl];
      }
      CallbackEffectsCases(status, email, reason);
      assert log == loaded + CallbackEffects(LinkCallbackOutcome(status, email, reason));
    }

    /**
     * `handleUnlinkAccount`: ask for confirmation; when confirmed, ask the backend to unlink
     * (its answer is `success`), then reload the list (the response is `reloaded`) or alert.
     */
    method HandleUnlinkAccount(accountId: string, confirmed: bool, success: bool, reloaded: seq<LinkedAccount>)
      modifies this`accounts, this`loading, this`log
      ensures !confirmed ==> accounts == old(accounts) && loading == old(loading) && log == old(log) + [Confirm(UnlinkPrompt)]
      ensures confirmed && success ==>
        && accounts == reloaded && !loading
        && log == old(log) + [Confirm(UnlinkPrompt), Unlink(userId, accountId), FetchLinked(userId)]
      ensures confirmed && !success ==>
        && accounts == old(accounts) && loading == old(loading)
        && log == old(log) + [Confirm(UnlinkPrompt), Unlink(userId, accountId), Alert(UnlinkFailed)]
    {
      log := log + [Confirm(UnlinkPrompt)];
      if confirmed {
        log := log + [Unlink(userId, accountId)];
        if success {
          LoadLinkedAccounts(reloaded);
        } else {
          log := log + [Alert(UnlinkFailed)];
        }
      }
    }
  }
}
