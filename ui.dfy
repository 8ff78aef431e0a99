/** The component itself: its state variables are the fields of one object,
    and each event handler is a method that updates them step by step, as the
    handlers' `set...` calls do. Every method is tied to the corresponding
    transition of AppModel, where the properties are proved. */
module Ui {
  import opened Wrappers
  import opened Addresses
  import opened Kyc
  import opened Campaigns
  import M = AppModel

  class App {
    var account: string
    var balance: Option<nat>
    var isAdmin: bool
    var isVerified: bool
    var kycName: string
    var kycCnic: string
    var kycStatus: KycStatus
    var pendingRequests: seq<PendingRequest>
    var campaigns: seq<Campaign>
    var campaignTitle: string
    var campaignDescription: string
    var campaignGoal: string
    var loading: bool
    var message: string
    var campaignFilter: Selector

    /** The state variables as one value. */
    function State(): M.AppState
      reads this
    {
      M.AppState(account, balance, isAdmin, isVerified, kycName, kycCnic, kycStatus, pendingRequests,
                 campaigns, campaignTitle, campaignDescription, campaignGoal, loading, message,
                 campaignFilter)
    }

    constructor ()
      ensures State() == M.Initial()
    {
      account, balance := "", None;
      isAdmin, isVerified := false, false;
      kycName, kycCnic, kycStatus, pendingRequests := "", "", Unset, [];
      campaigns, campaignTitle, campaignDescription, campaignGoal := [], "", "", "";
      loading, message, campaignFilter := false, "", All;
    }

    /** `connectWallet`. */
    method ConnectWallet(providerPresent: bool, answers: M.ConnectReads)
      modifies this
      ensures State() == M.Connect(old(State()), providerPresent, answers)
    {
      if !providerPresent {
        message := M.InstallWallet;
        return;
      }
      if answers.session.Err? {
        message := M.ConnectError(answers.session.error);
        return;
      }
      var address := answers.session.value.address;
      account := address;
      balance := Some(answers.session.value.balance);
      ghost var connected := State();
      assert connected == old(State()).(account := address, balance := Some(answers.session.value.balance));
      ReadAccount(address, answers);
    }

    /** The rest of `connectWallet`: the role reads. */
    method ReadAccount(address: string, answers: M.ConnectReads)
      modifies this
      ensures State() == M.ReadAccount(old(State()), address, answers)
    {
      if answers.admin.Err? {
        message := M.ConnectError(answers.admin.error);
        return;
      }
      isAdmin := SameAddress(answers.admin.value, address);
      if answers.verified.Err? {
        message := M.ConnectError(answers.verified.error);
        return;
      }
      isVerified := answers.verified.value;
      ReadRecord(answers);
    }

    /** The end of `connectWallet`: the KYC record and the loads. */
    method ReadRecord(answers: M.ConnectReads)
      modifies this
      ensures State() == M.ReadRecord(old(State()), answers)
    {
      if answers.details.Err? {
        message := M.ConnectError(answers.details.error);
        return;
      }
      kycStatus := DeriveStatus(answers.details.value);
      message := M.Connected;
      campaigns := ReloadCampaigns(campaigns, answers.campaigns);  // await loadCampaigns(...)
      if isAdmin {
        pendingRequests := ReloadPending(pendingRequests, answers.pending);  // await loadPendingRequests(...)
      }
    }

    /** The `accountsChanged` listener. */
    method AccountsChanged(accounts: seq<string>, answers: M.ConnectReads)
      modifies this
      ensures State() == M.AccountsChanged(old(State()), accounts, answers)
    {
      if |accounts| > 0 {
        ConnectWallet(true, answers);
      } else {
        account := "";
        balance := None;
      }
    }

    /** The `onChange` handler of one form input. */
    method Edit(field: M.FormField, value: string)
      modifies this
      ensures State() == M.Edit(old(State()), field, value)
    {
      match field {
        case KycNameField => kycName := value;
        case KycCnicField => kycCnic := value;
        case TitleField => campaignTitle := value;
        case DescriptionField => campaignDescription := value;
        case GoalField => campaignGoal := value;
      }
    }

    /** A filter button: `setCampaignFilter`. */
    method SelectFilter(sel: Selector)
      modifies this`campaignFilter
      ensures State() == M.SelectFilter(old(State()), sel)
    {
      campaignFilter := sel;
    }

    /** `getFilteredCampaigns`. */
    function FilteredCampaigns(): (r: seq<Campaign>)
      reads this
      ensures campaignFilter == All ==> r == campaigns
      ensures campaignFilter.Only? ==>
                forall c :: c in r <==> c in campaigns && HasStatus(c, campaignFilter.status)
      ensures campaignFilter.Only? ==> r == Keep(campaigns, campaignFilter.status)
      ensures campaignFilter.Only? ==> IsSubsequence(r, campaigns)
    {
      match campaignFilter
      case All => Filter(campaigns, All)
      case Only(st) =>
        KeepIsSubsequence(campaigns, st);
        Filter(campaigns, campaignFilter)
    }

    /** `submitKYC` up to its first await. */
    method SubmitKyc() returns (call: Option<M.Call>)
      modifies this
      ensures M.Started(State(), call) == M.StartSubmitKyc(old(State()))
    {
      if kycName == "" || kycCnic == "" {
        message := M.KycMissing;
        return None;
      }
      loading := true;
      message := M.KycSubmitting;
      call := Some(M.SubmitKycCall(kycName, kycCnic));
    }

    /** `submitKYC` once the call and `wait()` resolved. */
    method SettleSubmitKyc(o: M.Outcome)
      modifies this
      ensures State() == M.SettleSubmitKyc(old(State()), o)
    {
      match o {
        case Confirmed =>
          message := M.KycSubmitted;
          kycStatus := PendingSubmitted;
          kycName := "";
          kycCnic := "";
        case Failed(reason) =>
          message := M.ErrorMessage(reason);
      }
      loading := false;
    }

    /** `approveKYC(user)` up to its first await. */
    method ApproveKyc(user: string) returns (call: Option<M.Call>)
      modifies this
      ensures M.Started(State(), call) == M.StartApproveKyc(old(State()), user)
    {
      loading := true;
      message := M.KycApproving;
      call := Some(M.ApproveKycCall(user));
    }

    /** `approveKYC` once the call resolved. */
    method SettleApproveKyc(o: M.Outcome, src: PendingSource)
      modifies this
      ensures State() == M.SettleApproveKyc(old(State()), o, src)
    {
      match o {
        case Confirmed =>
          message := M.KycApproved;
          pendingRequests := ReloadPending(pendingRequests, src);  // await loadPendingRequests(...)
        case Failed(reason) =>
          message := M.ErrorMessage(reason);
      }
      loading := false;
    }

    /** `rejectKYC(user)` up to its first await. */
    method RejectKyc(user: string) returns (call: Option<M.Call>)
      modifies this
      ensures M.Started(State(), call) == M.StartRejectKyc(old(State()), user)
    {
      loading := true;
      message := M.KycRejecting;
      call := Some(M.RejectKycCall(user));
    }

    /** `rejectKYC` once the call resolved. */
    method SettleRejectKyc(o: M.Outcome, src: PendingSource)
      modifies this
      ensures State() == M.SettleRejectKyc(old(State()), o, src)
    {
      match o {
        case Confirmed =>
          message := M.KycRejected;
          pendingRequests := ReloadPending(pendingRequests, src);  // await loadPendingRequests(...)
        case Failed(reason) =>
          message := M.ErrorMessage(reason);
      }
      loading := false;
    }

    /** `createCampaign` up to its first await; `goalWei` is what `parseEther` gives the goal. */
    method CreateCampaign(goalWei: Result<int, string>) returns (call: Option<M.Call>)
      modifies this
      ensures M.Started(State(), call) == M.StartCreateCampaign(old(State()), goalWei)
    {
      if campaignTitle == "" || campaignDescription == "" || campaignGoal == "" {
        message := M.CampaignMissing;
        return None;
      }
      loading := true;
      message := M.CampaignCreating;
      match goalWei {  // ethers.parseEther(campaignGoal)
        case Err(reason) =>
          message := M.ErrorMessage(reason);
          loading := false;
          call := None;
        case Ok(wei) =>
          call := Some(M.CreateCampaignCall(campaignTitle, campaignDescription, wei));
      }
    }

    /** `createCampaign` once the call resolved. */
    method SettleCreateCampaign(o: M.Outcome, read: Option<seq<RawCampaign>>)
      modifies this
      ensures State() == M.SettleCreateCampaign(old(State()), o, read)
    {
      match o {
        case Confirmed =>
          message := M.CampaignCreated;
          campaignTitle := "";
          campaignDescription := "";
          campaignGoal := "";
          campaigns := ReloadCampaigns(campaigns, read);  // await loadCampaigns(...)
        case Failed(reason) =>
          message := M.ErrorMessage(reason);
      }
      loading := false;
    }

    /** `contribute(campaignId, amount)` up to its first await. */
    method Contribute(campaignId: nat, amount: M.AmountField) returns (call: Option<M.Call>)
      modifies this
      ensures M.Started(State(), call) == M.StartContribute(old(State()), campaignId, amount)
    {
      if amount.Blank? || (amount.Numeric? && amount.value <= 0.0) {
        message := M.AmountInvalid;
        return None;
      }
      loading := true;
      message := M.Contributing;
      var wei := if amount.Numeric? then amount.wei else Err(amount.reason);  // ethers.parseEther(amount)
      match wei {
        case Err(reason) =>
          message := M.ErrorMessage(reason);
          loading := false;
          call := None;
        case Ok(w) =>
          call := Some(M.ContributeCall(campaignId, w));
      }
    }

    /** `contribute` once the call resolved. */
    method SettleContribute(o: M.Outcome, read: Option<seq<RawCampaign>>, newBalance: Result<nat, string>)
      modifies this
      ensures State() == M.SettleContribute(old(State()), o, read, newBalance)
    {
      match o {
        case Confirmed =>
          message := M.Contributed;
          campaigns := ReloadCampaigns(campaigns, read);  // await loadCampaigns(...)
          match newBalance {
            case Ok(wei) => balance := Some(wei);
            case Err(reason) => message := M.ErrorMessage(reason);
          }
        case Failed(reason) =>
          message := M.ErrorMessage(reason);
      }
      loading := false;
    }

    /** `withdrawFunds(campaignId)` up to its first await. */
    method WithdrawFunds(campaignId: nat) returns (call: Option<M.Call>)
      modifies this
      ensures M.Started(State(), call) == M.StartWithdraw(old(State()), campaignId)
    {
      loading := true;
      message := M.Withdrawing;
      call := Some(M.WithdrawCall(campaignId));
    }

    /** `withdrawFunds` once the call resolved. */
    method SettleWithdrawFunds(o: M.Outcome, read: Option<seq<RawCampaign>>, newBalance: Result<nat, string>)
      modifies this
      ensures State() == M.SettleWithdraw(old(State()), o, read, newBalance)
    {
      match o {
        case Confirmed =>
          message := M.Withdrawn;
          campaigns := ReloadCampaigns(campaigns, read);  // await loadCampaigns(...)
          match newBalance {
            case Ok(wei) => balance := Some(wei);
            case Err(reason) => message := M.ErrorMessage(reason);
          }
        case Failed(reason) =>
          message := M.ErrorMessage(reason);
      }
      loading := false;
    }
  }
}
