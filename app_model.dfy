/** The component's state as one value, and the effect of each event handler
    on it. Each asynchronous handler is split at its first `await`: the Start
    function is what runs synchronously when the user clicks (validation, the
    `loading` flag, the progress message, the contract call that is sent),
    and the Settle function is what runs once the call and `tx.wait()` have
    resolved (success message, cleared inputs, reloads, and the `finally`
    that resets `loading`). */
module AppModel {
  import opened Wrappers
  import opened Addresses
  import opened Kyc
  import opened Campaigns

  /** The React state variables of the component. The wallet balance is the
      wei amount (the empty string is None); provider, signer and contract
      handles are not state here. */
  datatype AppState = AppState(
    account: string,
    balance: Option<nat>,
    isAdmin: bool,
    isVerified: bool,
    kycName: string,
    kycCnic: string,
    kycStatus: KycStatus,
    pendingRequests: seq<PendingRequest>,
    campaigns: seq<Campaign>,
    campaignTitle: string,
    campaignDescription: string,
    campaignGoal: string,
    loading: bool,
    message: string,
    campaignFilter: Selector)

  /** The values passed to `useState`. */
  function Initial(): (s: AppState)
    ensures s.account == "" && s.balance == None && !s.isAdmin && !s.isVerified
    ensures s.kycStatus == Unset && s.pendingRequests == [] && s.campaigns == []
    ensures !s.loading && s.message == "" && s.campaignFilter == All
    ensures s.kycName == "" && s.kycCnic == ""
    ensures s.campaignTitle == "" && s.campaignDescription == "" && s.campaignGoal == ""
  {
    AppState("", None, false, false, "", "", Unset, [], [], "", "", "", false, "", All)
  }

  // ----- Messages -----

  const InstallWallet := "Please install MetaMask!"
  const Connected := "Wallet connected successfully!"
  const KycMissing := "Please enter both name and CNIC"
  const KycSubmitting := "Submitting KYC request..."
  const KycSubmitted := "KYC request submitted successfully!"
  const KycApproving := "Approving KYC..."
  const KycApproved := "KYC approved successfully!"
  const KycRejecting := "Rejecting KYC..."
  const KycRejected := "KYC rejected!"
  const CampaignMissing := "Please fill all campaign fields"
  const CampaignCreating := "Creating campaign..."
  const CampaignCreated := "Campaign created successfully!"
  const AmountInvalid := "Please enter a valid amount"
  const Contributing := "Processing contribution..."
  const Contributed := "Contribution successful!"
  const Withdrawing := "Withdrawing funds..."
  const Withdrawn := "Funds withdrawn successfully!"

  /** The message of the `catch` block of every transaction handler. */
  function ErrorMessage(reason: string): (m: string)
    ensures |m| == 7 + |reason| && m[..7] == "Error: " && m[7..] == reason
  {
    "Error: " + reason
  }

  function ConnectError(reason: string): (m: string)
    ensures |m| == 25 + |reason| && m[..25] == "Error connecting wallet: " && m[25..] == reason
    ensures m[0] == 'E'
  {
    "Error connecting wallet: " + reason
  }

  // ----- The ledger boundary -----

  /** The contract call a handler sends. */
  datatype Call =
    | SubmitKycCall(name: string, cnic: string)
    | ApproveKycCall(user: string)
    | RejectKycCall(user: string)
    | CreateCampaignCall(title: string, description: string, goal: int)
    | ContributeCall(campaignId: nat, amount: int)
    | WithdrawCall(campaignId: nat)

  /** How the contract call and its `wait()` resolved: a thrown error carries its message. */
  datatype Outcome = Confirmed | Failed(reason: string)

  /** The value of the amount input as the comparison `amount <= 0` sees it:
      the empty string, a number, or text that converts to NaN. A number
      carries what `parseEther` makes of the text (wei, or the message it
      throws); text that is not a number never parses, so it carries that
      message only. */
  datatype AmountField = Blank | Numeric(value: real, wei: Result<int, string>) | NotANumber(reason: string)

  /** The synchronous part of a handler: the new state and the call it sent, if any. */
  datatype Started = Started(state: AppState, call: Option<Call>)

  /** What the wallet and the ledger answer during `connectWallet`, one entry
      per awaited read. `session` stands for the account request, the signer,
      its address and the balance read, none of which changes state on its own. */
  datatype WalletSession = WalletSession(address: string, balance: nat)
  datatype ConnectReads = ConnectReads(
    session: Result<WalletSession, string>,
    admin: Result<string, string>,
    verified: Result<bool, string>,
    details: Result<KycRecord, string>,
    campaigns: Option<seq<RawCampaign>>,
    pending: PendingSource)

  predicate AllRead(answers: ConnectReads) {
    answers.session.Ok? && answers.admin.Ok? && answers.verified.Ok? && answers.details.Ok?
  }

  /** The form inputs, the flag and the filter, which the wallet handlers never touch. */
  predicate SameInputs(s: AppState, t: AppState) {
    t.kycName == s.kycName && t.kycCnic == s.kycCnic
    && t.campaignTitle == s.campaignTitle && t.campaignDescription == s.campaignDescription
    && t.campaignGoal == s.campaignGoal && t.loading == s.loading && t.campaignFilter == s.campaignFilter
  }

  // ----- Wallet session -----

  /** `connectWallet`. Every read that throws ends the sequence with an error
      message, keeping what the earlier steps already set. */
  function Connect(s: AppState, providerPresent: bool, answers: ConnectReads): (t: AppState)
    ensures SameInputs(s, t)
    ensures !providerPresent ==> t == s.(message := InstallWallet)
    ensures providerPresent && answers.session.Err? ==> t == s.(message := ConnectError(answers.session.error))
    ensures t.pendingRequests != s.pendingRequests ==> providerPresent && AllRead(answers) && t.isAdmin
  {
    if !providerPresent then s.(message := InstallWallet)
    else match answers.session
      case Err(e) => s.(message := ConnectError(e))
      case Ok(session) =>
        ReadAccount(s.(account := session.address, balance := Some(session.balance)), session.address, answers)
  }

  /** The rest of `connectWallet` once the account and its balance are set:
      the two role reads. */
  function ReadAccount(s: AppState, address: string, answers: ConnectReads): (t: AppState)
    ensures SameInputs(s, t)
    ensures answers.admin.Err? ==> t == s.(message := ConnectError(answers.admin.error))
    ensures answers.admin.Ok? && answers.verified.Err? ==>
              t == s.(isAdmin := SameAddress(answers.admin.value, address),
                      message := ConnectError(answers.verified.error))
    ensures answers.admin.Ok? && answers.verified.Ok? ==>
              t == ReadRecord(s.(isAdmin := SameAddress(answers.admin.value, address),
                                 isVerified := answers.verified.value), answers)
  {
    match answers.admin
    case Err(e) => s.(message := ConnectError(e))
    case Ok(admin) =>
      var s1 := s.(isAdmin := SameAddress(admin, address));
      match answers.verified
      case Err(e) => s1.(message := ConnectError(e))
      case Ok(verified) => ReadRecord(s1.(isVerified := verified), answers)
  }

  /** The end of `connectWallet`: the KYC record, then the campaigns, then the
      pending requests when the account is the administrator. */
  function ReadRecord(s: AppState, answers: ConnectReads): (t: AppState)
    ensures SameInputs(s, t)
    ensures answers.details.Err? ==> t == s.(message := ConnectError(answers.details.error))
    ensures answers.details.Ok? ==>
              t == s.(kycStatus := DeriveStatus(answers.details.value), message := Connected,
                      campaigns := ReloadCampaigns(s.campaigns, answers.campaigns),
                      pendingRequests := if s.isAdmin then ReloadPending(s.pendingRequests, answers.pending)
                                         else s.pendingRequests)
  {
    match answers.details
    case Err(e) => s.(message := ConnectError(e))
    case Ok(record) =>
      var s1 := s.(kycStatus := DeriveStatus(record), message := Connected,
                   campaigns := ReloadCampaigns(s.campaigns, answers.campaigns));
      if s.isAdmin then s1.(pendingRequests := ReloadPending(s1.pendingRequests, answers.pending))
      else s1
  }

  /** A connect in which every read succeeds: the session, both role flags
      (the admin check compares addresses case-insensitively), the derived
      KYC status, the campaigns, and the pending list for the administrator only. */
  lemma ConnectSucceeds(s: AppState, answers: ConnectReads)
    requires AllRead(answers)
    ensures var t := Connect(s, true, answers);
            var address := answers.session.value.address;
            var admin := SameAddress(answers.admin.value, address);
            t.account == address && t.balance == Some(answers.session.value.balance)
            && t.isAdmin == admin && t.isVerified == answers.verified.value
            && t.kycStatus == DeriveStatus(answers.details.value) && t.message == Connected
            && t.campaigns == ReloadCampaigns(s.campaigns, answers.campaigns)
            && t.pendingRequests == (if admin then ReloadPending(s.pendingRequests, answers.pending)
                                     else s.pendingRequests)
  {
  }

  /** A read that throws after the session is established stops the sequence
      with an error message; what the earlier steps set stays set, and the
      KYC status and both caches are untouched. */
  lemma ConnectFailsPartway(s: AppState, answers: ConnectReads)
    requires answers.session.Ok? && !AllRead(answers)
    ensures var t := Connect(s, true, answers);
            var address := answers.session.value.address;
            var s1 := s.(account := address, balance := Some(answers.session.value.balance));
            (answers.admin.Err? ==> t == s1.(message := ConnectError(answers.admin.error)))
            && (answers.admin.Ok? && answers.verified.Err? ==>
                  t == s1.(isAdmin := SameAddress(answers.admin.value, address),
                           message := ConnectError(answers.verified.error)))
            && (answers.admin.Ok? && answers.verified.Ok? ==>
                  t == s1.(isAdmin := SameAddress(answers.admin.value, address),
                           isVerified := answers.verified.value,
                           message := ConnectError(answers.details.error)))
            && t.kycStatus == s.kycStatus && t.campaigns == s.campaigns
            && t.pendingRequests == s.pendingRequests && t.message != Connected
  {
  }

  /** The `accountsChanged` listener: a non-empty list re-runs the connect
      sequence (a listener exists only when a provider is present); an empty
      list clears the account and the balance and nothing else. */
  function AccountsChanged(s: AppState, accounts: seq<string>, answers: ConnectReads): (t: AppState)
    ensures |accounts| == 0 ==> t == s.(account := "", balance := None)
    ensures |accounts| == 0 ==>
              t.isAdmin == s.isAdmin && t.isVerified == s.isVerified
              && t.kycStatus == s.kycStatus && t.campaigns == s.campaigns
              && t.pendingRequests == s.pendingRequests
    ensures |accounts| > 0 ==> t == Connect(s, true, answers)
  {
    if |accounts| > 0 then Connect(s, true, answers) else s.(account := "", balance := None)
  }

  // ----- Form inputs and the filter buttons -----

  datatype FormField = KycNameField | KycCnicField | TitleField | DescriptionField | GoalField

  /** An `onChange` handler of one input. */
  function Edit(s: AppState, field: FormField, value: string): (t: AppState)
    ensures t.loading == s.loading && t.message == s.message && t.campaigns == s.campaigns
    ensures field == KycNameField ==> t == s.(kycName := value)
    ensures field == KycCnicField ==> t == s.(kycCnic := value)
    ensures field == TitleField ==> t == s.(campaignTitle := value)
    ensures field == DescriptionField ==> t == s.(campaignDescription := value)
    ensures field == GoalField ==> t == s.(campaignGoal := value)
  {
    match field
    case KycNameField => s.(kycName := value)
    case KycCnicField => s.(kycCnic := value)
    case TitleField => s.(campaignTitle := value)
    case DescriptionField => s.(campaignDescription := value)
    case GoalField => s.(campaignGoal := value)
  }

  /** A filter button: only the filter changes, and the page then shows the
      campaigns with that status (all of them for `All`). */
  function SelectFilter(s: AppState, sel: Selector): (t: AppState)
    ensures t == s.(campaignFilter := sel)
    ensures Displayed(t) == Filter(s.campaigns, sel)
  {
    s.(campaignFilter := sel)
  }

  // ----- Transaction handlers -----

  /** A handler that passed validation: the overlay goes up with a progress
      message. Nothing checks whether another call is still in flight. */
  function Begin(s: AppState, progress: string, call: Call): (r: Started)
    ensures r.state == s.(loading := true, message := progress) && r.call == Some(call)
  {
    Started(s.(loading := true, message := progress), Some(call))
  }

  /** A handler that failed validation: only the message changes, nothing is sent. */
  function Refuse(s: AppState, complaint: string): (r: Started)
    ensures r.state == s.(message := complaint) && r.call == None
  {
    Started(s.(message := complaint), None)
  }

  /** A handler whose `parseEther` throws before the contract call: the
      overlay and the progress message are replaced, in the same synchronous
      step, by the error message and `loading := false`; nothing is sent. */
  function Abort(s: AppState, reason: string): (r: Started)
    ensures r.state == s.(loading := false, message := ErrorMessage(reason)) && r.call == None
  {
    Started(s.(loading := false, message := ErrorMessage(reason)), None)
  }

  /** The `catch` and `finally` of every handler: on failure only the error
      message is set; either way `loading` ends false. */
  function Conclude(s: AppState, o: Outcome, success: AppState): (t: AppState)
    ensures !t.loading
    ensures o.Failed? ==> t == s.(loading := false, message := ErrorMessage(o.reason))
    ensures o.Confirmed? ==> t == success.(loading := false)
  {
    match o
    case Confirmed => success.(loading := false)
    case Failed(reason) => s.(message := ErrorMessage(reason), loading := false)
  }

  /** `submitKYC` up to its first await. */
  function StartSubmitKyc(s: AppState): (r: Started)
    ensures r.call.Some? <==> s.kycName != "" && s.kycCnic != ""
    ensures r.call.None? ==> r.state == s.(message := KycMissing)
    ensures r.call.Some? ==> r.call.value == SubmitKycCall(s.kycName, s.kycCnic)
                             && r.state == s.(loading := true, message := KycSubmitting)
  {
    if s.kycName == "" || s.kycCnic == "" then Refuse(s, KycMissing)
    else Begin(s, KycSubmitting, SubmitKycCall(s.kycName, s.kycCnic))
  }

  /** `submitKYC` after the call resolved. */
  function SettleSubmitKyc(s: AppState, o: Outcome): (t: AppState)
    ensures !t.loading
    ensures o.Failed? ==> t == s.(loading := false, message := ErrorMessage(o.reason))
    ensures o.Confirmed? ==> t == s.(loading := false, message := KycSubmitted,
                                     kycStatus := PendingSubmitted, kycName := "", kycCnic := "")
  {
    Conclude(s, o, s.(message := KycSubmitted, kycStatus := PendingSubmitted, kycName := "", kycCnic := ""))
  }

  /** `approveKYC(user)` up to its first await; it validates nothing. */
  function StartApproveKyc(s: AppState, user: string): (r: Started)
    ensures r.call == Some(ApproveKycCall(user))
    ensures r.state == s.(loading := true, message := KycApproving)
  {
    Begin(s, KycApproving, ApproveKycCall(user))
  }

  /** `approveKYC` after the call resolved: the pending list is reloaded. */
  function SettleApproveKyc(s: AppState, o: Outcome, src: PendingSource): (t: AppState)
    ensures !t.loading
    ensures o.Failed? ==> t == s.(loading := false, message := ErrorMessage(o.reason))
    ensures o.Confirmed? ==> t == s.(loading := false, message := KycApproved,
                                     pendingRequests := ReloadPending(s.pendingRequests, src))
  {
    Conclude(s, o, s.(message := KycApproved, pendingRequests := ReloadPending(s.pendingRequests, src)))
  }

  /** `rejectKYC(user)` up to its first await; it validates nothing. */
  function StartRejectKyc(s: AppState, user: string): (r: Started)
    ensures r.call == Some(RejectKycCall(user))
    ensures r.state == s.(loading := true, message := KycRejecting)
  {
    Begin(s, KycRejecting, RejectKycCall(user))
  }

  /** `rejectKYC` after the call resolved: the pending list is reloaded. */
  function SettleRejectKyc(s: AppState, o: Outcome, src: PendingSource): (t: AppState)
    ensures !t.loading
    ensures o.Failed? ==> t == s.(loading := false, message := ErrorMessage(o.reason))
    ensures o.Confirmed? ==> t == s.(loading := false, message := KycRejected,
                                     pendingRequests := ReloadPending(s.pendingRequests, src))
  {
    Conclude(s, o, s.(message := KycRejected, pendingRequests := ReloadPending(s.pendingRequests, src)))
  }

  /** `createCampaign` up to its first await. `goalWei` is what
      `parseEther(campaignGoal)` returns or throws; it runs before the call,
      so a goal that does not parse ends the handler there. */
  function StartCreateCampaign(s: AppState, goalWei: Result<int, string>): (r: Started)
    ensures r.call.Some? <==>
              s.campaignTitle != "" && s.campaignDescription != "" && s.campaignGoal != "" && goalWei.Ok?
    ensures s.campaignTitle == "" || s.campaignDescription == "" || s.campaignGoal == "" ==>
              r.state == s.(message := CampaignMissing)
    ensures s.campaignTitle != "" && s.campaignDescription != "" && s.campaignGoal != "" && goalWei.Err? ==>
              r.state == s.(loading := false, message := ErrorMessage(goalWei.error))
    ensures r.call.Some? ==>
              r.call.value == CreateCampaignCall(s.campaignTitle, s.campaignDescription, goalWei.value)
              && r.state == s.(loading := true, message := CampaignCreating)
  {
    if s.campaignTitle == "" || s.campaignDescription == "" || s.campaignGoal == "" then
      Refuse(s, CampaignMissing)
    else match goalWei
      case Err(e) => Abort(s, e)
      case Ok(wei) => Begin(s, CampaignCreating, CreateCampaignCall(s.campaignTitle, s.campaignDescription, wei))
  }

  /** `createCampaign` after the call resolved: the form is cleared and the campaigns reloaded. */
  function SettleCreateCampaign(s: AppState, o: Outcome, read: Option<seq<RawCampaign>>): (t: AppState)
    ensures !t.loading
    ensures o.Failed? ==> t == s.(loading := false, message := ErrorMessage(o.reason))
    ensures o.Confirmed? ==> t == s.(loading := false, message := CampaignCreated,
                                     campaignTitle := "", campaignDescription := "", campaignGoal := "",
                                     campaigns := ReloadCampaigns(s.campaigns, read))
  {
    Conclude(s, o, s.(message := CampaignCreated,
                      campaignTitle := "", campaignDescription := "", campaignGoal := "",
                      campaigns := ReloadCampaigns(s.campaigns, read)))
  }

  /** `!amount || amount <= 0`: the empty string and numbers up to zero are
      refused; text that converts to NaN passes (NaN <= 0 is false). */
  predicate AmountRefused(amount: AmountField) {
    amount.Blank? || (amount.Numeric? && amount.value <= 0.0)
  }

  /** `contribute(campaignId, amount)` up to its first await. A NaN passes
      the check, but `parseEther` then throws before the call is made. */
  function StartContribute(s: AppState, campaignId: nat, amount: AmountField): (r: Started)
    ensures r.call.Some? <==> amount.Numeric? && amount.value > 0.0 && amount.wei.Ok?
    ensures AmountRefused(amount) ==> r.state == s.(message := AmountInvalid)
    ensures amount.NotANumber? ==> r.state == s.(loading := false, message := ErrorMessage(amount.reason))
    ensures amount.Numeric? && amount.value > 0.0 && amount.wei.Err? ==>
              r.state == s.(loading := false, message := ErrorMessage(amount.wei.error))
    ensures r.call.Some? ==> r.call.value == ContributeCall(campaignId, amount.wei.value)
                             && r.state == s.(loading := true, message := Contributing)
  {
    if AmountRefused(amount) then Refuse(s, AmountInvalid)
    else match amount
      case NotANumber(reason) => Abort(s, reason)
      case Numeric(_, wei) =>
        match wei
        case Err(reason) => Abort(s, reason)
        case Ok(w) => Begin(s, Contributing, ContributeCall(campaignId, w))
  }

  /** The success path of `contribute` and `withdrawFunds`: success message,
      campaign reload, then the balance read, whose failure is caught by the
      same `catch` and overwrites the message. */
  function AfterFundsMoved(s: AppState, done: string, read: Option<seq<RawCampaign>>,
                           balance: Result<nat, string>): AppState
  {
    var s1 := s.(message := done, campaigns := ReloadCampaigns(s.campaigns, read));
    match balance
    case Ok(wei) => s1.(balance := Some(wei))
    case Err(reason) => s1.(message := ErrorMessage(reason))
  }

  /** `contribute` after the call resolved. */
  function SettleContribute(s: AppState, o: Outcome, read: Option<seq<RawCampaign>>,
                            balance: Result<nat, string>): (t: AppState)
    ensures !t.loading
    ensures o.Failed? ==> t == s.(loading := false, message := ErrorMessage(o.reason))
    ensures o.Confirmed? ==> t.campaigns == ReloadCampaigns(s.campaigns, read)
    ensures o.Confirmed? && balance.Ok? ==>
              t == s.(loading := false, message := Contributed,
                      campaigns := t.campaigns, balance := Some(balance.value))
    ensures o.Confirmed? && balance.Err? ==>
              t == s.(loading := false, message := ErrorMessage(balance.error), campaigns := t.campaigns)
  {
    Conclude(s, o, AfterFundsMoved(s, Contributed, read, balance))
  }

  /** `withdrawFunds(campaignId)` up to its first await; it validates nothing. */
  function StartWithdraw(s: AppState, campaignId: nat): (r: Started)
    ensures r.call == Some(WithdrawCall(campaignId))
    ensures r.state == s.(loading := true, message := Withdrawing)
  {
    Begin(s, Withdrawing, WithdrawCall(campaignId))
  }

  /** `withdrawFunds` after the call resolved. */
  function SettleWithdraw(s: AppState, o: Outcome, read: Option<seq<RawCampaign>>,
                          balance: Result<nat, string>): (t: AppState)
    ensures !t.loading
    ensures o.Failed? ==> t == s.(loading := false, message := ErrorMessage(o.reason))
    ensures o.Confirmed? ==> t.campaigns == ReloadCampaigns(s.campaigns, read)
    ensures o.Confirmed? && balance.Ok? ==>
              t == s.(loading := false, message := Withdrawn,
                      campaigns := t.campaigns, balance := Some(balance.value))
    ensures o.Confirmed? && balance.Err? ==>
              t == s.(loading := false, message := ErrorMessage(balance.error), campaigns := t.campaigns)
  {
    Conclude(s, o, AfterFundsMoved(s, Withdrawn, read, balance))
  }

  // ----- What the page offers -----

  /** The header shows the account, and the tabs are rendered, only while `account` is non-empty. */
  predicate SessionShown(s: AppState) {
    s.account != ""
  }

  /** `!isVerified && !isAdmin` shows a warning instead of the create form. */
  predicate CreateFormShown(s: AppState) {
    SessionShown(s) && !(!s.isVerified && !s.isAdmin)
  }

  /** The KYC form is rendered when `kycStatus === 'Not Submitted'`. */
  predicate KycFormShown(s: AppState) {
    SessionShown(s) && Label(s.kycStatus) == "Not Submitted"
  }

  predicate AdminPanelShown(s: AppState) {
    SessionShown(s) && s.isAdmin
  }

  /** The campaign cards on the page. */
  function Displayed(s: AppState): seq<Campaign> {
    Filter(s.campaigns, s.campaignFilter)
  }

  predicate ContributeOffered(s: AppState, c: Campaign) {
    SessionShown(s) && c in Displayed(s) && HasStatus(c, Active)
  }

  predicate WithdrawOffered(s: AppState, c: Campaign) {
    SessionShown(s) && c in Displayed(s) && HasStatus(c, Completed) && SameAddress(c.creator, s.account)
  }

  /** Every transaction button carries `disabled={loading}`. */
  predicate ButtonsEnabled(s: AppState) {
    !s.loading
  }

  // ----- Properties -----

  /** After a connect in which every read succeeded, the page offers the KYC
      form exactly to accounts without a record, the admin panel exactly to
      the registry's administrator, and the create form to verified accounts
      and the administrator. */
  lemma GatesAfterConnect(s: AppState, answers: ConnectReads)
    requires AllRead(answers) && answers.session.value.address != ""
    ensures var t := Connect(s, true, answers);
            var address := answers.session.value.address;
            (KycFormShown(t) <==> !answers.details.value.present)
            && (AdminPanelShown(t) <==> SameAddress(answers.admin.value, address))
            && (CreateFormShown(t) <==> answers.verified.value || SameAddress(answers.admin.value, address))
  {
  }

  /** An empty `accountsChanged` list hides every action, although the role
      flags and the caches of the previous account are kept. */
  lemma EmptyAccountsHideActions(s: AppState, answers: ConnectReads, c: Campaign)
    ensures var t := AccountsChanged(s, [], answers);
            !KycFormShown(t) && !CreateFormShown(t) && !AdminPanelShown(t)
            && !ContributeOffered(t, c) && !WithdrawOffered(t, c)
            && t.isAdmin == s.isAdmin && t.isVerified == s.isVerified
  {
  }

  /** A campaign never offers both a contribution and a withdrawal, and a
      withdrawal only to its creator. */
  lemma OffersExclusive(s: AppState, c: Campaign)
    ensures !(ContributeOffered(s, c) && WithdrawOffered(s, c))
    ensures WithdrawOffered(s, c) ==> HasStatus(c, Completed) && SameAddress(c.creator, s.account)
    ensures ContributeOffered(s, c) || WithdrawOffered(s, c) ==> c in s.campaigns
  {
  }

  /** A successful submission hides the KYC form (its label is no longer
      'Not Submitted'); while the call is in flight the page is unchanged
      apart from the overlay and the message. */
  lemma SubmissionHidesKycForm(s: AppState)
    requires s.kycName != "" && s.kycCnic != ""
    ensures var st := StartSubmitKyc(s);
            KycFormShown(st.state) == KycFormShown(s)
            && !KycFormShown(SettleSubmitKyc(st.state, Confirmed))
  {
  }

  /** After a failed call the inputs are still as typed, so pressing the
      button again sends the same call. */
  lemma RetryAfterFailureSendsSameCall(s: AppState, reason: string, goalWei: Result<int, string>)
    ensures var first := StartSubmitKyc(s);
            first.call.Some? ==> StartSubmitKyc(SettleSubmitKyc(first.state, Failed(reason))).call == first.call
    ensures var first := StartCreateCampaign(s, goalWei);
            first.call.Some? ==>
              StartCreateCampaign(SettleCreateCampaign(first.state, Failed(reason), None), goalWei).call == first.call
  {
  }

  /** The handlers do not consult `loading`: a second click while the first
      call is in flight sends a second call, and the first call settling
      lowers the overlay while the second is still unresolved. */
  lemma NoGuardAgainstOverlap(s: AppState, o: Outcome)
    requires s.kycName != "" && s.kycCnic != ""
    ensures var first := StartSubmitKyc(s);
            var second := StartSubmitKyc(first.state);
            first.state.loading && second.call.Some? && second.call == first.call
            && !SettleSubmitKyc(second.state, o).loading
  {
  }
}
