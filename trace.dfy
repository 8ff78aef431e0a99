/** Runs of the component over sequences of events, with the calls still
    awaiting confirmation counted beside the state. The count is not part of
    the component; it is how the model states what the `loading` flag tells
    the user. The handlers themselves never look at `loading`, but every
    transaction button carries `disabled={loading}`, so a click while the
    overlay is up reaches no handler. Hence at most one call is ever in flight,
    and the overlay is up exactly while it is unresolved. */
module Trace {
  import opened Wrappers
  import opened Kyc
  import opened Campaigns
  import M = AppModel

  /** The six transaction handlers. */
  datatype Kind = SubmitKycKind | ApproveKycKind | RejectKycKind | CreateCampaignKind | ContributeKind | WithdrawKind

  function KindOf(call: M.Call): Kind {
    match call
    case SubmitKycCall(_, _) => SubmitKycKind
    case ApproveKycCall(_) => ApproveKycKind
    case RejectKycCall(_) => RejectKycKind
    case CreateCampaignCall(_, _, _) => CreateCampaignKind
    case ContributeCall(_, _) => ContributeKind
    case WithdrawCall(_) => WithdrawKind
  }

  /** What can happen to the page: a click or keystroke, a wallet
      notification, or the resolution of a call sent earlier. */
  datatype Event =
    | ConnectClicked(providerPresent: bool, answers: M.ConnectReads)
    | AccountsNotified(accounts: seq<string>, answers: M.ConnectReads)
    | Typed(field: M.FormField, value: string)
    | FilterClicked(selector: Selector)
    | SubmitKycClicked
    | ApproveClicked(user: string)
    | RejectClicked(user: string)
    | CreateClicked(goalWei: Result<int, string>)
    | ContributeClicked(campaignId: nat, amount: M.AmountField)
    | WithdrawClicked(campaignId: nat)
    | SubmitKycResolved(outcome: M.Outcome)
    | ApproveResolved(outcome: M.Outcome, pending: PendingSource)
    | RejectResolved(outcome: M.Outcome, pending: PendingSource)
    | CreateResolved(outcome: M.Outcome, campaigns: Option<seq<RawCampaign>>)
    | ContributeResolved(outcome: M.Outcome, campaigns: Option<seq<RawCampaign>>, balance: Result<nat, string>)
    | WithdrawResolved(outcome: M.Outcome, campaigns: Option<seq<RawCampaign>>, balance: Result<nat, string>)
  {
    predicate IsResolution() {
      SubmitKycResolved? || ApproveResolved? || RejectResolved? || CreateResolved?
      || ContributeResolved? || WithdrawResolved?
    }

    /** The handler whose call a resolution completes. */
    function Resolves(): Kind
      requires IsResolution()
    {
      match this
      case SubmitKycResolved(_) => SubmitKycKind
      case ApproveResolved(_, _) => ApproveKycKind
      case RejectResolved(_, _) => RejectKycKind
      case CreateResolved(_, _) => CreateCampaignKind
      case ContributeResolved(_, _, _) => ContributeKind
      case WithdrawResolved(_, _, _) => WithdrawKind
    }

    predicate IsClick() {
      SubmitKycClicked? || ApproveClicked? || RejectClicked? || CreateClicked?
      || ContributeClicked? || WithdrawClicked?
    }
  }

  /** The page state and the calls sent but not yet resolved. */
  datatype Machine = Machine(ui: M.AppState, inFlight: multiset<Kind>)

  /** At most one call is unresolved, and the overlay is up exactly while one is. */
  predicate Consistent(m: Machine) {
    |m.inFlight| <= 1 && (m.ui.loading <==> |m.inFlight| == 1)
  }

  function Start(): (m: Machine)
    ensures Consistent(m) && m.inFlight == multiset{}
  {
    Machine(M.Initial(), multiset{})
  }

  /** A click: whatever call the handler sent joins those in flight. */
  function Launch(m: Machine, st: M.Started): Machine {
    Machine(st.state, if st.call.Some? then m.inFlight + multiset{KindOf(st.call.value)} else m.inFlight)
  }

  /** A resolution is possible only for a call of that handler in flight. */
  function Complete(m: Machine, k: Kind, t: M.AppState): Option<Machine> {
    if k in m.inFlight then Some(Machine(t, m.inFlight - multiset{k})) else None
  }

  /** An event that neither sends nor resolves a call. */
  function FireOther(s: M.AppState, e: Event): (t: M.AppState)
    requires !e.IsResolution() && !e.IsClick()
    ensures t.loading == s.loading
  {
    match e
    case ConnectClicked(present, answers) => M.Connect(s, present, answers)
    case AccountsNotified(accounts, answers) => M.AccountsChanged(s, accounts, answers)
    case Typed(field, value) => M.Edit(s, field, value)
    case FilterClicked(sel) => M.SelectFilter(s, sel)
  }

  /** A click on an enabled transaction button: the synchronous part of its
      handler, which leaves the overlay up exactly when it sent a call. */
  function FireClick(s: M.AppState, e: Event): (r: M.Started)
    requires e.IsClick() && M.ButtonsEnabled(s)
    ensures r.state.loading <==> r.call.Some?
  {
    match e
    case SubmitKycClicked => M.StartSubmitKyc(s)
    case ApproveClicked(user) => M.StartApproveKyc(s, user)
    case RejectClicked(user) => M.StartRejectKyc(s, user)
    case CreateClicked(goalWei) => M.StartCreateCampaign(s, goalWei)
    case ContributeClicked(id, amount) => M.StartContribute(s, id, amount)
    case WithdrawClicked(id) => M.StartWithdraw(s, id)
  }

  /** The resolution of a call: the rest of its handler. */
  function FireResolution(s: M.AppState, e: Event): (t: M.AppState)
    requires e.IsResolution()
    ensures !t.loading
  {
    match e
    case SubmitKycResolved(o) => M.SettleSubmitKyc(s, o)
    case ApproveResolved(o, src) => M.SettleApproveKyc(s, o, src)
    case RejectResolved(o, src) => M.SettleRejectKyc(s, o, src)
    case CreateResolved(o, read) => M.SettleCreateCampaign(s, o, read)
    case ContributeResolved(o, read, bal) => M.SettleContribute(s, o, read, bal)
    case WithdrawResolved(o, read, bal) => M.SettleWithdraw(s, o, read, bal)
  }

  /** One event. None means the event cannot occur in that state. A click on
      a button disabled by `loading` changes nothing. */
  function Fire(m: Machine, e: Event): (r: Option<Machine>)
    ensures r.None? <==> e.IsResolution() && e.Resolves() !in m.inFlight
    ensures r.Some? && e.IsResolution() ==>
              !r.value.ui.loading && r.value.inFlight == m.inFlight - multiset{e.Resolves()}
    ensures r.Some? && !e.IsResolution() && !e.IsClick() ==>
              r.value.ui.loading == m.ui.loading && r.value.inFlight == m.inFlight
    ensures e.IsClick() && m.ui.loading ==> r == Some(m)
    ensures r.Some? && e.IsClick() && !m.ui.loading ==>
              (r.value.inFlight == m.inFlight && !r.value.ui.loading)
              || (|r.value.inFlight| == |m.inFlight| + 1 && r.value.ui.loading)
    ensures Consistent(m) && r.Some? ==> Consistent(r.value)
  {
    if e.IsResolution() then Complete(m, e.Resolves(), FireResolution(m.ui, e))
    else if e.IsClick() then
      if m.ui.loading then Some(m) else Some(Launch(m, FireClick(m.ui, e)))
    else Some(Machine(FireOther(m.ui, e), m.inFlight))
  }

  /** The events in order; None when one of them cannot occur. */
  function Run(m: Machine, events: seq<Event>): (r: Option<Machine>)
    ensures Consistent(m) && r.Some? ==> Consistent(r.value)
    ensures r.Some? && events != [] && events[|events| - 1].IsResolution() ==> !r.value.ui.loading
    decreases |events|
  {
    if events == [] then Some(m)
    else match Fire(m, events[0])
      case None => None
      case Some(m1) =>
        RunLast(m1, events);
        Run(m1, events[1..])
  }

  /** Splitting off the first event leaves the last one in place. */
  lemma RunLast(m1: Machine, events: seq<Event>)
    requires events != []
    ensures events[1..] != [] ==> events[1..][|events[1..]| - 1] == events[|events| - 1]
  {
  }

  /** Running two stretches of events one after the other. */
  lemma {:induction false} RunConcat(m: Machine, a: seq<Event>, b: seq<Event>)
    ensures Run(m, a + b) == match Run(m, a) case None => None case Some(m1) => Run(m1, b)
    decreases |a|
  {
    if a != [] {
      assert (a + b)[0] == a[0];
      assert (a + b)[1..] == a[1..] + b;
      match Fire(m, a[0]) {
        case None =>
        case Some(m1) => RunConcat(m1, a[1..], b);
      }
    } else {
      assert a + b == b;
    }
  }

  /** From the initial page, every run keeps at most one call in flight, and
      the transaction buttons are enabled exactly when none is. */
  lemma OverlayIffCallPending(events: seq<Event>)
    requires Run(Start(), events).Some?
    ensures var m := Run(Start(), events).value;
            |m.inFlight| <= 1 && (M.ButtonsEnabled(m.ui) <==> |m.inFlight| == 0)
  {
  }

  /** A second click on Submit KYC while the first submission is in flight
      hits a disabled button: one call is sent, and the state is what the
      first click left. */
  lemma SecondClickSendsNothing(s: M.AppState)
    requires s.kycName != "" && s.kycCnic != "" && !s.loading
    ensures Run(Machine(s, multiset{}), [SubmitKycClicked, SubmitKycClicked])
            == Some(Machine(M.StartSubmitKyc(s).state, multiset{SubmitKycKind}))
  {
    var m1 := Fire(Machine(s, multiset{}), SubmitKycClicked).value;
    assert m1 == Machine(M.StartSubmitKyc(s).state, multiset{SubmitKycKind});
    var evs := [SubmitKycClicked, SubmitKycClicked];
    assert evs[1..] == [SubmitKycClicked];
    assert Run(m1, evs[1..]) == Some(m1);
  }
}
