# Crowdfunding dApp front end: a verified model of the page's state

The crowdfunding dApp is a single React component, `App`. It connects the
browser wallet and reads the user's KYC record from a KYC registry contract.
It lists campaigns from a crowdfunding contract, filtered by status. It lets a
verified user create campaigns, lets anyone contribute to active campaigns,
lets creators withdraw from completed ones, and lets the registry's
administrator approve or reject pending KYC requests.

This project models that component's state and its event handlers. It proves
what the page promises about them.

Modules:

- `Wrappers`: `Option` and `Result`.
- `Addresses`: JavaScript `toLowerCase` on ASCII, the case-insensitive
  address comparison, JavaScript `substring` (indices clamped, and swapped when
  start > end), and the `0x1234...abcd` truncation used for accounts and
  creators.
- `Kyc`: the KYC record the registry returns, the status derived from it (and
  the exact strings the page shows), and the pending-request list the
  administrator sees.
- `Campaigns`: normalising the contract's campaign records (the status ordinal
  becomes `Active`/`Completed`/`Withdrawn`, or *undefined* outside 0..2), and
  the status filter behind the filter buttons. It proves that the filter keeps
  order and multiplicity.
- `AppModel`: the component state as one value (`AppState`) and one
  transition function for each handler. Each asynchronous transaction handler
  is split at its first `await`:
  - `StartX` is the synchronous part: validation, `loading := true`, the
    progress message, and the contract call that is sent. When `parseEther`
    throws before the call, this step also runs the `catch` and the `finally`.
  - `SettleX` is what happens once the call and `tx.wait()` resolve: the
    success message, cleared inputs, reloads, and the `catch` and the
    `finally` that resets `loading`.

  The module also defines the render gates (which forms and buttons the page
  shows) and lemmas relating handlers and gates.
- `Ui`: the component as a class. It has one field for each state variable
  the model keeps; the provider, signer, contract handles and `activeTab` are
  not fields. Each handler is a method that assigns the fields in the order the
  handler's `set...` calls do. Each state-changing method is proved equal to
  its `AppModel` function on `State()`, and `FilteredCampaigns` states the
  filter outright.
- `Trace`: runs of the page over sequences of clicks, wallet notifications and
  call resolutions. A multiset beside the state counts the calls still in
  flight. A click on a transaction button while `loading` is true is ignored,
  because every such button is disabled then. The invariant is that at most
  one call is in flight and the overlay is up exactly while it is unresolved.

External effects are parameters:

- `ConnectReads` holds the wallet answers and ledger reads awaited by
  `connectWallet`. Each is a `Result`, so a read that throws is modelled.
- An `Outcome` (`Confirmed` or `Failed(reason)`) gives the result of each
  contract call and its `wait()`.
- An `Option` gives a list reload, where `None` means the read threw and was
  caught.
- A `Result<nat, string>` gives a balance re-read.
- A `Result<int, string>` gives what `parseEther` makes of the campaign goal
  or the contribution amount. It is wei, or the message that `parseEther`
  throws.

Balances are wei (`nat`), and parsed goals and amounts are wei (`int`). The empty balance string of the initial state is
`None`.

Behaviour of the code that the model keeps:

- The handlers never check `loading`. Called a second time while a call is in
  flight, a handler sends a second call (`AppModel.NoGuardAgainstOverlap`).
  Only the `disabled={loading}` buttons keep this from happening on the page
  (`Trace.SecondClickSendsNothing`, `Trace.Run`).
- An empty `accountsChanged` list clears `account` and `balance` only. Roles,
  KYC status and caches of the previous account are kept
  (`AppModel.EmptyAccountsHideActions`).
- A campaign whose status ordinal is 3 or more is kept in the list with an
  undefined status, not dropped. Such a campaign matches no filter button
  except `All` (`Campaigns.StatusFiltersPartition`).
- After a successful `submitKYC`, the status string is `'Pending ⏳'`, not
  the `'Pending'` derived on connect. Both differ from `'Not Submitted'`, so
  the KYC form hides either way (`AppModel.SubmissionHidesKycForm`).
- A contribution amount that converts to NaN passes the `!amount || amount <= 0`
  check. `parseEther` then throws before the contract call, so the handler ends
  at once with `'Error: …'` and `loading` false, and nothing is sent. A
  campaign goal that `parseEther` rejects ends `createCampaign` in the same way
  (`AppModel.StartContribute`, `AppModel.StartCreateCampaign`).

## Model

All source paths are `CrowdFundingDapp/crowdfunding/src/App.js`.

| member | source | states |
|---|---|---|
| Addresses.LowerChar | CrowdFundingDapp/crowdfunding/src/App.js:78 | `toLowerCase` on one character: the result is never upper-case, only upper-case letters change, and they move down by 32 |
| Addresses.Lower | CrowdFundingDapp/crowdfunding/src/App.js:78 | lower-casing keeps the length and leaves no upper-case letter |
| Addresses.SameAddress | CrowdFundingDapp/crowdfunding/src/App.js:78 | `a.toLowerCase() === b.toLowerCase()`, characterised position by position in `SameAddressIffEqualIgnoringCase` |
| Addresses.LowerCharAgree | CrowdFundingDapp/crowdfunding/src/App.js:78 | two characters lower-case to the same one exactly when they are equal ignoring case |
| Addresses.SameAddressIffEqualIgnoringCase | CrowdFundingDapp/crowdfunding/src/App.js:78 | the `a.toLowerCase() === b.toLowerCase()` check holds exactly when the addresses have equal length and agree position by position ignoring case |
| Addresses.LowerIdempotent | CrowdFundingDapp/crowdfunding/src/App.js:78 | lower-casing twice is lower-casing once |
| Addresses.SameAddressEquivalence | CrowdFundingDapp/crowdfunding/src/App.js:459-460 | the address comparison is reflexive, symmetric and transitive, and an address matches its lower-cased form |
| Addresses.Clamp | CrowdFundingDapp/crowdfunding/src/App.js:338 | a `substring` index is clamped into 0..length |
| Addresses.Substring | CrowdFundingDapp/crowdfunding/src/App.js:338 | JavaScript `substring`: the slice between in-range indices, the swapped slice when start > end, and the clamped length in all cases |
| Addresses.Truncate | CrowdFundingDapp/crowdfunding/src/App.js:427 | the display form keeps the first 6 characters, then `...`, then everything from index 38; a 42-character address becomes 13 characters ending in its last 4 |
| Kyc.Label | CrowdFundingDapp/crowdfunding/src/App.js:88-95 | the status string shown; it is `'Not Submitted'` only for that status and empty only before a connect |
| Kyc.LabelInjective | CrowdFundingDapp/crowdfunding/src/App.js:168 | distinct statuses show distinct strings, including `'Pending ⏳'` set after a submission against the derived `'Pending'` |
| Kyc.DeriveStatus | CrowdFundingDapp/crowdfunding/src/App.js:86-96 | `Not Submitted` iff the record does not exist; `Verified` iff it exists and is verified, even when also rejected; `Rejected` iff it exists, is not verified and is rejected; `Pending` iff it exists and is neither |
| Kyc.DeriveStatusIgnoresIdentity | CrowdFundingDapp/crowdfunding/src/App.js:86-96 | the status depends on the three flags only, not on the name and CNIC |
| Kyc.Requests | CrowdFundingDapp/crowdfunding/src/App.js:137-146 | the details lookup succeeds iff every pending address can be read; the requests then have the same length and order as the addresses and carry each address with its record's name and CNIC |
| Kyc.LoadPendingRequests | CrowdFundingDapp/crowdfunding/src/App.js:134-151 | the load succeeds iff the address list and every record can be read; the list then matches the addresses one for one |
| Kyc.ReloadPending | CrowdFundingDapp/crowdfunding/src/App.js:147-150 | a failed load keeps the previous pending list; a successful one replaces it |
| Campaigns.Name | CrowdFundingDapp/crowdfunding/src/App.js:125 | no status is named `'All'`, so the `All` button never collides with a status |
| Campaigns.NameInjective | CrowdFundingDapp/crowdfunding/src/App.js:125 | the three status names are distinct |
| Campaigns.StatusOfOrdinal | CrowdFundingDapp/crowdfunding/src/App.js:125 | ordinal 0, 1 and 2 give `Active`, `Completed` and `Withdrawn` respectively, and every other ordinal gives undefined |
| Campaigns.Ordinal | CrowdFundingDapp/crowdfunding/src/App.js:125 | every status has an ordinal below 3 that maps back to it |
| Campaigns.OrdinalRoundTrip | CrowdFundingDapp/crowdfunding/src/App.js:125 | an ordinal below 3 maps to a status whose ordinal is itself |
| Campaigns.Normalize | CrowdFundingDapp/crowdfunding/src/App.js:118-126 | every field is copied, and the status is defined iff the ordinal is below 3 and then is that ordinal's status |
| Campaigns.NormalizeAll | CrowdFundingDapp/crowdfunding/src/App.js:118 | the normalised list has the raw list's length and order, element by element |
| Campaigns.ReloadCampaigns | CrowdFundingDapp/crowdfunding/src/App.js:115-131 | a failed load keeps the previous campaigns; a successful one replaces them by the normalised read |
| Campaigns.Keep | CrowdFundingDapp/crowdfunding/src/App.js:309 | `filter` by status: no longer than the input, and holding exactly the input's campaigns with that status |
| Campaigns.Filter | CrowdFundingDapp/crowdfunding/src/App.js:305-310 | `All` returns the list unchanged; a status returns exactly `Keep` of the list, that is the campaigns with that status, each as often as in the list and in list order |
| Campaigns.KeepIsSubsequence | CrowdFundingDapp/crowdfunding/src/App.js:309 | the filtered list keeps the original relative order |
| Campaigns.SubsequenceOfTail | CrowdFundingDapp/crowdfunding/src/App.js:309 | a subsequence of a list's tail is a subsequence of the list |
| Campaigns.SubsequenceDropHead | CrowdFundingDapp/crowdfunding/src/App.js:309 | dropping the first element of a subsequence leaves a subsequence |
| Campaigns.KeepConcat | CrowdFundingDapp/crowdfunding/src/App.js:309 | filtering distributes over concatenation |
| Campaigns.KeepSingleton | CrowdFundingDapp/crowdfunding/src/App.js:309 | a one-campaign list is kept iff the campaign has the status |
| Campaigns.KeepCount | CrowdFundingDapp/crowdfunding/src/App.js:309 | filtering keeps every matching campaign as many times as it occurs and drops every other one |
| Campaigns.KeepIdempotent | CrowdFundingDapp/crowdfunding/src/App.js:309 | filtering twice by one status is filtering once |
| Campaigns.Statuses | CrowdFundingDapp/crowdfunding/src/App.js:125 | the campaigns' statuses position by position |
| Campaigns.CountUnnamed | CrowdFundingDapp/crowdfunding/src/App.js:125 | the number of campaigns whose status is undefined, at most the list length |
| Campaigns.CountUnnamedIsMultiplicity | CrowdFundingDapp/crowdfunding/src/App.js:125 | that number is the multiplicity of the undefined status among the campaigns' statuses |
| Campaigns.StatusFiltersPartition | CrowdFundingDapp/crowdfunding/src/App.js:389-412 | the Active, Completed and Withdrawn views together with the campaigns of undefined status account for every campaign exactly once |
| AppModel.Initial | CrowdFundingDapp/crowdfunding/src/App.js:12-37 | the `useState` initial values: no account, no balance, no roles, no status, empty caches, all five form inputs empty, not loading, no message, filter `All` |
| AppModel.ErrorMessage | CrowdFundingDapp/crowdfunding/src/App.js:173 | the handlers' error message is `'Error: '` followed by the reason |
| AppModel.ConnectError | CrowdFundingDapp/crowdfunding/src/App.js:110 | the connect error message is `'Error connecting wallet: '` followed by the reason |
| AppModel.Connect | CrowdFundingDapp/crowdfunding/src/App.js:40-112 | without a provider only the install message is set; a failing account request sets only the error message; the form inputs, `loading` and the filter are never touched; the pending list changes only on a fully successful connect by the administrator |
| AppModel.ReadAccount | CrowdFundingDapp/crowdfunding/src/App.js:77-82 | a failing admin read stops with only the error message; a failing verification read keeps the admin flag just set; otherwise the connect goes on to the KYC record |
| AppModel.ReadRecord | CrowdFundingDapp/crowdfunding/src/App.js:85-106 | a failing details read sets only the error message; otherwise the derived status, the success message and the campaign reload are set, and the pending list is reloaded iff the account is the administrator |
| AppModel.ConnectSucceeds | CrowdFundingDapp/crowdfunding/src/App.js:56-106 | a connect in which every read succeeds sets account and balance, `isAdmin` iff the admin address equals the account ignoring case, `isVerified`, the derived status and the success message, reloads the campaigns, and reloads the pending list only for the administrator |
| AppModel.ConnectFailsPartway | CrowdFundingDapp/crowdfunding/src/App.js:56-110 | a read that throws after the session is established keeps what the earlier steps set, sets the connect error, and leaves the status and both caches as they were |
| AppModel.AccountsChanged | CrowdFundingDapp/crowdfunding/src/App.js:315-321 | an empty list clears account and balance and nothing else (roles, status and caches are kept); a non-empty list re-runs the connect sequence |
| AppModel.Edit | CrowdFundingDapp/crowdfunding/src/App.js:489 | an `onChange` handler sets its one input and nothing else |
| AppModel.SelectFilter | CrowdFundingDapp/crowdfunding/src/App.js:389-412 | a filter button changes only the filter, and the page then shows the filter of the campaigns by that selector |
| AppModel.Begin | CrowdFundingDapp/crowdfunding/src/App.js:161-162 | a handler past validation raises `loading`, sets its progress message and sends its call, without looking at `loading` |
| AppModel.Abort | CrowdFundingDapp/crowdfunding/src/App.js:258-276 | a `parseEther` that throws before the call: the same synchronous step ends with the error message and `loading` false, and nothing is sent |
| AppModel.Refuse | CrowdFundingDapp/crowdfunding/src/App.js:155-158 | a handler failing validation sets only its message and sends nothing |
| AppModel.Conclude | CrowdFundingDapp/crowdfunding/src/App.js:171-176 | the `catch` sets only `'Error: ' + reason`, the `finally` always lowers `loading` |
| AppModel.StartSubmitKyc | CrowdFundingDapp/crowdfunding/src/App.js:154-164 | the call is sent iff name and CNIC are both non-empty, and carries them; otherwise only the message changes |
| AppModel.SettleSubmitKyc | CrowdFundingDapp/crowdfunding/src/App.js:164-176 | success sets the message and `'Pending ⏳'` and clears name and CNIC; failure sets only the error message; `loading` ends false |
| AppModel.StartApproveKyc | CrowdFundingDapp/crowdfunding/src/App.js:180-185 | no validation: the approval call for the given user is always sent, with the overlay and the progress message |
| AppModel.SettleApproveKyc | CrowdFundingDapp/crowdfunding/src/App.js:185-195 | success sets the message and reloads the pending list; failure sets only the error message; `loading` ends false |
| AppModel.StartRejectKyc | CrowdFundingDapp/crowdfunding/src/App.js:199-204 | no validation: the rejection call for the given user is always sent, with the overlay and the progress message |
| AppModel.SettleRejectKyc | CrowdFundingDapp/crowdfunding/src/App.js:204-214 | success sets the message and reloads the pending list; failure sets only the error message; `loading` ends false |
| AppModel.StartCreateCampaign | CrowdFundingDapp/crowdfunding/src/App.js:218-233 | the call is sent iff title, description and goal are all non-empty and the goal parses, and carries the title, the description and the goal in wei; a missing field sets only the message; a goal that does not parse ends with the error message and `loading` false |
| AppModel.SettleCreateCampaign | CrowdFundingDapp/crowdfunding/src/App.js:234-247 | success sets the message, clears the three inputs and reloads the campaigns; failure keeps the inputs as typed and sets only the error message; `loading` ends false |
| AppModel.StartContribute | CrowdFundingDapp/crowdfunding/src/App.js:251-264 | the call is sent iff the amount is a positive number that parses, and carries it in wei; a blank or non-positive amount sets only the message; a NaN passes the check but `parseEther` throws, so the handler ends with the error message and `loading` false |
| AppModel.AmountRefused | CrowdFundingDapp/crowdfunding/src/App.js:252 | `!amount` or `amount <= 0`: the empty string and numbers up to zero, but not NaN |
| AppModel.AfterFundsMoved | CrowdFundingDapp/crowdfunding/src/App.js:267-272 | the success path of a contribution or withdrawal: success message, campaign reload, then the balance re-read, whose failure overwrites the message |
| AppModel.SettleContribute | CrowdFundingDapp/crowdfunding/src/App.js:265-278 | success sets the message, reloads the campaigns and the balance, and a failing balance read overwrites the message with its error; failure sets only the error message; `loading` ends false |
| AppModel.StartWithdraw | CrowdFundingDapp/crowdfunding/src/App.js:282-287 | no validation: the withdrawal call is always sent, with the overlay and the progress message |
| AppModel.SettleWithdraw | CrowdFundingDapp/crowdfunding/src/App.js:288-301 | as for a contribution, with the withdrawal message |
| AppModel.SessionShown | CrowdFundingDapp/crowdfunding/src/App.js:352 | the tabs and every action are rendered only while `account` is non-empty |
| AppModel.CreateFormShown | CrowdFundingDapp/crowdfunding/src/App.js:479 | the create form instead of the warning: a session and not (`!isVerified && !isAdmin`) |
| AppModel.KycFormShown | CrowdFundingDapp/crowdfunding/src/App.js:523 | the KYC form: a session and the status string `'Not Submitted'` |
| AppModel.AdminPanelShown | CrowdFundingDapp/crowdfunding/src/App.js:550 | the admin panel: a session and `isAdmin` |
| AppModel.Displayed | CrowdFundingDapp/crowdfunding/src/App.js:419 | the campaign cards are `getFilteredCampaigns()` |
| AppModel.ContributeOffered | CrowdFundingDapp/crowdfunding/src/App.js:439 | a contribute box: a session and a displayed campaign whose status is `Active` |
| AppModel.WithdrawOffered | CrowdFundingDapp/crowdfunding/src/App.js:459-460 | a withdraw button: a session and a displayed `Completed` campaign whose creator is the account ignoring case |
| AppModel.ButtonsEnabled | CrowdFundingDapp/crowdfunding/src/App.js:452 | every transaction button is enabled exactly while `loading` is false |
| AppModel.GatesAfterConnect | CrowdFundingDapp/crowdfunding/src/App.js:479 | after a successful connect, the KYC form shows iff no record exists, the admin panel iff the account is the administrator, and the create form iff the account is verified or the administrator |
| AppModel.EmptyAccountsHideActions | CrowdFundingDapp/crowdfunding/src/App.js:352 | after an empty `accountsChanged` no form, panel, contribution or withdrawal is offered, although the role flags are kept |
| AppModel.OffersExclusive | CrowdFundingDapp/crowdfunding/src/App.js:439-460 | no campaign offers both a contribution and a withdrawal; a withdrawal is offered only on a completed campaign whose creator is the account ignoring case; offered campaigns are loaded campaigns |
| AppModel.SubmissionHidesKycForm | CrowdFundingDapp/crowdfunding/src/App.js:523 | sending a submission leaves the KYC form as it was and a confirmed submission hides it |
| AppModel.RetryAfterFailureSendsSameCall | CrowdFundingDapp/crowdfunding/src/App.js:171-173 | after a failed KYC submission or campaign creation the inputs are unchanged, so the next click sends the same call |
| AppModel.NoGuardAgainstOverlap | CrowdFundingDapp/crowdfunding/src/App.js:160-164 | a second submission while the first is in flight is sent too, and either one settling lowers the overlay |
| Ui.App.State | CrowdFundingDapp/crowdfunding/src/App.js:12-37 | the fields as one `AppModel.AppState` value |
| Ui.App.constructor | CrowdFundingDapp/crowdfunding/src/App.js:12-37 | the fields start at the `useState` values |
| Ui.App.ConnectWallet | CrowdFundingDapp/crowdfunding/src/App.js:40-112 | the step-by-step connect leaves the state `AppModel.Connect` gives |
| Ui.App.ReadAccount | CrowdFundingDapp/crowdfunding/src/App.js:77-82 | the role reads leave the state `AppModel.ReadAccount` gives |
| Ui.App.ReadRecord | CrowdFundingDapp/crowdfunding/src/App.js:85-106 | the record read and the loads leave the state `AppModel.ReadRecord` gives |
| Ui.App.AccountsChanged | CrowdFundingDapp/crowdfunding/src/App.js:315-321 | the listener leaves the state `AppModel.AccountsChanged` gives |
| Ui.App.Edit | CrowdFundingDapp/crowdfunding/src/App.js:530 | an input's `onChange` leaves the state `AppModel.Edit` gives |
| Ui.App.SelectFilter | CrowdFundingDapp/crowdfunding/src/App.js:391 | a filter button leaves the state `AppModel.SelectFilter` gives |
| Ui.App.FilteredCampaigns | CrowdFundingDapp/crowdfunding/src/App.js:305-310 | `All` returns the campaigns; a status returns exactly the campaigns with it, in their original order |
| Ui.App.SubmitKyc | CrowdFundingDapp/crowdfunding/src/App.js:154-164 | state and call sent as `AppModel.StartSubmitKyc` |
| Ui.App.SettleSubmitKyc | CrowdFundingDapp/crowdfunding/src/App.js:164-176 | state as `AppModel.SettleSubmitKyc` |
| Ui.App.ApproveKyc | CrowdFundingDapp/crowdfunding/src/App.js:180-185 | state and call sent as `AppModel.StartApproveKyc` |
| Ui.App.SettleApproveKyc | CrowdFundingDapp/crowdfunding/src/App.js:185-195 | state as `AppModel.SettleApproveKyc` |
| Ui.App.RejectKyc | CrowdFundingDapp/crowdfunding/src/App.js:199-204 | state and call sent as `AppModel.StartRejectKyc` |
| Ui.App.SettleRejectKyc | CrowdFundingDapp/crowdfunding/src/App.js:204-214 | state as `AppModel.SettleRejectKyc` |
| Ui.App.CreateCampaign | CrowdFundingDapp/crowdfunding/src/App.js:218-233 | state and call sent as `AppModel.StartCreateCampaign` |
| Ui.App.SettleCreateCampaign | CrowdFundingDapp/crowdfunding/src/App.js:234-247 | state as `AppModel.SettleCreateCampaign` |
| Ui.App.Contribute | CrowdFundingDapp/crowdfunding/src/App.js:251-264 | state and call sent as `AppModel.StartContribute` |
| Ui.App.SettleContribute | CrowdFundingDapp/crowdfunding/src/App.js:265-278 | state as `AppModel.SettleContribute` |
| Ui.App.WithdrawFunds | CrowdFundingDapp/crowdfunding/src/App.js:282-287 | state and call sent as `AppModel.StartWithdraw` |
| Ui.App.SettleWithdrawFunds | CrowdFundingDapp/crowdfunding/src/App.js:288-301 | state as `AppModel.SettleWithdraw` |
| Trace.Start | CrowdFundingDapp/crowdfunding/src/App.js:34 | a fresh page has no call in flight and is consistent |
| Trace.FireOther | CrowdFundingDapp/crowdfunding/src/App.js:313-324 | connects, wallet notifications, typing and filter clicks leave `loading` as it was |
| Trace.FireClick | CrowdFundingDapp/crowdfunding/src/App.js:541 | a click on an enabled transaction button leaves the overlay up exactly when its handler sent a call |
| Trace.FireResolution | CrowdFundingDapp/crowdfunding/src/App.js:175 | every resolution ends with `loading` false |
| Trace.Fire | CrowdFundingDapp/crowdfunding/src/App.js:452 | an event fails only when it resolves a call that is not in flight; a click while `loading` changes nothing; a click that sends a call adds it to the in-flight calls and a resolution removes one; the invariant (at most one call in flight, overlay up exactly while one is) is preserved |
| Trace.Run | CrowdFundingDapp/crowdfunding/src/App.js:588-593 | every run preserves the invariant: at most one call is in flight and the overlay is up exactly while it is unresolved; a run ending with a resolution leaves the overlay down |
| Trace.RunConcat | CrowdFundingDapp/crowdfunding/src/App.js:588-593 | running two event sequences one after another is running their concatenation |
| Trace.OverlayIffCallPending | CrowdFundingDapp/crowdfunding/src/App.js:452 | from a fresh page at most one call is ever in flight, and the transaction buttons are enabled exactly when none is |
| Trace.SecondClickSendsNothing | CrowdFundingDapp/crowdfunding/src/App.js:541 | a second Submit KYC click while the first submission is in flight hits the disabled button: one call is sent and the state is what the first click left |

## Left out

- `scripts/deploy.js` (contract deployment and writing the configuration
  files) is not part of this model. It is deployment I/O.
- The ethers library (`BrowserProvider`, `getSigner`, `Contract`,
  `getBalance`, `parseEther`, `formatEther`) is foreign code. Its answers are
  parameters and amounts are integer wei. Which texts `parseEther` accepts is
  not modelled: its answer is a parameter. The one exception is that a
  non-numeric text always throws.
- The provider, signer and contract handles are not modelled as state. The
  page shows the transaction buttons only after a connect has set the
  handles, so a call through a null handle does not arise.
- Floating-point display is left out: the balance with four decimals, a
  campaign's goal and raised amount in ether, and the percent-funded bar and
  label, including a goal of zero.
- The `Promise.all` fan-out in `loadPendingRequests` is modelled as one
  sequential map over the addresses, because only its result matters.
- The interleaving of the awaits inside `connectWallet` with other events is
  left out. The connect sequence is one atomic step over its reads, so
  `ConnectClicked` in a trace is atomic.
- Stale closures are left out. The balance re-read of `contribute` and
  `withdrawFunds` uses the `account` of the render that created the handler,
  and a listener registered once calls the first render's `connectWallet`.
  The model uses current state.
- JSX markup, CSS classes, the `activeTab` state, `document.getElementById`,
  and the mechanics of registering the `accountsChanged` listener are left
  out.
- The `message.includes('Error')` styling is left out.
- A click in a trace is constrained only by `disabled={loading}`. Whether the
  page renders that button at all (the gates of `AppModel`) is stated by the
  gate lemmas, not checked for each click of a run.
- A campaign card with an undefined status makes `status.toLowerCase()`
  throw while rendering. The model leaves rendering out and keeps such a
  campaign in the list.
- `Addresses.Lower`: maps only ASCII `A`–`Z`, as a hexadecimal address
  needs. JavaScript's Unicode case mapping of other letters is left out.
- `AppModel.Connect`: the facts about a fully or partly successful connect
  are stated in `AppModel.ConnectSucceeds` and `AppModel.ConnectFailsPartway`
  rather than in its own contract.
