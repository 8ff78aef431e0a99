/** The identity-verification (KYC) side of the client: the record the
    registry returns, the status shown to the user, and the administrator's
    list of pending requests. */
module Kyc {
  import opened Wrappers

  /** The tuple returned by `getKYCDetails(address)`: index 0 is the name,
      1 the CNIC, 2 `verified`, 3 `exists` (named `present` here, since
      `exists` is a keyword) and 4 `rejected`. */
  datatype KycRecord = KycRecord(name: string, cnic: string, verified: bool, present: bool, rejected: bool)

  /** The values the `kycStatus` state variable takes. `Unset` is its initial
      empty string; `PendingSubmitted` is the label set right after a
      successful submission, which is not the same string as `Pending`. */
  datatype KycStatus = Unset | NotSubmitted | Pending | Verified | Rejected | PendingSubmitted

  /** The string the component stores and displays for each status. */
  function Label(st: KycStatus): (r: string)
    ensures r == "Not Submitted" <==> st == NotSubmitted
    ensures r == "" <==> st == Unset
  {
    match st
    case Unset => ""
    case NotSubmitted => "Not Submitted"
    case Pending => "Pending"
    case Verified => "Verified"
    case Rejected => "Rejected"
    case PendingSubmitted => "Pending \U{23F3}"
  }

  /** Distinct statuses are displayed differently, so comparing labels (as the
      component does) is comparing statuses. */
  lemma LabelInjective(a: KycStatus, b: KycStatus)
    ensures Label(a) == Label(b) ==> a == b
  {
  }

  /** The status derived from a record when the wallet connects: the branches
      test `exists`, then `verified`, then `rejected`. */
  function DeriveStatus(rec: KycRecord): (st: KycStatus)
    ensures st == NotSubmitted <==> !rec.present
    ensures st == Verified <==> rec.present && rec.verified
    ensures st == Rejected <==> rec.present && !rec.verified && rec.rejected
    ensures st == Pending <==> rec.present && !rec.verified && !rec.rejected
    ensures st != Unset && st != PendingSubmitted
  {
    if rec.present then
      if rec.verified then Verified
      else if rec.rejected then Rejected
      else Pending
    else NotSubmitted
  }

  /** The derived status depends only on the three flags, never on name or CNIC. */
  lemma DeriveStatusIgnoresIdentity(a: KycRecord, b: KycRecord)
    requires a.present == b.present && a.verified == b.verified && a.rejected == b.rejected
    ensures DeriveStatus(a) == DeriveStatus(b)
  {
  }

  /** One entry of the administrator's panel. */
  datatype PendingRequest = PendingRequest(address: string, name: string, cnic: string)

  /** What the ledger answers when the pending list is loaded: the result of
      `getPendingRequests()` (None when that call throws) and the records that
      `getKYCDetails` returns for the addresses it can read. */
  datatype PendingSource = PendingSource(addresses: Option<seq<string>>, records: map<string, KycRecord>)

  predicate AllReadable(addrs: seq<string>, records: map<string, KycRecord>) {
    forall i :: 0 <= i < |addrs| ==> addrs[i] in records
  }

  /** The detail reads for `addrs`, taken one after another; one failing read
      makes the whole load fail. */
  function Requests(addrs: seq<string>, records: map<string, KycRecord>): (r: Option<seq<PendingRequest>>)
    ensures r.Some? <==> AllReadable(addrs, records)
    ensures r.Some? ==> |r.value| == |addrs|
    ensures r.Some? ==> forall i :: 0 <= i < |addrs| ==>
              r.value[i] == PendingRequest(addrs[i], records[addrs[i]].name, records[addrs[i]].cnic)
  {
    if addrs == [] then Some([])
    else if addrs[0] !in records then None
    else
      match Requests(addrs[1..], records)
      case None =>
        assert !AllReadable(addrs[1..], records);
        None
      case Some(rest) =>
        var rec := records[addrs[0]];
        Some([PendingRequest(addrs[0], rec.name, rec.cnic)] + rest)
  }

  /** `loadPendingRequests`: the new list to show, or None when the load threw
      (the component then keeps its previous list). */
  function LoadPendingRequests(src: PendingSource): (r: Option<seq<PendingRequest>>)
    ensures r.Some? <==> src.addresses.Some? && AllReadable(src.addresses.value, src.records)
    ensures r.Some? ==> |r.value| == |src.addresses.value|
    ensures r.Some? ==> forall i :: 0 <= i < |r.value| ==>
              r.value[i].address == src.addresses.value[i] &&
              r.value[i].name == src.records[src.addresses.value[i]].name &&
              r.value[i].cnic == src.records[src.addresses.value[i]].cnic
  {
    match src.addresses
    case None => None
    case Some(addrs) => Requests(addrs, src.records)
  }

  /** The pending list after a reload: the new list, or the old one when the load failed. */
  function ReloadPending(current: seq<PendingRequest>, src: PendingSource): (r: seq<PendingRequest>)
    ensures LoadPendingRequests(src).None? ==> r == current
    ensures LoadPendingRequests(src).Some? ==> r == LoadPendingRequests(src).value
  {
    match LoadPendingRequests(src)
    case None => current
    case Some(list) => list
  }
}
