/**
 * The client-side rules of a hospital's requests page: the status and
 * urgency styling, which requests offer a cancel button, the status filter
 * tabs and the query they send, and how the new-request form is submitted
 * and reset.
 *
 * An icon is modelled by its component name and colour class. The API calls
 * are parameters (their outcome) and the rendering is not modelled.
 */
module HospitalRequestsPage {
  import opened Wrappers
  import opened Text

  /** An icon component with its colour class. */
  datatype Icon = Icon(shape: string, colour: string)

  // ---------------------------------------------------------------------------
  // Status and urgency styling

  /** `getStatusIcon`: four statuses have an icon; any other, `'cancelled'` included, gets the file icon. */
  function GetStatusIcon(status: string): (r: Icon)
    ensures status == "pending" ==> r == Icon("Clock", "text-amber-600")
    ensures status == "approved" ==> r == Icon("CheckCircle", "text-emerald-600")
    ensures status == "rejected" ==> r == Icon("XCircle", "text-red-600")
    ensures status == "fulfilled" ==> r == Icon("CheckCircle", "text-blue-600")
    ensures status !in {"pending", "approved", "rejected", "fulfilled"} ==> r == Icon("FileText", "text-zinc-600")
  {
    match status
    case "pending" => Icon("Clock", "text-amber-600")
    case "approved" => Icon("CheckCircle", "text-emerald-600")
    case "rejected" => Icon("XCircle", "text-red-600")
    case "fulfilled" => Icon("CheckCircle", "text-blue-600")
    case _ => Icon("FileText", "text-zinc-600")
  }

  /** A cancelled request shows the same icon as a request with an unknown status. */
  lemma CancelledHasDefaultIcon(status: string)
    requires status !in {"pending", "approved", "rejected", "fulfilled"}
    ensures GetStatusIcon("cancelled") == GetStatusIcon(status)
  {
  }

  /** The `colors` table of `getStatusColor`. */
  const StatusColors: map<string, string> := map[
    "pending" := "bg-amber-100 text-amber-700 border-amber-200",
    "approved" := "bg-emerald-100 text-emerald-700 border-emerald-200",
    "rejected" := "bg-red-100 text-red-700 border-red-200",
    "fulfilled" := "bg-blue-100 text-blue-700 border-blue-200",
    "cancelled" := "bg-zinc-100 text-zinc-700 border-zinc-200"
  ]

  /** `colors[status] || colors.pending`: the five known statuses have their colours, any other gets pending's. */
  function GetStatusColor(status: string): (r: string)
    ensures status in StatusColors ==> r == StatusColors[status]
    ensures status !in StatusColors ==> r == "bg-amber-100 text-amber-700 border-amber-200"
  {
    if status in StatusColors then StatusColors[status] else StatusColors["pending"]
  }

  /** The five colours are distinct, so each known status can be told apart from the others. */
  lemma StatusColorsDistinct(s: string, t: string)
    requires s in StatusColors && t in StatusColors && s != t
    ensures GetStatusColor(s) != GetStatusColor(t)
  {
  }

  /** An unknown status looks exactly like a pending one. */
  lemma UnknownStatusLooksPending(status: string)
    requires status !in StatusColors
    ensures GetStatusColor(status) == GetStatusColor("pending")
  {
  }

  /** `getUrgencyIcon`: only emergency and urgent requests have an icon. */
  function GetUrgencyIcon(urgency: string): (r: Option<Icon>)
    ensures r.Some? <==> urgency == "emergency" || urgency == "urgent"
    ensures urgency == "emergency" ==> r == Some(Icon("AlertTriangle", "text-red-600"))
    ensures urgency == "urgent" ==> r == Some(Icon("Clock", "text-amber-600"))
  {
    match urgency
    case "emergency" => Some(Icon("AlertTriangle", "text-red-600"))
    case "urgent" => Some(Icon("Clock", "text-amber-600"))
    case _ => None
  }

  /** The urgency badge: its style, its optional icon and the urgency text. */
  datatype Badge = Badge(style: string, icon: Option<Icon>, text: string)

  /** Shown for every urgency but `'routine'`; red for an emergency, amber otherwise. */
  function UrgencyBadge(urgency: string): (r: Option<Badge>)
    ensures r.None? <==> urgency == "routine"
    ensures r.Some? ==> r.value.text == urgency && r.value.icon == GetUrgencyIcon(urgency)
    ensures r.Some? ==> (r.value.style == "bg-red-100 text-red-700" <==> urgency == "emergency")
  {
    if urgency == "routine" then None
    else
      Some(Badge(if urgency == "emergency" then "bg-red-100 text-red-700" else "bg-amber-100 text-amber-700",
                 GetUrgencyIcon(urgency), urgency))
  }

  /** A badge without an icon: any urgency other than routine, emergency and urgent. */
  lemma BadgeWithoutIcon(urgency: string)
    requires urgency !in {"routine", "emergency", "urgent"}
    ensures UrgencyBadge(urgency).Some? && UrgencyBadge(urgency).value.icon.None?
  {
  }

  /** The cancel button is rendered for a request exactly when its status is `'pending'`. */
  predicate CancelOffered(status: string) {
    status == "pending"
  }

  /** Every request offering cancel shows the pending icon and colours. */
  lemma CancellableLooksPending(status: string)
    requires CancelOffered(status)
    ensures GetStatusIcon(status) == Icon("Clock", "text-amber-600")
    ensures GetStatusColor(status) == "bg-amber-100 text-amber-700 border-amber-200"
    ensures status in Tabs
  {
  }

  // ---------------------------------------------------------------------------
  // Status filter

  /** The filter tabs: all, then four statuses; there is no tab for `'cancelled'`. */
  const Tabs: seq<string> := ["", "pending", "approved", "fulfilled", "rejected"]

  /** `status === '' ? 'All' : status.charAt(0).toUpperCase() + status.slice(1)`. */
  function TabLabel(status: string): (r: string)
    ensures status == "" ==> r == "All"
    ensures status != "" ==> |r| == |status| && r[0] == UpperChar(status[0]) && r[1..] == status[1..]
  {
    if status == "" then "All" else [UpperChar(status[0])] + status[1..]
  }

  /** The labels shown on the tabs. */
  lemma TabLabels()
    ensures seq(|Tabs|, i requires 0 <= i < |Tabs| => TabLabel(Tabs[i])) ==
            ["All", "Pending", "Approved", "Fulfilled", "Rejected"]
    ensures "cancelled" !in Tabs
  {
    assert TabLabel("pending") == "Pending";
    assert TabLabel("approved") == "Approved";
    assert TabLabel("fulfilled") == "Fulfilled";
    assert TabLabel("rejected") == "Rejected";
  }

  /** `selectedStatus ? { status: selectedStatus } : {}`. */
  function StatusParams(selectedStatus: string): (r: map<string, string>)
    ensures selectedStatus == "" ==> r == map[]
    ensures selectedStatus != "" ==> r.Keys == {"status"} && r["status"] == selectedStatus
  {
    if selectedStatus == "" then map[] else map["status" := selectedStatus]
  }

  /** The "All" tab sends no filter; every other tab sends its own status. */
  lemma TabParams(i: nat)
    requires i < |Tabs|
    ensures i == 0 ==> StatusParams(Tabs[i]) == map[]
    ensures i > 0 ==> StatusParams(Tabs[i]) == map["status" := Tabs[i]]
  {
  }

  // ---------------------------------------------------------------------------
  // New-request form

  datatype RequestForm = RequestForm(
    bloodGroup: string,
    quantity: string,
    urgency: string,
    reason: string,
    patientDetails: string,
    requiredBy: string)

  /** The form's initial value, restored after a successful create. */
  const InitialForm: RequestForm := RequestForm("", "", "routine", "", "", "")

  /** The part of the page state `handleSubmit` sets. */
  datatype SubmitState = SubmitState(form: RequestForm, showModal: bool, error: string, submitting: bool, refetched: bool)

  /** What `hospitalRequestsAPI.create` did: answered with its `success` flag, or raised with an optional message. */
  datatype CreateOutcome = Answered(success: bool) | Raised(message: Option<string>)

  /**
   * `handleSubmit`: after a successful create the modal closes, the form is
   * back to its initial value and the list is fetched again; a raised error
   * shows its message or `'Failed to create request'`; `submitting` is
   * cleared in every case.
   */
  function HandleSubmit(s: SubmitState, outcome: CreateOutcome): (r: SubmitState)
    ensures !r.submitting
    ensures outcome == Answered(true) ==>
              r.form == InitialForm && !r.showModal && r.error == "" && r.refetched
    ensures outcome == Answered(false) ==>
              r.form == s.form && r.showModal == s.showModal && r.error == "" && r.refetched == s.refetched
    ensures outcome.Raised? ==>
              r.form == s.form && r.showModal == s.showModal && r.refetched == s.refetched &&
              r.error == (if outcome.message.Some? && outcome.message.value != "" then outcome.message.value
                          else "Failed to create request")
  {
    match outcome
    case Answered(ok) =>
      if ok then SubmitState(InitialForm, false, "", false, true)
      else s.(error := "", submitting := false)
    case Raised(m) =>
      var msg := if m.Some? && m.value != "" then m.value else "Failed to create request";
      s.(error := msg, submitting := false)
  }

  /** A failed submit never shows an empty error. */
  lemma RaisedErrorNotEmpty(s: SubmitState, message: Option<string>)
    ensures HandleSubmit(s, Raised(message)).error != ""
  {
  }

  /** Two successful submits from any states leave the same form and modal: the reset does not depend on what was typed. */
  lemma ResetForgetsInput(s: SubmitState, t: SubmitState)
    ensures HandleSubmit(s, Answered(true)) == HandleSubmit(t, Answered(true))
  {
  }
}
