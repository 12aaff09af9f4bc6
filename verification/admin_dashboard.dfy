/**
 * The admin review page (src/pages/AdminDashboard.tsx): the session gate, the
 * loading of all quote records, the status update of one record, the badge
 * colour of a status and the status buttons. The store's select and update
 * calls are outside the model: their answers are parameters.
 */
module AdminDashboard {

  import opened Nullable
  import AdminAuth

  /** A stored quote request as the dashboard reads it. */
  datatype QuoteRecord = QuoteRecord(
    id: string,
    name: string,
    email: string,
    campaignOptions: seq<string>,
    budget: int,
    mainObjective: string,
    startDate: Option<string>,
    endDate: Option<string>,
    products: Option<string>,
    additionalDetails: Option<string>,
    status: string,
    createdAt: string)

  /** `quotes.map(q => q.id === quoteId ? { ...q, status: newStatus } : q)`. */
  function WithStatus(quotes: seq<QuoteRecord>, quoteId: string, newStatus: string): (r: seq<QuoteRecord>)
    ensures |r| == |quotes|
    ensures forall i :: 0 <= i < |quotes| ==>
      r[i] == if quotes[i].id == quoteId then quotes[i].(status := newStatus) else quotes[i]
  {
    if quotes == [] then []
    else [if quotes[0].id == quoteId then quotes[0].(status := newStatus) else quotes[0]]
         + WithStatus(quotes[1..], quoteId, newStatus)
  }

  /** Ids, order and every other field survive a status update. */
  lemma WithStatusKeepsIds(quotes: seq<QuoteRecord>, quoteId: string, newStatus: string)
    ensures forall i :: 0 <= i < |quotes| ==>
      && WithStatus(quotes, quoteId, newStatus)[i].id == quotes[i].id
      && WithStatus(quotes, quoteId, newStatus)[i].(status := quotes[i].status) == quotes[i]
    ensures forall i :: 0 <= i < |quotes| && quotes[i].id == quoteId ==>
      WithStatus(quotes, quoteId, newStatus)[i].status == newStatus
  {
  }

  /** Setting back the status the matching records all had restores the list. */
  lemma WithStatusReverts(quotes: seq<QuoteRecord>, quoteId: string, newStatus: string, oldStatus: string)
    requires forall i :: 0 <= i < |quotes| && quotes[i].id == quoteId ==> quotes[i].status == oldStatus
    ensures WithStatus(WithStatus(quotes, quoteId, newStatus), quoteId, oldStatus) == quotes
  {
    var r := WithStatus(WithStatus(quotes, quoteId, newStatus), quoteId, oldStatus);
    assert |r| == |quotes|;
    forall i | 0 <= i < |quotes| ensures r[i] == quotes[i] {
    }
  }

  /** An update naming no record in the list changes nothing. */
  lemma WithStatusUnknownId(quotes: seq<QuoteRecord>, quoteId: string, newStatus: string)
    requires forall i :: 0 <= i < |quotes| ==> quotes[i].id != quoteId
    ensures WithStatus(quotes, quoteId, newStatus) == quotes
  {
  }

  /** Repeating the same update changes nothing more. */
  lemma WithStatusIdempotent(quotes: seq<QuoteRecord>, quoteId: string, newStatus: string)
    ensures WithStatus(WithStatus(quotes, quoteId, newStatus), quoteId, newStatus)
         == WithStatus(quotes, quoteId, newStatus)
  {
    var once := WithStatus(quotes, quoteId, newStatus);
    var twice := WithStatus(once, quoteId, newStatus);
    forall i | 0 <= i < |quotes| ensures twice[i] == once[i] {
    }
  }

  /** The statuses a record can be given on this page, in button order. */
  const ActionStatuses: seq<string> := ["Em Andamento", "Finalizada", "Cancelada"]

  /** The badge colour classes for a status. */
  function StatusColor(status: string): (color: string)
    ensures color == "bg-gray-100 text-gray-800" <==> !KnownStatus(status)
  {
    match status
    case "Pendente" => "bg-yellow-100 text-yellow-800"
    case "Em Andamento" => "bg-blue-100 text-blue-800"
    case "Finalizada" => "bg-green-100 text-green-800"
    case "Cancelada" => "bg-red-100 text-red-800"
    case _ => "bg-gray-100 text-gray-800"
  }

  predicate KnownStatus(status: string) {
    status == "Pendente" || status in ActionStatuses
  }

  /** The four known statuses get four different colours. */
  lemma StatusColorsDistinguish(s: string, t: string)
    ensures KnownStatus(s) && KnownStatus(t) && s != t ==> StatusColor(s) != StatusColor(t)
  {
  }

  /** The button for `target` on a record whose status is `current` is disabled. */
  predicate ButtonDisabled(current: string, target: string)
    ensures ButtonDisabled(current, target) ==>
      forall c :: 0 <= c < |ActionStatuses| && ActionStatuses[c] != target ==> current != ActionStatuses[c]
  {
    current == target
  }

  /** After a record gets a button's status, that button and no other is disabled on it. */
  lemma UpdatedRecordButtons(quotes: seq<QuoteRecord>, quoteId: string, b: nat, i: nat)
    requires b < |ActionStatuses| && i < |quotes| && quotes[i].id == quoteId
    ensures var q := WithStatus(quotes, quoteId, ActionStatuses[b])[i];
      forall c :: 0 <= c < |ActionStatuses| ==> (ButtonDisabled(q.status, ActionStatuses[c]) <==> c == b)
  {
  }

  /** What the page does on mount: without a session it draws nothing and goes to the login. */
  datatype MountAction = RedirectToLogin | LoadQuotes

  function OnMount(session: Option<AdminAuth.AdminUser>): (a: MountAction)
    ensures a.RedirectToLogin? <==> session.None?
  {
    if session.None? then RedirectToLogin else LoadQuotes
  }

  /** After logout the page turns the visitor away; after login it loads. */
  lemma SessionGate(items: map<string, AdminAuth.AdminUser>, u: AdminAuth.AdminUser)
    ensures OnMount(AdminAuth.StoredSession(items - {AdminAuth.SessionKey})) == RedirectToLogin
    ensures OnMount(AdminAuth.StoredSession(items[AdminAuth.SessionKey := u])) == LoadQuotes
  {
    AdminAuth.SessionRoundTrip(items, u);
  }

  /** The select call's answer: rows (possibly null), a returned error, or a throw. */
  datatype FetchOutcome = Fetched(data: Option<seq<QuoteRecord>>) | FetchFailed | FetchThrew

  /** The update call's answer. */
  datatype UpdateOutcome = Updated | UpdateFailed | UpdateThrew

  datatype Notice = LoadErrorToast | UpdateErrorToast | StatusChangedToast(status: string)

  /** The mounted page's state. */
  class Dashboard {
    var quotes: seq<QuoteRecord>
    var isLoading: bool
    var notices: seq<Notice>

    constructor ()
      ensures quotes == [] && isLoading && notices == []
    {
      quotes := [];
      isLoading := true;
      notices := [];
    }

    /**
     * `fetchQuotes`: on a returned error a toast and no change; on success the
     * rows, or [] for null; loading ends in every case.
     */
    method FetchQuotes(outcome: FetchOutcome)
      modifies this
      ensures !isLoading
      ensures outcome.Fetched? ==> quotes == outcome.data.GetOr([]) && notices == old(notices)
      ensures outcome.FetchFailed? ==> quotes == old(quotes) && notices == old(notices) + [LoadErrorToast]
      ensures outcome.FetchThrew? ==> quotes == old(quotes) && notices == old(notices)
    {
      match outcome {
        case Fetched(data) =>
          quotes := if data.Some? then data.value else [];
        case FetchFailed =>
          notices := notices + [LoadErrorToast];
        case FetchThrew =>
      }
      isLoading := false;
    }

    /**
     * `updateQuoteStatus`: on success the matching records get the new status
     * and a toast confirms; on a returned error a toast and no change.
     */
    method UpdateQuoteStatus(quoteId: string, newStatus: string, outcome: UpdateOutcome)
      modifies this
      ensures isLoading == old(isLoading)
      ensures outcome.Updated? ==>
        quotes == WithStatus(old(quotes), quoteId, newStatus)
        && notices == old(notices) + [StatusChangedToast(newStatus)]
      ensures outcome.UpdateFailed? ==> quotes == old(quotes) && notices == old(notices) + [UpdateErrorToast]
      ensures outcome.UpdateThrew? ==> quotes == old(quotes) && notices == old(notices)
    {
      match outcome {
        case Updated =>
          quotes := WithStatus(quotes, quoteId, newStatus);
          notices := notices + [StatusChangedToast(newStatus)];
        case UpdateFailed =>
          notices := notices + [UpdateErrorToast];
        case UpdateThrew =>
      }
    }
  }
}
