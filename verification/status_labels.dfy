/** The German labels the browser shows for the status values of projects,
    invoices, quotes and accounting entries. Every map is total: a status it
    does not list shows as "Unbekannt". */
module StatusLabels {

  const Unknown := "Unbekannt"

  const ProjectStatuses: set<string> := {"active", "completed", "paused", "cancelled"}
  const InvoiceStatuses: set<string> := {"draft", "sent", "paid", "overdue", "cancelled"}
  const QuoteStatuses: set<string> := {"draft", "sent", "accepted", "rejected", "expired"}
  const AccountingStatuses: set<string> := {"draft", "confirmed", "reconciled"}

  /** `getStatusText` (projects). */
  function ProjectStatusText(status: string): (text: string)
    ensures text == Unknown <==> status !in ProjectStatuses
  {
    match status
    case "active" => "Aktiv"
    case "completed" => "Abgeschlossen"
    case "paused" => "Pausiert"
    case "cancelled" => "Abgebrochen"
    case _ => Unknown
  }

  /** `getInvoiceStatusText`. */
  function InvoiceStatusText(status: string): (text: string)
    ensures text == Unknown <==> status !in InvoiceStatuses
  {
    match status
    case "draft" => "Entwurf"
    case "sent" => "Versendet"
    case "paid" => "Bezahlt"
    case "overdue" => "Überfällig"
    case "cancelled" => "Storniert"
    case _ => Unknown
  }

  /** `getQuoteStatusText`. */
  function QuoteStatusText(status: string): (text: string)
    ensures text == Unknown <==> status !in QuoteStatuses
  {
    match status
    case "draft" => "Entwurf"
    case "sent" => "Versendet"
    case "accepted" => "Angenommen"
    case "rejected" => "Abgelehnt"
    case "expired" => "Abgelaufen"
    case _ => Unknown
  }

  /** `getAccountingStatusText`. */
  function AccountingStatusText(status: string): (text: string)
    ensures text == Unknown <==> status !in AccountingStatuses
  {
    match status
    case "draft" => "Entwurf"
    case "confirmed" => "Bestätigt"
    case "reconciled" => "Abgestimmt"
    case _ => Unknown
  }

  /** Within each map the labels tell the listed statuses apart. */
  lemma LabelsDistinguishStatuses(a: string, b: string)
    ensures a in ProjectStatuses && b in ProjectStatuses && ProjectStatusText(a) == ProjectStatusText(b) ==> a == b
    ensures a in InvoiceStatuses && b in InvoiceStatuses && InvoiceStatusText(a) == InvoiceStatusText(b) ==> a == b
    ensures a in QuoteStatuses && b in QuoteStatuses && QuoteStatusText(a) == QuoteStatusText(b) ==> a == b
    ensures a in AccountingStatuses && b in AccountingStatuses && AccountingStatusText(a) == AccountingStatusText(b) ==> a == b
  {
  }

  /** Invoices and quotes share the labels of the statuses they share. */
  lemma SharedStatusesShareLabels(status: string)
    requires status in InvoiceStatuses * QuoteStatuses
    ensures InvoiceStatusText(status) == QuoteStatusText(status)
  {
  }
}
