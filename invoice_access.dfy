/** The invoice download: the invoice must exist and have a stored PDF,
    and only managers and the invoiced customer may fetch it. */
module InvoiceAccess {
  import opened Common
  import opened Store

  /** The invoice columns the decision reads. */
  datatype Invoice = Invoice(customerId: UserId, invoiceKey: Option<string>)

  predicate MayFetch(inv: Invoice, user: AuthUser)
  {
    user.role == Manager || inv.customerId == user.id
  }

  /** `getInvoicePdfUrl`: 404 for a missing invoice, 404 for a missing PDF
      (checked before authorization), 403 unless manager or the invoiced
      customer, otherwise a URL presigned for 300 seconds. */
  function GetInvoicePdfUrl(inv: Option<Invoice>, user: AuthUser): (r: UrlReply)
    ensures inv.None? ==> r == Refused(404)
    ensures inv.Some? && !Truthy(inv.value.invoiceKey) ==> r == Refused(404)
    ensures inv.Some? && Truthy(inv.value.invoiceKey) ==>
              (r.Presigned? <==> MayFetch(inv.value, user))
              && (!MayFetch(inv.value, user) ==> r == Refused(403))
    ensures r.Presigned? ==> r.key == inv.value.invoiceKey.value && r.key != "" && r.expiresIn == 300
  {
    if inv.None? then Refused(404)
    else if !Truthy(inv.value.invoiceKey) then Refused(404)
    else if user.role != Manager && inv.value.customerId != user.id then Refused(403)
    else Presigned(inv.value.invoiceKey.value, 60 * 5)
  }

  /** Existence is answered before authorization: a caller who may not
      fetch the invoice still learns 404 when there is no PDF, and 403 only
      when there is one. */
  lemma ExistenceBeforeAuthorization(inv: Invoice, user: AuthUser)
    requires !MayFetch(inv, user)
    ensures GetInvoicePdfUrl(Some(inv), user) == if Truthy(inv.invoiceKey) then Refused(403) else Refused(404)
  {
  }

  /** Unlike the order and its label, an invoice is closed to warehouse
      staff and drivers who are not the invoiced customer. */
  lemma StaffOtherThanManagersRefused(inv: Invoice, user: AuthUser)
    requires Truthy(inv.invoiceKey) && user.role != Manager && user.role != Customer && inv.customerId != user.id
    ensures GetInvoicePdfUrl(Some(inv), user) == Refused(403)
  {
  }
}
