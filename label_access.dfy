/** The shipping-label download: the order must exist and have a label
    key, and the caller must be allowed to see the order. */
module LabelAccess {
  import opened Common
  import opened Store
  import OrderController

  /** The two columns a label key may live in. */
  datatype LabelColumns = LabelColumns(labelKey: Option<string>, labelUrl: Option<string>)

  /** `labelKey || labelUrl`: the first truthy one. */
  function LabelKey(c: LabelColumns): (k: Option<string>)
    ensures Truthy(k) <==> Truthy(c.labelKey) || Truthy(c.labelUrl)
    ensures Truthy(c.labelKey) ==> k == c.labelKey
    ensures !Truthy(c.labelKey) && Truthy(c.labelUrl) ==> k == c.labelUrl
  {
    if Truthy(c.labelKey) then c.labelKey else c.labelUrl
  }

  /** The authorization chain: managers and warehouse staff pass, a
      customer must own the order, a driver must be assigned to it. */
  predicate MaySee(o: Order, user: AuthUser)
  {
    match user.role
    case Manager => true
    case Customer => o.customerId == user.id
    case Driver => o.assignedDriverId == Some(user.id)
    case Warehouse => true
  }

  /** `getLabelPdfUrl`: 404 for a missing order, 404 for a missing label
      (checked before authorization), 403 for a caller who may not see the
      order, otherwise a URL presigned for 300 seconds. */
  function GetLabelPdfUrl(order: Option<Order>, c: LabelColumns, user: AuthUser): (r: UrlReply)
    ensures order.None? ==> r == Refused(404)
    ensures order.Some? && !Truthy(LabelKey(c)) ==> r == Refused(404)
    ensures order.Some? && Truthy(LabelKey(c)) ==>
              (r.Presigned? <==> MaySee(order.value, user))
              && (!MaySee(order.value, user) ==> r == Refused(403))
    ensures r.Presigned? ==> r.key == LabelKey(c).value && r.key != "" && r.expiresIn == 300
  {
    if order.None? then Refused(404)
    else
      var key := LabelKey(c);
      if !Truthy(key) then Refused(404)
      else if user.role == Customer && order.value.customerId != user.id then Refused(403)
      else if user.role == Driver && order.value.assignedDriverId != Some(user.id) then Refused(403)
      else Presigned(key.value, 300)
  }

  /** The label follows the order's own read rule: whoever `getOne` serves
      the order gets its label, and nobody else. */
  lemma LabelAccessMatchesGetOne(orders: map<OrderId, Order>, id: OrderId, c: LabelColumns, user: AuthUser)
    requires id in orders && Truthy(LabelKey(c))
    ensures GetLabelPdfUrl(Some(orders[id]), c, user).Presigned?
            <==> OrderController.GetOne(orders, id, user.id, user.role).Ok?
  {
  }
}
