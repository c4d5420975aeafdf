/** The gateway's three browser callbacks (app/api/payment/success, fail and
    cancel). Each reads the posted form and answers with a 303 redirect to a page
    under the app's base URL, or with a server error when that base URL has no
    scheme and the redirect throws; only the success route writes, settling
    the order. */
module PaymentCallbacks {
  import opened Wrappers
  import opened Domain
  import opened Url
  import Orders

  /** The posted form fields the routes read; a missing field reads as null. */
  datatype CallbackForm = CallbackForm(tranId: Option<string>, valId: Option<string>, status: Option<string>)

  /** A route's answer: a redirect, or the framework's error response when the
      route throws without catching (a body that is not a form, or a redirect
      location without a scheme). */
  datatype RouteResult = Redirected(redirect: Redirect) | ServerError

  /** The page the shopper returns to after a failed or cancelled payment,
      with the reason and the order id in the query. */
  function CheckoutReturn(appUrl: Option<string>, code: string, tranId: Option<string>): string {
    Interpolate(appUrl) + CheckoutTail(code, tranId)
  }

  /** The return page's path and query, after the base URL. */
  function CheckoutTail(code: string, tranId: Option<string>): (r: string)
    ensures |r| > 0 && r[0] == '/'
  {
    "/checkout?error=" + code + "&orderId=" + InterpolateField(tranId)
  }

  /** A route's 303 redirect to a path under the app's base URL: a server
      error exactly when the base URL has no scheme. */
  function RedirectUnder(appUrl: Option<string>, tail: string): (r: RouteResult)
    requires |tail| > 0 && tail[0] == '/'
    ensures r.ServerError? <==> !HasScheme(Interpolate(appUrl))
    ensures r.Redirected? ==> r.redirect == Redirect(Interpolate(appUrl) + tail, SeeOther)
  {
    SchemeOfBase(Interpolate(appUrl), tail);
    match RedirectTo(Interpolate(appUrl) + tail, 303)
    case None => ServerError
    case Some(d) => Redirected(d)
  }

  /** The fail route. `form` is None when the body cannot be read as a form. */
  function Fail(form: Option<CallbackForm>, appUrl: Option<string>): (r: RouteResult)
    ensures r.ServerError? <==> form.None? || !HasScheme(Interpolate(appUrl))
    ensures r.Redirected? ==> r.redirect.status == SeeOther
    ensures r.Redirected? ==> r.redirect.location == CheckoutReturn(appUrl, "payment_failed", form.value.tranId)
  {
    match form
    case None => ServerError
    case Some(f) =>
      RedirectUnder(appUrl, CheckoutTail("payment_failed", f.tranId))
  }

  /** The cancel route: the fail route with another reason. */
  function Cancel(form: Option<CallbackForm>, appUrl: Option<string>): (r: RouteResult)
    ensures r.ServerError? <==> form.None? || !HasScheme(Interpolate(appUrl))
    ensures r.Redirected? ==> r.redirect.status == SeeOther
    ensures r.Redirected? ==> r.redirect.location == CheckoutReturn(appUrl, "payment_cancelled", form.value.tranId)
  {
    match form
    case None => ServerError
    case Some(f) =>
      RedirectUnder(appUrl, CheckoutTail("payment_cancelled", f.tranId))
  }

  /** With the app URL unset, the fail and cancel redirects throw: the shopper
      gets a server error for every body. (`Success` states the same in its own
      ensures, through `UnsetBaseHasNoScheme`.) */
  lemma UnsetAppUrlFailsCallbacks(form: Option<CallbackForm>)
    ensures Fail(form, None).ServerError? && Cancel(form, None).ServerError?
  {
    UnsetBaseHasNoScheme();
  }

  /** The fail and cancel routes read nothing but the transaction id: two forms
      with the same id get the same answer. */
  lemma FailCancelReadOnlyTranId(f1: CallbackForm, f2: CallbackForm, appUrl: Option<string>)
    requires f1.tranId == f2.tranId
    ensures Fail(Some(f1), appUrl) == Fail(Some(f2), appUrl)
    ensures Cancel(Some(f1), appUrl) == Cancel(Some(f2), appUrl)
  {
  }

  /** The checkout page reads the reason and the order id back from the return
      URL, provided the base URL has no query and the id needs no escaping. */
  lemma {:induction false} CheckoutReturnReadsBack(appUrl: Option<string>, code: string, tranId: Option<string>)
    requires '?' !in Interpolate(appUrl) && QuerySafe(InterpolateField(tranId))
    requires '&' !in code
    ensures var url := CheckoutReturn(appUrl, code, tranId);
      Path(url) == Interpolate(appUrl) + "/checkout" &&
      GetParam(url, "error") == Some(code) &&
      GetParam(url, "orderId") == Some(InterpolateField(tranId))
  {
    var base := Interpolate(appUrl) + "/checkout";
    assert '?' !in base by {
      assert forall i :: 0 <= i < |base| ==> base[i] == (Interpolate(appUrl) + "/checkout")[i];
    }
    var pairs := [("error", code), ("orderId", InterpolateField(tranId))];
    assert WellFormedPairs(pairs) by {
      assert '=' !in "error" && '&' !in "error" && '=' !in "orderId" && '&' !in "orderId";
    }
    CheckoutReturnShape(appUrl, code, tranId);
    ReadBackUrl(base, pairs, "error");
    ReadBackUrl(base, pairs, "orderId");
  }

  /** The return URL is the checkout path with a two-parameter query. */
  lemma CheckoutReturnShape(appUrl: Option<string>, code: string, tranId: Option<string>)
    ensures CheckoutReturn(appUrl, code, tranId) ==
      Interpolate(appUrl) + "/checkout" + "?" + QueryString([("error", code), ("orderId", InterpolateField(tranId))])
  {
    assert "/checkout?error=" == "/checkout" + "?" + "error" + "=";
    assert "&orderId=" == "&" + "orderId" + "=";
    TwoParamTemplate(Interpolate(appUrl), "/checkout?error=", code, "&orderId=", InterpolateField(tranId),
      "/checkout", "error", "orderId");
  }

  /** Fail and cancel lead to the same page for the same order and differ
      only in the reason they report. */
  lemma {:induction false} FailAndCancelDifferInReasonOnly(form: CallbackForm, appUrl: Option<string>)
    requires '?' !in Interpolate(appUrl) && QuerySafe(InterpolateField(form.tranId))
    ensures Fail(Some(form), appUrl).Redirected? == Cancel(Some(form), appUrl).Redirected?
    ensures Fail(Some(form), appUrl).Redirected? ==>
      var f := Fail(Some(form), appUrl).redirect;
      var c := Cancel(Some(form), appUrl).redirect;
      f.status == c.status &&
      Path(f.location) == Path(c.location) &&
      GetParam(f.location, "orderId") == GetParam(c.location, "orderId") == Some(InterpolateField(form.tranId)) &&
      GetParam(f.location, "error") == Some("payment_failed") &&
      GetParam(c.location, "error") == Some("payment_cancelled")
  {
    assert '&' !in "payment_failed" && '&' !in "payment_cancelled";
    CheckoutReturnReadsBack(appUrl, "payment_failed", form.tranId);
    CheckoutReturnReadsBack(appUrl, "payment_cancelled", form.tranId);
  }

  /** The order confirmation page for a transaction. */
  function OrderSuccessUrl(appUrl: Option<string>, tranId: Option<string>): string {
    Interpolate(appUrl) + OrderSuccessTail(tranId)
  }

  /** The confirmation page's path and query, after the base URL. */
  function OrderSuccessTail(tranId: Option<string>): (r: string)
    ensures |r| > 0 && r[0] == '/'
  {
    "/order-success?orderId=" + InterpolateField(tranId)
  }

  /** The confirmation page reads the order id back from its URL, provided the
      base URL has no query and the id needs no escaping. */
  lemma OrderSuccessReadsBack(appUrl: Option<string>, tranId: Option<string>)
    requires '?' !in Interpolate(appUrl) && QuerySafe(InterpolateField(tranId))
    ensures var url := OrderSuccessUrl(appUrl, tranId);
      Path(url) == Interpolate(appUrl) + "/order-success" &&
      GetParam(url, "orderId") == Some(InterpolateField(tranId))
  {
    var base := Interpolate(appUrl) + "/order-success";
    assert '?' !in base by {
      assert forall i :: 0 <= i < |base| ==> base[i] == (Interpolate(appUrl) + "/order-success")[i];
    }
    var pairs := [("orderId", InterpolateField(tranId))];
    var lead, v := "/order-success?orderId=", InterpolateField(tranId);
    assert OrderSuccessUrl(appUrl, tranId) == Interpolate(appUrl) + lead + v;
    assert lead == "/order-success" + "?" + "orderId" + "=";
    OneParamTemplate(Interpolate(appUrl), "/order-success?orderId=", InterpolateField(tranId),
      "/order-success", "orderId");
    ReadBackUrl(base, pairs, "orderId");
  }

  /** The success route. `form` is None when the body cannot be read as a form;
      `adminThrows` says whether creating the database client throws;
      `updateFails` whether the update reports an error, which is only logged.
      `updated` says whether the update was issued and succeeded. A redirect
      that throws inside the `try` is caught, and the catch's own redirect,
      on the same base URL, throws too: the route then answers with a server
      error, whether or not the order was already settled. */
  method Success(table: Orders.OrderTable, form: Option<CallbackForm>, appUrl: Option<string>,
                 adminThrows: bool, updateFails: bool)
    returns (result: RouteResult, updated: bool)
    requires table.Valid()
    modifies table`orders
    ensures table.Valid()
    ensures result.ServerError? <==> !HasScheme(Interpolate(appUrl))
    ensures result.Redirected? ==> result.redirect.status == SeeOther
    ensures updated <==> form.Some? && Orders.IsValidated(form.value.status) && !adminThrows && !updateFails
    ensures table.orders ==
      if updated then Orders.Settle(old(table.orders), form.value.tranId, form.value.status) else old(table.orders)
    ensures result.Redirected? && (form.None? || (Orders.IsValidated(form.value.status) && adminThrows)) ==>
      result.redirect.location == Interpolate(appUrl) + "/checkout?error=payment_failed"
    ensures result.Redirected? && form.Some? && !(Orders.IsValidated(form.value.status) && adminThrows) ==>
      result.redirect.location == OrderSuccessUrl(appUrl, form.value.tranId)
  {
    updated := false;
    var caught := RedirectUnder(appUrl, "/checkout?error=payment_failed");
    if form.None? {
      return caught, false;
    }
    var f := form.value;
    if f.status == Some("VALID") || f.status == Some("VALIDATED") {
      if adminThrows {
        return caught, false;
      }
      var outcome := table.UpdateStatus(f.tranId, Paid, updateFails);
      updated := outcome.Pass?;
    }
    result := RedirectUnder(appUrl, OrderSuccessTail(f.tranId));
  }

  /** The status the success route writes is outside the status union the
      order record declares: reading a settled order back through that union
      finds no value. */
  lemma SettledStatusUndeclared(orders: map<OrderId, Order>, id: OrderId)
    requires id in orders
    ensures var r := Orders.Settle(orders, Some(id), Some("VALID"));
      r[id].status == Paid && AsDeclared(r[id].status).None?
  {
  }
}
