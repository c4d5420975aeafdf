/** The payment initiation route (app/api/payment/init/route.ts): it builds the
    gateway's session request from the order, posts it form-encoded, and turns
    the gateway's reply into a JSON response for the checkout page. The HTTP
    call itself is an argument (`GatewayCall`), as are the environment
    variables (`Env`). */
module PaymentInit {
  import opened Wrappers
  import Url

  /** The environment variables the route reads; each may be unset. */
  datatype Env = Env(
    storeId: Option<string>,
    storePassword: Option<string>,
    isSandbox: Option<string>,
    appUrl: Option<string>)

  const SandboxApi: string := "https://sandbox.sslcommerz.com/gwprocess/v4/api.php"
  const LiveApi: string := "https://securepay.sslcommerz.com/gwprocess/v4/api.php"
  const DefaultAppUrl: string := "http://localhost:3000"

  /** The shipping form of the checkout page, sent as `customer`. */
  datatype Customer = Customer(
    fullName: string,
    email: string,
    phone: string,
    address: string,
    city: string,
    postalCode: string,
    country: string)

  /** The parsed JSON body of the request. A body without `customer` makes
      the route fail when it reads the customer's fields. */
  datatype InitBody = InitBody(orderId: string, amount: real, customer: Option<Customer>)

  /** The application's base URL: an unset or empty variable falls back to the
      local development server. */
  function AppUrl(env: Env): (r: string)
    ensures r != ""
    ensures env.appUrl.Some? && env.appUrl.value != "" ==> r == env.appUrl.value
    ensures env.appUrl.None? || env.appUrl.value == "" ==> r == DefaultAppUrl
  {
    match env.appUrl
    case Some(u) => if u != "" then u else DefaultAppUrl
    case None => DefaultAppUrl
  }

  /** The gateway endpoint: the sandbox exactly when the flag is the string "true". */
  function ApiUrl(env: Env): (r: string)
    ensures r == SandboxApi <==> env.isSandbox == Some("true")
    ensures r == SandboxApi || r == LiveApi
  {
    if env.isSandbox == Some("true") then SandboxApi else LiveApi
  }

  /** The session request the route builds, field for field. */
  datatype SessionRequest = SessionRequest(
    storeId: Option<string>,
    storePassword: Option<string>,
    totalAmount: real,
    currency: string,
    tranId: string,
    successUrl: string,
    failUrl: string,
    cancelUrl: string,
    ipnUrl: string,
    shippingMethod: string,
    productName: string,
    productCategory: string,
    productProfile: string,
    cusName: string,
    cusEmail: string,
    cusAdd1: string,
    cusAdd2: string,
    cusCity: string,
    cusState: string,
    cusPostcode: string,
    cusCountry: string,
    cusPhone: string,
    cusFax: string,
    shipName: string,
    shipAdd1: string,
    shipAdd2: string,
    shipCity: string,
    shipState: string,
    shipPostcode: string,
    shipCountry: string)

  /** The URL of one of the gateway's callbacks for an order. */
  function CallbackUrl(env: Env, outcome: string, orderId: string): string {
    AppUrl(env) + "/api/payment/" + outcome + "?orderId=" + orderId
  }

  function BuildRequest(orderId: string, amount: real, c: Customer, env: Env): (r: SessionRequest)
    ensures r.tranId == orderId && r.totalAmount == amount && r.currency == "BDT"
    ensures r.storeId == env.storeId && r.storePassword == env.storePassword
  {
    SessionRequest(
      env.storeId, env.storePassword, amount, "BDT", orderId,
      CallbackUrl(env, "success", orderId),
      CallbackUrl(env, "fail", orderId),
      CallbackUrl(env, "cancel", orderId),
      AppUrl(env) + "/api/payment/ipn",
      "NO", "Jewelry", "Jewelry", "general",
      c.fullName, c.email, c.address, "", c.city, c.city, c.postalCode, c.country, c.phone, c.phone,
      c.fullName, c.address, "", c.city, c.city, c.postalCode, c.country)
  }

  /** The shipping block repeats the customer block; both state fields hold
      the city, and the fax field holds the phone number. */
  lemma ShippingCopiesCustomer(orderId: string, amount: real, c: Customer, env: Env)
    ensures var r := BuildRequest(orderId, amount, c, env);
      r.shipName == r.cusName == c.fullName &&
      r.shipAdd1 == r.cusAdd1 == c.address &&
      r.shipAdd2 == r.cusAdd2 == "" &&
      r.shipCity == r.cusCity == r.shipState == r.cusState == c.city &&
      r.shipPostcode == r.cusPostcode == c.postalCode &&
      r.shipCountry == r.cusCountry == c.country &&
      r.cusFax == r.cusPhone == c.phone &&
      r.cusEmail == c.email
  {
  }

  /** Each callback URL leads to its route under the application's URL and
      carries the order id as `orderId`, provided the base URL has no query and
      the id needs no escaping; the ipn URL carries no order id. */
  lemma {:induction false} CallbacksCarryOrderId(orderId: string, amount: real, c: Customer, env: Env)
    requires '?' !in AppUrl(env) && Url.QuerySafe(orderId)
    ensures var r := BuildRequest(orderId, amount, c, env);
      Url.GetParam(r.successUrl, "orderId") == Some(orderId) &&
      Url.GetParam(r.failUrl, "orderId") == Some(orderId) &&
      Url.GetParam(r.cancelUrl, "orderId") == Some(orderId) &&
      Url.Path(r.successUrl) == AppUrl(env) + "/api/payment/success" &&
      Url.Path(r.failUrl) == AppUrl(env) + "/api/payment/fail" &&
      Url.Path(r.cancelUrl) == AppUrl(env) + "/api/payment/cancel" &&
      Url.GetParam(r.ipnUrl, "orderId") == None
  {
    var r := BuildRequest(orderId, amount, c, env);
    CallbackReadsBack(env, "success", orderId);
    CallbackReadsBack(env, "fail", orderId);
    CallbackReadsBack(env, "cancel", orderId);
    var ipn := AppUrl(env) + "/api/payment/ipn";
    assert '?' !in ipn by {
      assert forall i :: 0 <= i < |ipn| ==> ipn[i] == (AppUrl(env) + "/api/payment/ipn")[i];
    }
    NoQueryNoParam(ipn, "orderId");
  }

  lemma CallbackReadsBack(env: Env, outcome: string, orderId: string)
    requires '?' !in AppUrl(env) && '?' !in outcome && Url.QuerySafe(orderId)
    ensures Url.GetParam(CallbackUrl(env, outcome, orderId), "orderId") == Some(orderId)
    ensures Url.Path(CallbackUrl(env, outcome, orderId)) == AppUrl(env) + "/api/payment/" + outcome
  {
    var base := AppUrl(env) + "/api/payment/" + outcome;
    assert '?' !in base by {
      assert forall i :: 0 <= i < |base| ==> base[i] == (AppUrl(env) + "/api/payment/" + outcome)[i];
    }
    var pairs := [("orderId", orderId)];
    assert "?orderId=" == "" + "?" + "orderId" + "=";
    Url.OneParamTemplate(base, "?orderId=", orderId, "", "orderId");
    assert base + "" == base;
    Url.ReadBackUrl(base, pairs, "orderId");
  }

  lemma {:induction false} NoQueryNoParam(url: string, name: string)
    requires '?' !in url
    ensures Url.GetParam(url, name) == None
    decreases |url|
  {
    if url != [] {
      NoQueryNoParam(url[1..], name);
    }
  }

  // ---------------------------------------------------------------------------
  // Form encoding

  /** A value appended to the form: text, or the amount, a number whose
      decimal rendering is left to the runtime. */
  datatype Value = Text(text: string) | Number(amount: real)

  /** The request's fields as name/value pairs, in the order the record lists
      them: first what the gateway needs to take the payment, then what it
      records about the order. An unset store id or password is appended as
      "undefined". */
  function Entries(r: SessionRequest): (e: seq<(string, Value)>)
    ensures |e| == |FieldNames|
    ensures forall i :: 0 <= i < |e| ==> e[i].0 == FieldNames[i]
  {
    GatewayEntries(r) + OrderEntries(r)
  }

  function GatewayEntries(r: SessionRequest): (e: seq<(string, Value)>)
    ensures |e| == |GatewayFieldNames|
    ensures forall i :: 0 <= i < |e| ==> e[i].0 == GatewayFieldNames[i]
  {
    [("store_id", Text(Url.Interpolate(r.storeId))),
     ("store_passwd", Text(Url.Interpolate(r.storePassword))),
     ("total_amount", Number(r.totalAmount)),
     ("currency", Text(r.currency)),
     ("tran_id", Text(r.tranId)),
     ("success_url", Text(r.successUrl)),
     ("fail_url", Text(r.failUrl)),
     ("cancel_url", Text(r.cancelUrl)),
     ("ipn_url", Text(r.ipnUrl))]
  }

  function OrderEntries(r: SessionRequest): (e: seq<(string, Value)>)
    ensures |e| == |OrderFieldNames|
    ensures forall i :: 0 <= i < |e| ==> e[i].0 == OrderFieldNames[i]
  {
    [("shipping_method", Text(r.shippingMethod)),
     ("product_name", Text(r.productName)),
     ("product_category", Text(r.productCategory)),
     ("product_profile", Text(r.productProfile)),
     ("cus_name", Text(r.cusName)),
     ("cus_email", Text(r.cusEmail)),
     ("cus_add1", Text(r.cusAdd1)),
     ("cus_add2", Text(r.cusAdd2)),
     ("cus_city", Text(r.cusCity)),
     ("cus_state", Text(r.cusState)),
     ("cus_postcode", Text(r.cusPostcode)),
     ("cus_country", Text(r.cusCountry)),
     ("cus_phone", Text(r.cusPhone)),
     ("cus_fax", Text(r.cusFax)),
     ("ship_name", Text(r.shipName)),
     ("ship_add1", Text(r.shipAdd1)),
     ("ship_add2", Text(r.shipAdd2)),
     ("ship_city", Text(r.shipCity)),
     ("ship_state", Text(r.shipState)),
     ("ship_postcode", Text(r.shipPostcode)),
     ("ship_country", Text(r.shipCountry))]
  }

  const GatewayFieldNames: seq<string> := [
    "store_id", "store_passwd", "total_amount", "currency", "tran_id",
    "success_url", "fail_url", "cancel_url", "ipn_url"]

  const OrderFieldNames: seq<string> := [
    "shipping_method", "product_name", "product_category", "product_profile",
    "cus_name", "cus_email", "cus_add1", "cus_add2", "cus_city", "cus_state",
    "cus_postcode", "cus_country", "cus_phone", "cus_fax",
    "ship_name", "ship_add1", "ship_add2", "ship_city", "ship_state",
    "ship_postcode", "ship_country"]

  const FieldNames: seq<string> := GatewayFieldNames + OrderFieldNames

  /** `URLSearchParams.get`: the value of the first entry with that name. */
  function FormGet(form: seq<(string, Value)>, name: string): (r: Option<Value>)
    ensures r.None? <==> forall i :: 0 <= i < |form| ==> form[i].0 != name
    decreases |form|
  {
    if form == [] then None
    else if form[0].0 == name then Some(form[0].1)
    else FormGet(form[1..], name)
  }

  lemma {:induction false} FormGetAt(form: seq<(string, Value)>, name: string, k: nat)
    requires k < |form| && form[k].0 == name
    requires forall i :: 0 <= i < k ==> form[i].0 != name
    ensures FormGet(form, name) == Some(form[k].1)
    decreases k
  {
    if k > 0 {
      FormGetAt(form[1..], name, k - 1);
    }
  }

  /** The encoded form names the order as the transaction and carries the
      amount and the currency. */
  lemma FormCarriesOrder(orderId: string, amount: real, c: Customer, env: Env)
    ensures var form := Entries(BuildRequest(orderId, amount, c, env));
      FormGet(form, "tran_id") == Some(Text(orderId)) &&
      FormGet(form, "total_amount") == Some(Number(amount)) &&
      FormGet(form, "currency") == Some(Text("BDT"))
  {
    RequestFieldsRead(BuildRequest(orderId, amount, c, env));
  }

  /** The form of any request carries its transaction id, amount and currency. */
  lemma RequestFieldsRead(r: SessionRequest)
    ensures var form := Entries(r);
      FormGet(form, "tran_id") == Some(Text(r.tranId)) &&
      FormGet(form, "total_amount") == Some(Number(r.totalAmount)) &&
      FormGet(form, "currency") == Some(Text(r.currency))
  {
    AmountRead(r);
    CurrencyRead(r);
    TranIdRead(r);
  }

  lemma AmountRead(r: SessionRequest)
    ensures FormGet(Entries(r), "total_amount") == Some(Number(r.totalAmount))
  {
    GatewayFieldRead(r, "total_amount", 2);
  }

  lemma CurrencyRead(r: SessionRequest)
    ensures FormGet(Entries(r), "currency") == Some(Text(r.currency))
  {
    GatewayFieldRead(r, "currency", 3);
  }

  lemma TranIdRead(r: SessionRequest)
    ensures FormGet(Entries(r), "tran_id") == Some(Text(r.tranId))
  {
    GatewayFieldRead(r, "tran_id", 4);
  }

  /** A gateway field is read from the whole form at its place among the
      gateway entries. */
  lemma GatewayFieldRead(r: SessionRequest, name: string, k: nat)
    requires k < |GatewayFieldNames| && GatewayFieldNames[k] == name
    requires forall i :: 0 <= i < k ==> GatewayFieldNames[i] != name
    ensures FormGet(Entries(r), name) == Some(GatewayEntries(r)[k].1)
  {
    var g := GatewayEntries(r);
    FormGetAt(g, name, k);
    FormGetFirstPart(g, OrderEntries(r), name);
  }

  /** A name found in the first part of a form is found there in the whole form. */
  lemma {:induction false} FormGetFirstPart(a: seq<(string, Value)>, b: seq<(string, Value)>, name: string)
    requires FormGet(a, name).Some?
    ensures FormGet(a + b, name) == FormGet(a, name)
    decreases |a|
  {
    assert (a + b)[0] == a[0];
    if a[0].0 != name {
      assert (a + b)[1..] == a[1..] + b;
      FormGetFirstPart(a[1..], b, name);
    }
  }

  /** The request encoded as the form that is posted to the gateway. */
  method EncodeForm(r: SessionRequest) returns (form: seq<(string, Value)>)
    ensures form == Entries(r)
    ensures |form| == |FieldNames|
  {
    form := AppendAll(Entries(r));
  }

  /** The append loop: the form receives the entries one by one, in order. */
  method AppendAll(entries: seq<(string, Value)>) returns (form: seq<(string, Value)>)
    ensures form == entries
  {
    form := [];
    var i := 0;
    while i < |entries|
      invariant 0 <= i <= |entries|
      invariant form == entries[..i]
    {
      form := form + [entries[i]];
      i := i + 1;
    }
    assert entries[..i] == entries;
  }

  // ---------------------------------------------------------------------------
  // The gateway's reply and the route's response

  /** The JSON the gateway answers with (only the fields the route reads). */
  datatype GatewayReply = GatewayReply(status: Option<string>, gatewayPageUrl: Option<string>)

  /** What came of posting the form: a parsed reply, or a thrown error (network
      failure or a body that is not JSON). */
  datatype GatewayCall = Replied(reply: GatewayReply) | Threw

  /** The JSON response of the route and its HTTP status. An absent `url` is
      left out of the JSON, so the page reads it as missing. */
  datatype InitResponse = InitResponse(
    status: int,
    url: Option<string>,
    error: Option<string>,
    details: Option<GatewayReply>)

  /** The outcome of a gateway call. */
  function Classify(call: GatewayCall): (r: InitResponse)
    ensures r.status == 200 <==> call.Replied? && call.reply.status == Some("SUCCESS")
    ensures r.status == 200 ==> r.url == call.reply.gatewayPageUrl && r.error.None?
    ensures r.status == 400 <==> call.Replied? && call.reply.status != Some("SUCCESS")
    ensures r.status == 400 ==> r.details == Some(call.reply) && r.url.None?
    ensures r.status == 500 <==> call.Threw?
    ensures r.status != 200 ==> r.error.Some? && r.url.None?
  {
    match call
    case Threw => InternalError()
    case Replied(reply) =>
      if reply.status == Some("SUCCESS") then InitResponse(200, reply.gatewayPageUrl, None, None)
      else InitResponse(400, None, Some("Failed to initiate payment"), Some(reply))
  }

  function InternalError(): InitResponse {
    InitResponse(500, None, Some("Internal Server Error"), None)
  }

  /** A form post to the gateway. */
  datatype GatewayPost = GatewayPost(endpoint: string, form: seq<(string, Value)>)

  /** The route. `body` is the parsed request (None when it is not JSON) and
      `gateway` what posting the form brings back. `sent` is the post made, if
      any: none when the body or its customer is missing. */
  method Handle(body: Option<InitBody>, env: Env, gateway: GatewayCall)
    returns (response: InitResponse, sent: Option<GatewayPost>)
    ensures sent.Some? <==> body.Some? && body.value.customer.Some?
    ensures sent.Some? ==> sent.value.endpoint == ApiUrl(env)
    ensures sent.Some? ==>
      sent.value.form == Entries(BuildRequest(body.value.orderId, body.value.amount, body.value.customer.value, env))
    ensures sent.Some? ==> response == Classify(gateway)
    ensures sent.None? ==> response.status == 500 && response.error == Some("Internal Server Error")
  {
    if body.None? || body.value.customer.None? {
      return InternalError(), None;
    }
    var b := body.value;
    var request := BuildRequest(b.orderId, b.amount, b.customer.value, env);
    var form := EncodeForm(request);
    sent := Some(GatewayPost(ApiUrl(env), form));
    response := Classify(gateway);
  }
}
