/**
  The create-subscription-checkout endpoint: validation of the request,
  the gateway checkout-session payload built from it, and the envelope
  returned to the client for each gateway outcome.

  The clock and the process environment are parameters: `now` is the
  epoch-millisecond reading of the clock, and `Config` holds the four
  callback bases and the beneficiary account and bank.
 */
module Checkout {
  import opened Wrappers
  import opened Js
  import opened Envelopes
  import Decimal
  import Text
  import Query

  /** The fields the handler destructures from the JSON request body. */
  datatype CheckoutRequest = CheckoutRequest(
    userId: Option<string>,
    gymId: Option<string>,
    planId: Option<string>,
    gymName: string,
    planName: string,
    durationDays: nat,
    amount: Option<int>,
    quantity: Option<int>,
    phone: Option<string>,
    email: Option<string>,
    userName: Option<string>)

  /** The environment the payload reads: callback bases, beneficiary account and bank. */
  datatype Config = Config(
    cancelBase: string,
    errorBase: string,
    notifyBase: string,
    successBase: string,
    accountNumber: string,
    bank: string)

  datatype LineItem = LineItem(name: string, quantity: int, price: int, description: string, image: string)

  datatype Beneficiary = Beneficiary(accountNumber: string, bank: string, amount: int)

  /** The checkout-session request sent to the gateway; `expireDate` is in epoch milliseconds. */
  datatype SessionPayload = SessionPayload(
    cancelUrl: string,
    errorUrl: string,
    notifyUrl: string,
    successUrl: string,
    phone: string,
    email: string,
    nonce: string,
    paymentMethods: seq<string>,
    expireDate: int,
    items: seq<LineItem>,
    beneficiaries: seq<Beneficiary>,
    lang: string)

  /** The optional fields of the gateway's `data` object; None when it has no `data` object. */
  datatype SessionData = SessionData(sessionId: Option<string>, paymentUrl: Option<string>, cancelUrl: Option<string>)

  /** What the handler does before any gateway call: answer at once, or send a payload. */
  datatype CheckoutStep = Reject(response: Response) | Send(payload: SessionPayload)

  const PaymentMethods: seq<string> := ["TELEBIRR"]
  const MinuteMs: nat := 60000
  const SessionLifetimeMs: nat := 30 * MinuteMs
  const PlaceholderImage := "https://via.placeholder.com/150"
  const MissingFieldsError := "Missing required fields"
  const CreatedMessage := "Checkout session created successfully"
  const CreateFailedError := "Failed to create subscription checkout"

  /** None of userId, gymId, planId, amount, phone, email is falsy. */
  predicate HasRequiredFields(r: CheckoutRequest) {
    IsTruthyString(r.userId) && IsTruthyString(r.gymId) && IsTruthyString(r.planId)
    && IsTruthyNumber(r.amount) && IsTruthyString(r.phone) && IsTruthyString(r.email)
  }

  /** `quantity || 1`. */
  function ItemQuantity(quantity: Option<int>): int {
    if IsTruthyNumber(quantity) then quantity.value else 1
  }

  /** The one line item: names composed from the display fields, the request's amount as price. */
  function SubscriptionItem(r: CheckoutRequest): (item: LineItem)
    requires HasRequiredFields(r)
    ensures item.name == r.gymName + " - " + r.planName
    ensures item.description
            == r.planName + " subscription for " + Decimal.Render(r.durationDays) + " days at " + r.gymName
    ensures item.image == "https://via.placeholder.com/150"
    ensures item.price == r.amount.value
    ensures item.quantity == (if IsTruthyNumber(r.quantity) then r.quantity.value else 1)
    ensures item.quantity != 0
  {
    LineItem(
      r.gymName + " - " + r.planName,
      ItemQuantity(r.quantity),
      r.amount.value,
      r.planName + " subscription for " + Decimal.Render(r.durationDays) + " days at " + r.gymName,
      PlaceholderImage)
  }

  function SuccessUrl(cfg: Config, userId: string, gymId: string, planId: string): string {
    cfg.successBase + "?userId=" + userId + "&gymId=" + gymId + "&planId=" + planId
  }

  function CancelUrl(cfg: Config, userId: string, planId: string): string {
    cfg.cancelBase + "?userId=" + userId + "&subscriptionId=" + planId
  }

  function ErrorUrl(cfg: Config, userId: string): string {
    cfg.errorBase + "?userId=" + userId
  }

  /** `${userId}_${planId}_${Date.now()}`. */
  function Nonce(userId: string, planId: string, now: nat): string {
    userId + "_" + planId + "_" + Decimal.Render(now)
  }

  /** The instant a nonce was made at: the number after its last '_'. */
  function NonceInstant(nonce: string): nat {
    var pieces := Text.Split(nonce, '_');
    Decimal.Parse(pieces[|pieces| - 1])
  }

  /** The payload the handler sends for a request that passed validation. */
  function BuildPayload(r: CheckoutRequest, cfg: Config, now: nat): (p: SessionPayload)
    requires HasRequiredFields(r)
    ensures |p.items| == 1 && |p.beneficiaries| == 1
    ensures p.items[0].price == r.amount.value && p.beneficiaries[0].amount == r.amount.value
    ensures p.items[0].quantity == (if IsTruthyNumber(r.quantity) then r.quantity.value else 1)
    ensures p.items[0].quantity != 0
    ensures p.items[0] == SubscriptionItem(r)
    ensures p.beneficiaries[0].accountNumber == cfg.accountNumber && p.beneficiaries[0].bank == cfg.bank
    ensures p.expireDate - now == 1800000
    ensures p.nonce == Nonce(r.userId.value, r.planId.value, now) && NonceInstant(p.nonce) == now
    ensures p.successUrl == SuccessUrl(cfg, r.userId.value, r.gymId.value, r.planId.value)
    ensures p.cancelUrl == CancelUrl(cfg, r.userId.value, r.planId.value)
    ensures p.errorUrl == ErrorUrl(cfg, r.userId.value)
    ensures p.paymentMethods == ["TELEBIRR"] && p.lang == "EN"
    ensures p.notifyUrl == cfg.notifyBase
    ensures p.phone == r.phone.value && p.email == r.email.value
  {
    var userId, gymId, planId := r.userId.value, r.gymId.value, r.planId.value;
    NonceRecoversInstant(userId, planId, now);
    SessionPayload(
      CancelUrl(cfg, userId, planId),
      ErrorUrl(cfg, userId),
      cfg.notifyBase,
      SuccessUrl(cfg, userId, gymId, planId),
      r.phone.value,
      r.email.value,
      Nonce(userId, planId, now),
      PaymentMethods,
      now + SessionLifetimeMs,
      [SubscriptionItem(r)],
      [Beneficiary(cfg.accountNumber, cfg.bank, r.amount.value)],
      "EN")
  }

  /** Validation first: a request missing a required field is answered 400 before any payload exists. */
  function PlanCheckout(r: CheckoutRequest, cfg: Config, now: nat): (s: CheckoutStep)
    ensures s.Reject? <==> !HasRequiredFields(r)
    ensures s.Reject? ==> s.response == Response(400, ErrorBody("Missing required fields"))
    ensures s.Send? ==> HasRequiredFields(r) && s.payload == BuildPayload(r, cfg, now)
  {
    if !HasRequiredFields(r) then Reject(Response(400, ErrorBody(MissingFieldsError)))
    else Send(BuildPayload(r, cfg, now))
  }

  /** The envelope for the gateway's outcome: 200 with the optional session fields, or 500 with details. */
  function CheckoutResponse(g: GatewayResult<Option<SessionData>>): (resp: Response)
    ensures resp.status == 200 <==> g.Reply?
    ensures resp.status == 500 <==> g.Failure?
    ensures g.Reply? ==> resp.body.CheckoutCreated? && resp.body.success
                         && resp.body.message == "Checkout session created successfully"
    ensures g.Reply? && g.value.None? ==>
              resp.body.sessionId.None? && resp.body.paymentUrl.None? && resp.body.cancelUrl.None?
    ensures g.Reply? && g.value.Some? ==>
              && resp.body.sessionId == g.value.value.sessionId
              && resp.body.paymentUrl == g.value.value.paymentUrl
              && resp.body.cancelUrl == g.value.value.cancelUrl
    ensures g.Failure? ==>
              resp.body == ErrorWithDetails("Failed to create subscription checkout",
                                            FailureDetails(g.body, g.message))
  {
    match g
    case Reply(data) =>
      var d := if data.Some? then data.value else SessionData(None, None, None);
      Response(200, CheckoutCreated(true, d.sessionId, d.paymentUrl, d.cancelUrl, CreatedMessage))
    case Failure(body, message) =>
      Response(500, ErrorWithDetails(CreateFailedError, FailureDetails(body, message)))
  }

  /** The whole handler, with the gateway's session-creation call as a parameter. */
  function CreateCheckout(r: CheckoutRequest, cfg: Config, now: nat,
                          gateway: SessionPayload -> GatewayResult<Option<SessionData>>): (resp: Response)
    ensures resp.status == 400 <==> !HasRequiredFields(r)
    ensures !HasRequiredFields(r) ==> resp == Response(400, ErrorBody("Missing required fields"))
    ensures HasRequiredFields(r) ==> resp == CheckoutResponse(gateway(BuildPayload(r, cfg, now)))
    ensures resp.status in {200, 400, 500}
  {
    match PlanCheckout(r, cfg, now)
    case Reject(response) => response
    case Send(payload) => CheckoutResponse(gateway(payload))
  }

  /** A request missing a required field gets 400 whatever the gateway would do: no call is made. */
  lemma MissingFieldsSkipGateway(r: CheckoutRequest, cfg: Config, now: nat,
                                 g1: SessionPayload -> GatewayResult<Option<SessionData>>,
                                 g2: SessionPayload -> GatewayResult<Option<SessionData>>)
    requires !HasRequiredFields(r)
    ensures CreateCheckout(r, cfg, now, g1) == Response(400, ErrorBody("Missing required fields"))
    ensures CreateCheckout(r, cfg, now, g1) == CreateCheckout(r, cfg, now, g2)
  {
  }

  /** Every nonce names the instant it was made at, whatever the two ids hold. */
  lemma NonceRecoversInstant(userId: string, planId: string, now: nat)
    ensures NonceInstant(Nonce(userId, planId, now)) == now
  {
    var digits := Decimal.Render(now);
    assert '_' !in digits by {
      forall i | 0 <= i < |digits| ensures digits[i] != '_' { }
    }
    assert Nonce(userId, planId, now) == (userId + "_" + planId) + ['_'] + digits;
    Text.SplitLast(userId + "_" + planId, '_', digits);
    Decimal.ParseRender(now);
  }

  /** Two nonces made at different instants differ, for the same or different ids. */
  lemma NonceInjectiveInInstant(u1: string, p1: string, t1: nat, u2: string, p2: string, t2: nat)
    requires t1 != t2
    ensures Nonce(u1, p1, t1) != Nonce(u2, p2, t2)
  {
    NonceRecoversInstant(u1, p1, t1);
    NonceRecoversInstant(u2, p2, t2);
  }

  /** The ids themselves are not recoverable from a nonce: an id holding '_' can shift the boundary. */
  lemma NonceAmbiguousInIds(now: nat)
    ensures Nonce("a_b", "c", now) == Nonce("a", "b_c", now)
  {
    assert "a_b" + "_" + "c" == "a" + "_" + "b_c";
  }

  /** No userId, gymId or planId text holds the '&' that separates query parameters. */
  predicate PlainIds(userId: string, gymId: string, planId: string) {
    '&' !in userId && '&' !in gymId && '&' !in planId
  }

  /** The success URL is its base with exactly the query userId, gymId, planId. */
  lemma SuccessUrlQuery(cfg: Config, userId: string, gymId: string, planId: string)
    ensures SuccessUrl(cfg, userId, gymId, planId)
            == Query.WithQuery(cfg.successBase, [("userId", userId), ("gymId", gymId), ("planId", planId)])
  {
    var p1, p2, p3 := ("userId", userId), ("gymId", gymId), ("planId", planId);
    Query.QueryOfOne(p3);
    Query.QueryOfCons(p2, [p3]);
    Query.QueryOfCons(p1, [p2, p3]);
    assert [p1] + [p2, p3] == [p1, p2, p3];
    assert [p2] + [p3] == [p2, p3];
    assert "?userId=" == "?" + "userId" + "=";
    assert "&gymId=" == ['&'] + "gymId" + "=";
    assert "&planId=" == ['&'] + "planId" + "=";
  }

  /** The cancel URL is its base with exactly the query userId, subscriptionId (the planId). */
  lemma CancelUrlQuery(cfg: Config, userId: string, planId: string)
    ensures CancelUrl(cfg, userId, planId)
            == Query.WithQuery(cfg.cancelBase, [("userId", userId), ("subscriptionId", planId)])
  {
    var p1, p2 := ("userId", userId), ("subscriptionId", planId);
    Query.QueryOfOne(p2);
    Query.QueryOfCons(p1, [p2]);
    assert [p1] + [p2] == [p1, p2];
    assert "?userId=" == "?" + "userId" + "=";
    assert "&subscriptionId=" == ['&'] + "subscriptionId" + "=";
  }

  /** The error URL is its base with exactly the query userId. */
  lemma ErrorUrlQuery(cfg: Config, userId: string)
    ensures ErrorUrl(cfg, userId) == Query.WithQuery(cfg.errorBase, [("userId", userId)])
  {
    Query.QueryOfOne(("userId", userId));
    assert "?userId=" == "?" + "userId" + "=";
  }

  /**
    The callback URLs carry the originating ids so that the redirect target can
    read them back: with bases free of '?' and ids free of '&', reading each
    URL's query gives exactly the parameters the source writes, in order.
   */
  lemma CallbackUrlsCarryContext(r: CheckoutRequest, cfg: Config, now: nat)
    requires HasRequiredFields(r)
    requires '?' !in cfg.successBase && '?' !in cfg.cancelBase && '?' !in cfg.errorBase
    requires PlainIds(r.userId.value, r.gymId.value, r.planId.value)
    ensures var p := BuildPayload(r, cfg, now);
            && Query.QueryParams(p.successUrl)
               == Some([("userId", r.userId.value), ("gymId", r.gymId.value), ("planId", r.planId.value)])
            && Query.QueryParams(p.cancelUrl)
               == Some([("userId", r.userId.value), ("subscriptionId", r.planId.value)])
            && Query.QueryParams(p.errorUrl) == Some([("userId", r.userId.value)])
            && p.notifyUrl == cfg.notifyBase
  {
    var u, g, pl := r.userId.value, r.gymId.value, r.planId.value;
    SuccessUrlQuery(cfg, u, g, pl);
    Query.QueryRoundTrip(cfg.successBase, [("userId", u), ("gymId", g), ("planId", pl)]);
    CancelUrlQuery(cfg, u, pl);
    Query.QueryRoundTrip(cfg.cancelBase, [("userId", u), ("subscriptionId", pl)]);
    ErrorUrlQuery(cfg, u);
    Query.QueryRoundTrip(cfg.errorBase, [("userId", u)]);
  }

  /** Without encoding, a userId holding "&gymId=" plants a second gymId ahead of the real one. */
  lemma AmpersandInIdInjectsParameter(cfg: Config, gymId: string, planId: string)
    requires '?' !in cfg.successBase && '&' !in gymId && '&' !in planId
    ensures Query.QueryParams(SuccessUrl(cfg, "u&gymId=x", gymId, planId))
            == Some([("userId", "u"), ("gymId", "x"), ("gymId", gymId), ("planId", planId)])
  {
    var p1, p2, p3, p4 := ("userId", "u"), ("gymId", "x"), ("gymId", gymId), ("planId", planId);
    SuccessUrlQuery(cfg, "u&gymId=x", gymId, planId);
    Query.QueryOfOne(p4);
    Query.QueryOfCons(p3, [p4]);
    Query.QueryOfCons(p2, [p3, p4]);
    Query.QueryOfCons(p1, [p2, p3, p4]);
    assert [p3] + [p4] == [p3, p4];
    assert [p2] + [p3, p4] == [p2, p3, p4];
    assert [p1] + [p2, p3, p4] == [p1, p2, p3, p4];
    Query.QueryOfCons(("userId", "u&gymId=x"), [p3, p4]);
    assert [("userId", "u&gymId=x")] + [p3, p4] == [("userId", "u&gymId=x"), p3, p4];
    assert Query.Param(("userId", "u&gymId=x")) == Query.Param(p1) + ['&'] + Query.Param(p2);
    var rest := Text.Join(Query.Params([p3, p4]), '&');
    assert Text.Join(Query.Params([("userId", "u&gymId=x"), p3, p4]), '&')
        == Text.Join(Query.Params([p1, p2, p3, p4]), '&') by {
      assert (Query.Param(p1) + ['&'] + Query.Param(p2)) + ['&'] + rest
          == Query.Param(p1) + ['&'] + (Query.Param(p2) + ['&'] + rest);
    }
    Query.QueryRoundTrip(cfg.successBase, [p1, p2, p3, p4]);
  }

  /** The payload does not depend on the userName the client sends. */
  lemma PayloadIgnoresUserName(r: CheckoutRequest, cfg: Config, now: nat, name: Option<string>)
    requires HasRequiredFields(r)
    ensures BuildPayload(r.(userName := name), cfg, now) == BuildPayload(r, cfg, now)
  {
  }

  /** A typical request (u1, g1, p1, Iron Gym, Monthly, 30 days, 500), answered by a gateway that creates session s1. */
  lemma ExampleCheckoutSucceeds(cfg: Config, now: nat)
    ensures var r := CheckoutRequest(Some("u1"), Some("g1"), Some("p1"), "Iron Gym", "Monthly", 30,
                                     Some(500), Some(1), Some("+251911000000"), Some("a@b.com"), None);
            var data := SessionData(Some("s1"), Some("https://pay/s1"), Some("https://pay/s1/cancel"));
            CreateCheckout(r, cfg, now, (p: SessionPayload) => Reply(Some(data)))
            == Response(200, CheckoutCreated(true, Some("s1"), Some("https://pay/s1"), Some("https://pay/s1/cancel"),
                                             "Checkout session created successfully"))
  {
  }

  /** The same typical request, answered by a gateway that rejects it with a body: 500 with that body as details. */
  lemma ExampleCheckoutRejected(cfg: Config, now: nat, body: Json, message: string)
    requires Truthy(body)
    ensures var r := CheckoutRequest(Some("u1"), Some("g1"), Some("p1"), "Iron Gym", "Monthly", 30,
                                     Some(500), Some(1), Some("+251911000000"), Some("a@b.com"), None);
            CreateCheckout(r, cfg, now, (p: SessionPayload) => Failure(Some(body), message))
            == Response(500, ErrorWithDetails("Failed to create subscription checkout", Upstream(body)))
  {
  }
}
