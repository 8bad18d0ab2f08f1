/** The capability layer: the mock backend that routes on endpoint strings,
    identity verification on top of it, and the tool wrappers that turn a
    normal return into a successful `ActionResult` and a raised exception
    into a failed one. */
module Tools {
  import opened Values
  import opened Strings

  /** `ActionPriority` */
  datatype ActionPriority = High | Medium | Low

  /** `ActionPriority.value` */
  function PriorityTag(p: ActionPriority): (tag: string)
    ensures tag == "high" <==> p == High
    ensures tag == "medium" <==> p == Medium
    ensures tag == "low" <==> p == Low
  {
    match p
    case High => "high"
    case Medium => "medium"
    case Low => "low"
  }

  /** `ActionResult`: the uniform outcome of every tool. */
  datatype ActionResult = ActionResult(success: bool, message: string, data: Option<Dict>, error: Option<string>)

  /** The profile the identity endpoint returns for `customerId`. */
  function UserInfo(customerId: Value): Dict {
    map["id" := customerId, "name" := VStr("John Doe"), "email" := VStr("john@example.com")]
  }

  /** The single knowledge-base article the search endpoint returns. */
  const Articles: Value :=
    VList([VDict(map["title" := VStr("How to reset password"),
                     "content" := VStr("Step by step guide..."),
                     "relevance" := VReal(0.95)])])

  /** The user-context endpoint's fixed answer. */
  const UserContextResponse: Dict :=
    map["subscription_status" := VStr("active"),
        "last_login" := VStr("2025-02-13"),
        "pending_actions" := VList([VStr("update_payment")]),
        "available_actions" := VList([VDict(map["id" := VStr("update_payment"),
                                                "title" := VStr("Update Payment Method"),
                                                "priority" := VStr(PriorityTag(High))])])]

  /** The answer of every endpoint that no branch matches. */
  const PlainSuccess: Dict := map["status" := VStr("success")]

  /** An endpoint under `/orders/` always splits into at least three pieces. */
  lemma OrdersEndpointSplits(endpoint: string)
    requires StartsWith(endpoint, "/orders/")
    ensures |SplitOn(endpoint, '/')| >= 3
  {
    var rest := endpoint[8..];
    assert endpoint == "" + ['/'] + ("orders" + ['/'] + rest);
    SplitOnAfterSep("", "orders" + ['/'] + rest, '/');
    SplitOnAfterSep("orders", rest, '/');
  }

  /** `endpoint.split("/")[2]` */
  function OrderNumberOf(endpoint: string): (x: string)
    requires StartsWith(endpoint, "/orders/")
    ensures '/' !in x
    ensures StartsWith(endpoint[8..], x)
    ensures |endpoint| == 8 + |x| || endpoint[8 + |x|] == '/'
  {
    OrdersEndpointSplits(endpoint);
    var rest := endpoint[8..];
    assert endpoint == "" + ['/'] + ("orders" + ['/'] + rest);
    SplitOnAfterSep("", "orders" + ['/'] + rest, '/');
    SplitOnAfterSep("orders", rest, '/');
    assert SplitOn(endpoint, '/')[2] == SplitOn(rest, '/')[0];
    SplitOn(endpoint, '/')[2]
  }

  /** The order number is the path segment between `/orders/` and the next `/`. */
  lemma {:induction false} OrderNumberIsSegment(x: string, suffix: string)
    requires |suffix| > 0 && suffix[0] == '/'
    ensures StartsWith("/orders/" + x + suffix, "/orders/")
    ensures '/' !in x ==> OrderNumberOf("/orders/" + x + suffix) == x
  {
    var endpoint := "/orders/" + x + suffix;
    var tail := suffix[1..];
    assert endpoint[..8] == "/orders/";
    if '/' !in x {
      assert endpoint == "" + ['/'] + ("orders" + ['/'] + (x + ['/'] + tail));
      SplitOnAfterSep("", "orders" + ['/'] + (x + ['/'] + tail), '/');
      SplitOnAfterSep("orders", x + ['/'] + tail, '/');
      SplitOnAfterSep(x, tail, '/');
    }
  }

  /** A differing last character rules a suffix out. */
  lemma LastCharRulesOut(s: string, suffix: string)
    requires |s| > 0 && |suffix| > 0 && s[|s| - 1] != suffix[|suffix| - 1]
    ensures !EndsWith(s, suffix)
  {
  }

  /** The branch of the mock that an endpoint reaches. */
  datatype Branch =
    | AuthVerify | KnowledgeBase | OrderStatus | UserContext | UpdateShipping
    | Refund | OrderEmail | AccountUpdate | CrmCallback | Unrouted
  {
    /** The four branches under `/orders/`. */
    predicate IsOrder() { OrderStatus? || UpdateShipping? || Refund? || OrderEmail? }

    /** The branches that read the request body. */
    predicate ReadsBody() { AuthVerify? || UpdateShipping? || Refund? || OrderEmail? || AccountUpdate? || CrmCallback? }
  }

  /** The `if`/`elif` tests of `_mock_api_call`, in their order. */
  function BranchOf(endpoint: string): (b: Branch)
    ensures b.IsOrder() ==> StartsWith(endpoint, "/orders/")
  {
    if endpoint == "/auth/verify" then AuthVerify
    else if endpoint == "/kb/search" then KnowledgeBase
    else if StartsWith(endpoint, "/orders/") && EndsWith(endpoint, "/status") then OrderStatus
    else if StartsWith(endpoint, "/users/") && EndsWith(endpoint, "/context") then UserContext
    else if StartsWith(endpoint, "/orders/") && EndsWith(endpoint, "/update_shipping") then UpdateShipping
    else if StartsWith(endpoint, "/orders/") && EndsWith(endpoint, "/refund") then Refund
    else if StartsWith(endpoint, "/orders/") && EndsWith(endpoint, "/email") then OrderEmail
    else if endpoint == "/account/update" then AccountUpdate
    else if endpoint == "/crm/callback" then CrmCallback
    else Unrouted
  }

  /** The identity endpoint's answer: `customer_id` must be a string. */
  function AuthAnswer(data: Option<Dict>): (r: Result<Dict, Fault>)
    ensures r.Success? <==> data.Some? && "customer_id" in data.value && data.value["customer_id"].VStr?
    ensures r.Success? ==>
              var id := data.value["customer_id"];
              r.value == map["verified" := VBool(StartsWith(id.s, "USER")), "user_info" := VDict(UserInfo(id))]
  {
    var id :- Index(data, "customer_id");
    if !id.VStr? then Failure(AttributeError(TypeName(id), "startswith"))
    else Success(map["verified" := VBool(StartsWith(id.s, "USER")), "user_info" := VDict(UserInfo(id))])
  }

  /** An order endpoint's answer: its order number plus branch-specific fields. */
  function OrderAnswer(endpoint: string, fields: Dict): (r: Dict)
    requires StartsWith(endpoint, "/orders/")
    ensures "order_number" in r && r["order_number"] == VStr(OrderNumberOf(endpoint))
    ensures forall k :: k in fields && k != "order_number" ==> k in r && r[k] == fields[k]
  {
    fields["order_number" := VStr(OrderNumberOf(endpoint))]
  }

  /** What the branch `b` of the mock answers. */
  function Answer(b: Branch, endpoint: string, data: Option<Dict>): Result<Dict, Fault>
    requires b.IsOrder() ==> StartsWith(endpoint, "/orders/")
  {
    match b
    case AuthVerify => AuthAnswer(data)
    case KnowledgeBase => Success(map["articles" := Articles])
    case OrderStatus =>
      Success(OrderAnswer(endpoint, map["status" := VStr("shipped"),
                                        "estimated_delivery" := VStr("2025-02-15"),
                                        "tracking_number" := VStr("1234567890")]))
    case UserContext => Success(UserContextResponse)
    case UpdateShipping =>
      var address :- GetFrom(data, "new_address", VNone);
      Success(OrderAnswer(endpoint, map["updated_address" := address,
                                        "status" := VStr("shipping address updated")]))
    case Refund =>
      var reason :- GetFrom(data, "reason", VStr("Not specified"));
      Success(OrderAnswer(endpoint, map["refund_status" := VStr("initiated"), "refund_reason" := reason]))
    case OrderEmail =>
      var recipient :- GetFrom(data, "recipient", VNone);
      Success(OrderAnswer(endpoint, map["email_sent" := VBool(true), "recipient" := recipient]))
    case AccountUpdate =>
      var userId :- GetFrom(data, "user_id", VNone);
      var details :- GetFrom(data, "details", VNone);
      Success(map["user_id" := userId, "updated_fields" := details, "status" := VStr("account details updated")])
    case CrmCallback =>
      var userId :- GetFrom(data, "user_id", VNone);
      var time :- GetFrom(data, "callback_time", VNone);
      Success(map["user_id" := userId, "callback_time" := time, "status" := VStr("callback scheduled")])
    case Unrouted => Success(PlainSuccess)
  }

  /** `_mock_api_call`: the branches are tried in order; a branch that reads
      the request body raises when the body is missing or malformed. */
  function MockApiCall(httpMethod: string, endpoint: string, data: Option<Dict>): (r: Result<Dict, Fault>)
    ensures BranchOf(endpoint) == AuthVerify ==> r == AuthAnswer(data)
    ensures r.Failure? ==> BranchOf(endpoint).ReadsBody() && (data.None? || BranchOf(endpoint) == AuthVerify)
    ensures BranchOf(endpoint).IsOrder() && r.Success? ==>
              "order_number" in r.value && r.value["order_number"] == VStr(OrderNumberOf(endpoint))
    ensures BranchOf(endpoint) == Unrouted ==> r == Success(PlainSuccess)
  {
    Answer(BranchOf(endpoint), endpoint, data)
  }

  /** A differing character rules a prefix out. */
  lemma CharRulesOutPrefix(s: string, prefix: string, i: nat)
    requires i < |s| && i < |prefix| && s[i] != prefix[i]
    ensures !StartsWith(s, prefix)
  {
  }

  lemma OrderStatusBranch(orderNumber: string)
    ensures BranchOf("/orders/" + orderNumber + "/status") == OrderStatus
  {
    var endpoint := "/orders/" + orderNumber + "/status";
    assert endpoint[1] == 'o' && endpoint[..8] == "/orders/";
    assert endpoint[|endpoint| - 7..] == "/status";
  }

  lemma UserContextBranch(userId: string)
    ensures BranchOf("/users/" + userId + "/context") == UserContext
  {
    var endpoint := "/users/" + userId + "/context";
    assert endpoint[1] == 'u' && endpoint[..7] == "/users/";
    CharRulesOutPrefix(endpoint, "/orders/", 1);
    assert endpoint[|endpoint| - 8..] == "/context";
  }

  lemma UpdateShippingBranch(orderNumber: string)
    ensures BranchOf("/orders/" + orderNumber + "/update_shipping") == UpdateShipping
  {
    var endpoint := "/orders/" + orderNumber + "/update_shipping";
    assert endpoint[1] == 'o' && endpoint[..8] == "/orders/";
    CharRulesOutPrefix(endpoint, "/users/", 1);
    LastCharRulesOut(endpoint, "/status");
    assert endpoint[|endpoint| - 16..] == "/update_shipping";
  }

  lemma RefundBranch(orderNumber: string)
    ensures BranchOf("/orders/" + orderNumber + "/refund") == Refund
  {
    var endpoint := "/orders/" + orderNumber + "/refund";
    assert endpoint[1] == 'o' && endpoint[..8] == "/orders/";
    CharRulesOutPrefix(endpoint, "/users/", 1);
    LastCharRulesOut(endpoint, "/status");
    LastCharRulesOut(endpoint, "/update_shipping");
    assert endpoint[|endpoint| - 7..] == "/refund";
  }

  lemma OrderEmailBranch(orderNumber: string)
    ensures BranchOf("/orders/" + orderNumber + "/email") == OrderEmail
  {
    var endpoint := "/orders/" + orderNumber + "/email";
    assert endpoint[1] == 'o' && endpoint[..8] == "/orders/";
    CharRulesOutPrefix(endpoint, "/users/", 1);
    LastCharRulesOut(endpoint, "/status");
    LastCharRulesOut(endpoint, "/update_shipping");
    LastCharRulesOut(endpoint, "/refund");
    assert endpoint[|endpoint| - 6..] == "/email";
  }

  /** `/actions/{id}/execute` reaches no branch. */
  lemma ActionEndpointUnrouted(actionId: string)
    ensures BranchOf("/actions/" + actionId + "/execute") == Unrouted
  {
    var endpoint := "/actions/" + actionId + "/execute";
    assert endpoint[1] == 'a' && endpoint[2] == 'c' && endpoint[3] == 't';
    assert endpoint != "/auth/verify" by { assert "/auth/verify"[2] == 'u'; }
    assert endpoint != "/account/update" by { assert "/account/update"[3] == 'c'; }
    CharRulesOutPrefix(endpoint, "/orders/", 1);
    CharRulesOutPrefix(endpoint, "/users/", 1);
  }

  lemma FixedBranches()
    ensures BranchOf("/auth/verify") == AuthVerify
    ensures BranchOf("/kb/search") == KnowledgeBase
    ensures BranchOf("/feedback/log") == Unrouted
    ensures BranchOf("/account/update") == AccountUpdate
    ensures BranchOf("/crm/callback") == CrmCallback
  {
    CharRulesOutPrefix("/feedback/log", "/orders/", 1);
    CharRulesOutPrefix("/feedback/log", "/users/", 1);
    assert "/feedback/log" != "/auth/verify" by { assert "/auth/verify"[1] == 'a'; }
    assert "/feedback/log" != "/kb/search" by { assert "/kb/search"[1] == 'k'; }
    assert "/feedback/log" != "/account/update" by { assert "/account/update"[1] == 'a'; }
    assert "/feedback/log" != "/crm/callback" by { assert "/crm/callback"[1] == 'c'; }
    CharRulesOutPrefix("/kb/search", "/orders/", 1);
    CharRulesOutPrefix("/kb/search", "/users/", 1);
    assert "/kb/search" != "/auth/verify" by { assert "/auth/verify"[1] == 'a'; }
    CharRulesOutPrefix("/account/update", "/orders/", 1);
    CharRulesOutPrefix("/account/update", "/users/", 1);
    assert "/account/update" != "/auth/verify" by { assert "/auth/verify"[2] == 'u'; }
    assert "/account/update" != "/kb/search" by { assert "/kb/search"[1] == 'k'; }
    CharRulesOutPrefix("/crm/callback", "/orders/", 1);
    CharRulesOutPrefix("/crm/callback", "/users/", 1);
    assert "/crm/callback" != "/auth/verify" by { assert "/auth/verify"[1] == 'a'; }
    assert "/crm/callback" != "/kb/search" by { assert "/kb/search"[1] == 'k'; }
    assert "/crm/callback" != "/account/update" by { assert "/account/update"[1] == 'a'; }
  }

  /** `verify_identity_impl` (and the `verify_identity` tool that delegates to
      it): verified exactly for identifiers with the prefix `USER`. */
  function VerifyIdentity(customerId: string, password: string): (r: ActionResult)
    ensures r.success <==> StartsWith(customerId, "USER")
    ensures r.success ==>
              r == ActionResult(true, "Identity verified successfully",
                                Some(map["user_info" := VDict(UserInfo(VStr(customerId)))]), None)
    ensures !r.success ==>
              r == ActionResult(false, "Identity verification failed", None, Some("Invalid credentials"))
  {
    var request := map["customer_id" := VStr(customerId), "password" := VStr(password)];
    FixedBranches();
    match MockApiCall("POST", "/auth/verify", Some(request))
    case Success(response) =>
      if Truthy(Get(response, "verified", VBool(false))) then
        ActionResult(true, "Identity verified successfully",
                     Some(map["user_info" := Get(response, "user_info", VDict(map[]))]), None)
      else
        ActionResult(false, "Identity verification failed", None, Some("Invalid credentials"))
    case Failure(e) =>
      ActionResult(false, "Verification error", None, Some(FaultText(e)))
  }

  /** The `try`/`except` shape every tool wrapper shares. */
  function Wrap(call: Result<Dict, Fault>, okMessage: string, failMessage: string): (r: ActionResult)
    ensures r.success <==> call.Success?
    ensures call.Success? ==> r.message == okMessage && r.data == Some(call.value) && r.error.None?
    ensures call.Failure? ==> r.message == failMessage && r.data.None? && r.error == Some(FaultText(call.error))
  {
    match call
    case Success(response) => ActionResult(true, okMessage, Some(response), None)
    case Failure(e) => ActionResult(false, failMessage, None, Some(FaultText(e)))
  }

  /** The request parameters of `query_knowledge_base`. */
  function KnowledgeBaseParams(query: string, category: Option<string>): (params: Dict)
    ensures params.Keys <= {"query", "category"} && "query" in params && params["query"] == VStr(query)
    ensures "category" in params <==> category.Some? && category.value != ""
    ensures "category" in params ==> params["category"] == VStr(category.value)
  {
    var params := map["query" := VStr(query)];
    if category.Some? && category.value != "" then params["category" := VStr(category.value)] else params
  }

  /** `query_knowledge_base` */
  function QueryKnowledgeBase(query: string, category: Option<string>): (r: ActionResult)
    ensures r == ActionResult(true, "Knowledge base query successful", Some(map["articles" := Articles]), None)
  {
    FixedBranches();
    var call := match MockApiCall("GET", "/kb/search", Some(KnowledgeBaseParams(query, category)))
      case Success(response) => Success(map["articles" := Get(response, "articles", VList([]))])
      case Failure(e) => Failure(e);
    Wrap(call, "Knowledge base query successful", "Knowledge base query failed")
  }

  /** `fetch_order_status` */
  function FetchOrderStatus(orderNumber: string): (r: ActionResult)
    ensures r.success && r.message == "Order status retrieved successfully" && r.error.None?
    ensures r.data.Some? && "status" in r.data.value && "order_number" in r.data.value
    ensures r.data.value["status"] == VStr("shipped")
    ensures '/' !in orderNumber ==> r.data.value["order_number"] == VStr(orderNumber)
  {
    var endpoint := "/orders/" + orderNumber + "/status";
    OrderStatusBranch(orderNumber);
    OrderNumberIsSegment(orderNumber, "/status");
    Wrap(MockApiCall("GET", endpoint, None), "Order status retrieved successfully", "Failed to fetch order status")
  }

  /** `get_user_context` */
  function GetUserContext(userId: string): (r: ActionResult)
    ensures r == ActionResult(true, "User context retrieved successfully", Some(UserContextResponse), None)
  {
    var endpoint := "/users/" + userId + "/context";
    UserContextBranch(userId);
    Wrap(MockApiCall("GET", endpoint, None), "User context retrieved successfully", "Failed to fetch user context")
  }

  /** `execute_action` */
  function ExecuteAction(userId: string, actionId: string, params: Option<Dict>): (r: ActionResult)
    ensures r == ActionResult(true, "Action " + actionId + " executed successfully", Some(PlainSuccess), None)
  {
    var endpoint := "/actions/" + actionId + "/execute";
    ActionEndpointUnrouted(actionId);
    var body := map["user_id" := VStr(userId),
                    "params" := VDict(if params.Some? then params.value else map[])];
    Wrap(MockApiCall("POST", endpoint, Some(body)),
         "Action " + actionId + " executed successfully", "Failed to execute action " + actionId)
  }

  /** `log_feedback` */
  function LogFeedback(sessionId: string, rating: int, comments: Option<string>): (r: ActionResult)
    ensures r == ActionResult(true, "Feedback logged successfully", Some(PlainSuccess), None)
  {
    var body := map["session_id" := VStr(sessionId), "rating" := VInt(rating),
                    "comments" := if comments.Some? then VStr(comments.value) else VNone];
    FixedBranches();
    Wrap(MockApiCall("POST", "/feedback/log", Some(body)), "Feedback logged successfully", "Failed to log feedback")
  }

  /** `update_shipping_address` */
  function UpdateShippingAddress(orderNumber: string, newAddress: Dict): (r: ActionResult)
    ensures r.success && r.message == "Shipping address updated successfully" && r.error.None?
    ensures r.data.Some? && "updated_address" in r.data.value && "order_number" in r.data.value
    ensures r.data.value["updated_address"] == VDict(newAddress)
    ensures '/' !in orderNumber ==> r.data.value["order_number"] == VStr(orderNumber)
  {
    var endpoint := "/orders/" + orderNumber + "/update_shipping";
    UpdateShippingBranch(orderNumber);
    OrderNumberIsSegment(orderNumber, "/update_shipping");
    Wrap(MockApiCall("POST", endpoint, Some(map["new_address" := VDict(newAddress)])),
         "Shipping address updated successfully", "Failed to update shipping address")
  }

  /** `request_refund` */
  function RequestRefund(orderNumber: string, reason: string): (r: ActionResult)
    ensures r.success && r.message == "Refund request initiated successfully" && r.error.None?
    ensures r.data.Some? && "refund_reason" in r.data.value && "order_number" in r.data.value
    ensures r.data.value["refund_reason"] == VStr(reason)
    ensures '/' !in orderNumber ==> r.data.value["order_number"] == VStr(orderNumber)
  {
    var endpoint := "/orders/" + orderNumber + "/refund";
    RefundBranch(orderNumber);
    OrderNumberIsSegment(orderNumber, "/refund");
    Wrap(MockApiCall("POST", endpoint, Some(map["reason" := VStr(reason)])),
         "Refund request initiated successfully", "Failed to initiate refund")
  }

  /** `send_order_email` */
  function SendOrderEmail(recipient: string, orderNumber: string): (r: ActionResult)
    ensures r.success && r.message == "Order details emailed successfully" && r.error.None?
    ensures r.data.Some? && "recipient" in r.data.value && "email_sent" in r.data.value && "order_number" in r.data.value
    ensures r.data.value["recipient"] == VStr(recipient) && r.data.value["email_sent"] == VBool(true)
    ensures '/' !in orderNumber ==> r.data.value["order_number"] == VStr(orderNumber)
  {
    var endpoint := "/orders/" + orderNumber + "/email";
    OrderEmailBranch(orderNumber);
    OrderNumberIsSegment(orderNumber, "/email");
    Wrap(MockApiCall("POST", endpoint, Some(map["recipient" := VStr(recipient)])),
         "Order details emailed successfully", "Failed to email order details")
  }

  /** `update_account_details` */
  function UpdateAccountDetails(userId: string, details: Dict): (r: ActionResult)
    ensures r.success && r.message == "Account details updated successfully"
    ensures r.data == Some(map["user_id" := VStr(userId), "updated_fields" := VDict(details),
                               "status" := VStr("account details updated")])
  {
    FixedBranches();
    Wrap(MockApiCall("POST", "/account/update", Some(map["user_id" := VStr(userId), "details" := VDict(details)])),
         "Account details updated successfully", "Failed to update account details")
  }

  /** `schedule_callback` */
  function ScheduleCallback(userId: string, callbackTime: string): (r: ActionResult)
    ensures r.success && r.message == "Callback scheduled successfully"
    ensures r.data == Some(map["user_id" := VStr(userId), "callback_time" := VStr(callbackTime),
                               "status" := VStr("callback scheduled")])
  {
    FixedBranches();
    Wrap(MockApiCall("POST", "/crm/callback", Some(map["user_id" := VStr(userId), "callback_time" := VStr(callbackTime)])),
         "Callback scheduled successfully", "Failed to schedule callback")
  }
}
