/**
 * The admin page's POST actions (main.php): approve, reject and delete a stored
 * claim, and the payment-creation request an approval sends to the billing API.
 * Each handler receives the list as loaded from the file and returns the list the
 * file holds afterwards, with `saved` telling whether the handler wrote it.
 * The billing API's answers (the payment-method list, the result of posting a
 * payment) and the clock are parameters.
 */
module Review {
  import opened Wrappers
  import opened Claims
  import PhpStrings

  /** The logged-in administrator as the security service reports them. */
  datatype Admin = Admin(userId: Option<int>, username: Option<string>)

  /** One entry of the billing platform's `payment-methods` list. */
  datatype PaymentMethod = PaymentMethod(id: string, name: Option<string>)

  /** What `$api->post('payments', ...)` does: throw, or answer with or without an `id`. */
  datatype ApiReply = Threw(error: string) | Replied(id: Option<string>)

  /** The body posted to the billing API's `payments` endpoint. */
  datatype PaymentRequest = PaymentRequest(
    clientId: int,
    amount: int,
    note: string,
    applyToInvoicesAutomatically: bool,
    userId: Option<int>,
    methodId: Option<string>)

  /** The flash message the page shows; both parts are empty when an action is silently ignored. */
  datatype Notice = Notice(text: string, kind: string)

  const NoNotice := Notice("", "")

  /** The name stamped into `approvedBy` / `rejectedBy`. */
  function ActorName(admin: Admin): string {
    admin.username.GetOr("admin")
  }

  function ApprovedClaim(c: Claim, uispId: string, now: Time, actor: string): Claim {
    c.(status := Approved, uispPaymentId := Some(uispId), approvedAt := Some(now), approvedBy := Some(actor))
  }

  function RejectedClaim(c: Claim, now: Time, actor: string): Claim {
    c.(status := Rejected, rejectedAt := Some(now), rejectedBy := Some(actor))
  }

  /** A method entry whose name equals `wanted` under `strcasecmp`; a missing name reads as "". */
  predicate NameMatches(m: PaymentMethod, wanted: string) {
    PhpStrings.EqualsIgnoreCase(m.name.GetOr(""), wanted)
  }

  /** The id of the first method whose name matches `wanted`, ignoring case. */
  function MethodByName(methods: seq<PaymentMethod>, wanted: string): (r: Option<string>)
    ensures r.None? <==> forall j :: 0 <= j < |methods| ==> !NameMatches(methods[j], wanted)
    ensures r.Some? ==> exists i :: 0 <= i < |methods| && NameMatches(methods[i], wanted) &&
                                    r.value == methods[i].id &&
                                    forall j :: 0 <= j < i ==> !NameMatches(methods[j], wanted)
  {
    if methods == [] then None
    else if NameMatches(methods[0], wanted) then Some(methods[0].id)
    else
      var r := MethodByName(methods[1..], wanted);
      if r.Some? then
        var i :| 0 <= i < |methods[1..]| && NameMatches(methods[1..][i], wanted) &&
                 r.value == methods[1..][i].id &&
                 forall j :: 0 <= j < i ==> !NameMatches(methods[1..][j], wanted);
        assert NameMatches(methods[i + 1], wanted) && r.value == methods[i + 1].id;
        r
      else r
  }

  /**
   * The method id an approval sends: none when the `paymentMethodId` setting is
   * absent or empty, the setting itself when it is UUID-shaped, and otherwise the
   * id found by name in the method list (`None` for the list when fetching it threw).
   */
  function ChosenMethod(methodConfig: Option<string>, methods: Option<seq<PaymentMethod>>): Option<string> {
    var wanted := methodConfig.GetOr("");
    if PhpStrings.IsEmpty(wanted) then None
    else if PhpStrings.MatchesUuidPattern(wanted) then Some(wanted)
    else if methods.None? then None
    else MethodByName(methods.value, wanted)
  }

  /** The approve action applies: a non-empty id whose first matching claim is still pending. */
  predicate Approvable(ps: seq<Claim>, id: string) {
    !PhpStrings.IsEmpty(id) && FirstWithId(ps, id).Some? && ps[FirstWithId(ps, id).value].status == Pending
  }

  /**
   * The list after an approve action. Only a pending claim's status fields can
   * change: length, ids and reference numbers stay, settled claims stay as they are.
   */
  function AfterApprove(ps: seq<Claim>, id: string, reply: ApiReply, now: Time, actor: string): (qs: seq<Claim>)
    ensures |qs| == |ps|
    ensures forall j :: 0 <= j < |ps| ==> qs[j].id == ps[j].id && qs[j].referenceNumber == ps[j].referenceNumber
    ensures forall j :: 0 <= j < |ps| && ps[j].status != Pending ==> qs[j] == ps[j]
    ensures forall j :: 0 <= j < |ps| && qs[j] != ps[j] ==> qs[j].status == Approved
    ensures forall j, k :: 0 <= j < k < |ps| ==> qs[j] == ps[j] || qs[k] == ps[k]
  {
    if Approvable(ps, id) && reply.Replied? && reply.id.Some? then
      var i := FirstWithId(ps, id).value;
      ps[i := ApprovedClaim(ps[i], reply.id.value, now, actor)]
    else ps
  }

  /** The list after a reject action; as for approve, only a pending claim's status fields can change. */
  function AfterReject(ps: seq<Claim>, id: string, now: Time, actor: string): (qs: seq<Claim>)
    ensures |qs| == |ps|
    ensures forall j :: 0 <= j < |ps| ==> qs[j].id == ps[j].id && qs[j].referenceNumber == ps[j].referenceNumber
    ensures forall j :: 0 <= j < |ps| && ps[j].status != Pending ==> qs[j] == ps[j]
    ensures forall j :: 0 <= j < |ps| && qs[j] != ps[j] ==> qs[j].status == Rejected
    ensures forall j, k :: 0 <= j < k < |ps| ==> qs[j] == ps[j] || qs[k] == ps[k]
  {
    if PhpStrings.IsEmpty(id) then ps
    else match FirstPendingWithId(ps, id)
      case None => ps
      case Some(i) => ps[i := RejectedClaim(ps[i], now, actor)]
  }

  /** The list after a delete action: at most one claim goes, the others keep their order. */
  function AfterDelete(ps: seq<Claim>, id: string): (qs: seq<Claim>)
    ensures |qs| == |ps| <==> qs == ps
    ensures |qs| != |ps| ==>
              exists i :: 0 <= i < |ps| && ps[i].id == id && |qs| == |ps| - 1 &&
                          (forall j :: 0 <= j < i ==> qs[j] == ps[j]) &&
                          (forall j :: i <= j < |qs| ==> qs[j] == ps[j + 1])
  {
    if PhpStrings.IsEmpty(id) then ps
    else match FirstWithId(ps, id)
      case None => ps
      case Some(i) =>
        var qs := ps[..i] + ps[i + 1..];
        assert forall j :: i <= j < |qs| ==> qs[j] == ps[j + 1];
        qs
  }

  /** The `foreach ... break` search for the first claim with a given id. */
  method FindById(ps: seq<Claim>, id: string) returns (index: Option<nat>)
    ensures index.Some? ==> index.value < |ps| && ps[index.value].id == id
    ensures index.Some? ==> forall j :: 0 <= j < index.value ==> ps[j].id != id
    ensures index.None? ==> forall j :: 0 <= j < |ps| ==> ps[j].id != id
    ensures index == FirstWithId(ps, id)
  {
    index := None;
    var i := 0;
    while i < |ps|
      invariant 0 <= i <= |ps|
      invariant forall j :: 0 <= j < i ==> ps[j].id != id
    {
      if ps[i].id == id {
        index := Some(i);
        break;
      }
      i := i + 1;
    }
  }

  /** The payment-method resolution for an approval request. */
  method ResolveMethodId(methodConfig: Option<string>, methods: Option<seq<PaymentMethod>>)
    returns (methodId: Option<string>)
    ensures PhpStrings.IsEmpty(methodConfig.GetOr("")) ==> methodId.None?
    ensures !PhpStrings.IsEmpty(methodConfig.GetOr("")) && PhpStrings.MatchesUuidPattern(methodConfig.GetOr(""))
            ==> methodId == methodConfig
    ensures !PhpStrings.IsEmpty(methodConfig.GetOr("")) && !PhpStrings.MatchesUuidPattern(methodConfig.GetOr(""))
            ==> (methodId.Some? <==>
                   (methods.Some? &&
                    exists i :: 0 <= i < |methods.value| && NameMatches(methods.value[i], methodConfig.GetOr(""))))
    ensures methodId.Some? && !PhpStrings.MatchesUuidPattern(methodConfig.GetOr("")) ==>
            methods.Some? &&
            exists i :: 0 <= i < |methods.value| && NameMatches(methods.value[i], methodConfig.GetOr("")) &&
                        methodId.value == methods.value[i].id &&
                        forall j :: 0 <= j < i ==> !NameMatches(methods.value[j], methodConfig.GetOr(""))
    ensures methodId == ChosenMethod(methodConfig, methods)
  {
    methodId := None;
    var wanted := methodConfig.GetOr("");
    if !PhpStrings.IsEmpty(wanted) {
      if PhpStrings.MatchesUuidPattern(wanted) {
        methodId := Some(wanted);
      } else if methods.Some? {
        var list := methods.value;
        var i := 0;
        while i < |list|
          invariant 0 <= i <= |list|
          invariant methodId.None?
          invariant forall j :: 0 <= j < i ==> !NameMatches(list[j], wanted)
          invariant MethodByName(list, wanted) == MethodByName(list[i..], wanted)
        {
          if NameMatches(list[i], wanted) {
            methodId := Some(list[i].id);
            break;
          }
          assert list[i..][1..] == list[i + 1..];
          i := i + 1;
        }
      }
    }
  }

  /**
   * The approve action. It looks up the first claim with the id; only when that
   * claim is pending does it build and post a payment request. Only an API answer
   * carrying an id changes and saves the list, and then only that claim's status
   * fields change.
   */
  method Approve(payments: seq<Claim>, paymentId: string, admin: Admin, methodConfig: Option<string>,
                 methods: Option<seq<PaymentMethod>>, reply: ApiReply, now: Time)
    returns (stored: seq<Claim>, saved: bool, request: Option<PaymentRequest>, notice: Notice)
    ensures request.Some? <==> Approvable(payments, paymentId)
    ensures request.Some? ==>
              var c := payments[FirstWithId(payments, paymentId).value];
              request.value == PaymentRequest(c.clientId, c.amount, "GCash Payment - Ref: " + c.referenceNumber,
                                              true, admin.userId, ChosenMethod(methodConfig, methods))
    ensures saved <==> Approvable(payments, paymentId) && reply.Replied? && reply.id.Some?
    ensures saved ==>
              var i := FirstWithId(payments, paymentId).value;
              |stored| == |payments| &&
              stored[i] == ApprovedClaim(payments[i], reply.id.value, now, ActorName(admin)) &&
              forall j :: 0 <= j < |payments| && j != i ==> stored[j] == payments[j]
    ensures !saved ==> stored == payments
    ensures stored == AfterApprove(payments, paymentId, reply, now, ActorName(admin))
    ensures !Approvable(payments, paymentId) ==> notice == NoNotice
    ensures Approvable(payments, paymentId) && reply.Threw? ==> notice == Notice("Error: " + reply.error, "error")
    ensures Approvable(payments, paymentId) && reply == Replied(None) ==>
              notice == Notice("Failed to create payment in UISP.", "error")
    ensures saved ==> notice == Notice("Payment approved and posted to UISP! Payment ID: " + reply.id.value, "success")
  {
    stored, saved, request, notice := payments, false, None, NoNotice;
    if PhpStrings.IsEmpty(paymentId) {
      return;
    }
    var index := FindById(payments, paymentId);
    if index.None? || payments[index.value].status != Pending {
      return;
    }
    var k := index.value;
    var p := payments[k];
    var methodId := ResolveMethodId(methodConfig, methods);
    request := Some(PaymentRequest(p.clientId, p.amount, "GCash Payment - Ref: " + p.referenceNumber,
                                   true, admin.userId, methodId));
    match reply {
      case Threw(e) =>
        notice := Notice("Error: " + e, "error");
      case Replied(None) =>
        notice := Notice("Failed to create payment in UISP.", "error");
      case Replied(Some(uispId)) =>
        stored := stored[k := stored[k].(status := Approved)];
        stored := stored[k := stored[k].(uispPaymentId := Some(uispId))];
        stored := stored[k := stored[k].(approvedAt := Some(now))];
        stored := stored[k := stored[k].(approvedBy := Some(ActorName(admin)))];
        saved := true;
        notice := Notice("Payment approved and posted to UISP! Payment ID: " + uispId, "success");
    }
  }

  /**
   * The reject action: the first claim that both has the id and is pending becomes
   * rejected; with no such claim nothing changes and nothing is written.
   */
  method Reject(payments: seq<Claim>, paymentId: string, admin: Admin, now: Time)
    returns (stored: seq<Claim>, saved: bool, notice: Notice)
    ensures saved <==> !PhpStrings.IsEmpty(paymentId) && FirstPendingWithId(payments, paymentId).Some?
    ensures saved ==>
              var i := FirstPendingWithId(payments, paymentId).value;
              |stored| == |payments| &&
              stored[i] == RejectedClaim(payments[i], now, ActorName(admin)) &&
              forall j :: 0 <= j < |payments| && j != i ==> stored[j] == payments[j]
    ensures !saved ==> stored == payments
    ensures stored == AfterReject(payments, paymentId, now, ActorName(admin))
    ensures notice == if saved then Notice("Payment rejected.", "info") else NoNotice
  {
    stored, saved, notice := payments, false, NoNotice;
    if PhpStrings.IsEmpty(paymentId) {
      return;
    }
    var i := 0;
    while i < |stored|
      invariant 0 <= i <= |stored|
      invariant stored == payments && !saved && notice == NoNotice
      invariant forall j :: 0 <= j < i ==> !(payments[j].id == paymentId && payments[j].status == Pending)
    {
      if stored[i].id == paymentId && stored[i].status == Pending {
        assert FirstPendingWithId(payments, paymentId) == Some(i);
        stored := stored[i := stored[i].(status := Rejected)];
        stored := stored[i := stored[i].(rejectedAt := Some(now))];
        stored := stored[i := stored[i].(rejectedBy := Some(ActorName(admin)))];
        saved := true;
        notice := Notice("Payment rejected.", "info");
        break;
      }
      i := i + 1;
    }
  }

  /**
   * The delete action: the first claim with the id is removed whatever its status,
   * the rest keep their order; with no such claim nothing changes.
   */
  method Delete(payments: seq<Claim>, paymentId: string)
    returns (stored: seq<Claim>, saved: bool, notice: Notice)
    ensures saved <==> !PhpStrings.IsEmpty(paymentId) && FirstWithId(payments, paymentId).Some?
    ensures saved ==>
              var i := FirstWithId(payments, paymentId).value;
              |stored| == |payments| - 1 &&
              (forall j :: 0 <= j < i ==> stored[j] == payments[j]) &&
              (forall j :: i <= j < |stored| ==> stored[j] == payments[j + 1])
    ensures !saved ==> stored == payments
    ensures stored == AfterDelete(payments, paymentId)
    ensures notice == if saved then Notice("Payment record deleted.", "info") else NoNotice
  {
    stored, saved, notice := payments, false, NoNotice;
    if PhpStrings.IsEmpty(paymentId) {
      return;
    }
    var i := 0;
    while i < |stored|
      invariant 0 <= i <= |stored|
      invariant stored == payments && !saved && notice == NoNotice
      invariant forall j :: 0 <= j < i ==> payments[j].id != paymentId
    {
      if stored[i].id == paymentId {
        assert FirstWithId(payments, paymentId) == Some(i);
        stored := stored[..i] + stored[i + 1..];
        saved := true;
        notice := Notice("Payment record deleted.", "info");
        break;
      }
      i := i + 1;
    }
  }

  /** A request to the admin page: a plain view, or a form POST naming an action and a claim id. */
  datatype AdminRequest = Get | Post(action: string, paymentId: string)

  /**
   * One request to the admin page: without a logged-in administrator it is refused
   * before anything is read; a GET or an unknown action changes nothing; otherwise
   * the named action runs.
   */
  method HandleAdminRequest(user: Option<Admin>, req: AdminRequest, payments: seq<Claim>,
                            methodConfig: Option<string>, methods: Option<seq<PaymentMethod>>,
                            reply: ApiReply, now: Time)
    returns (forbidden: bool, stored: seq<Claim>, saved: bool, notice: Notice)
    ensures forbidden <==> user.None?
    ensures forbidden || req.Get? ==> stored == payments && !saved && notice == NoNotice
    ensures !forbidden && req.Post? ==>
              stored == match req.action
                        case "approve" => AfterApprove(payments, req.paymentId, reply, now, ActorName(user.value))
                        case "reject" => AfterReject(payments, req.paymentId, now, ActorName(user.value))
                        case "delete" => AfterDelete(payments, req.paymentId)
                        case _ => payments
    ensures saved ==> !forbidden && req.Post? && req.action in {"approve", "reject", "delete"}
    ensures !saved ==> stored == payments
  {
    forbidden, stored, saved, notice := user.None?, payments, false, NoNotice;
    if forbidden || req.Get? {
      return;
    }
    var admin := user.value;
    if req.action == "approve" {
      var request;
      stored, saved, request, notice := Approve(payments, req.paymentId, admin, methodConfig, methods, reply, now);
    } else if req.action == "reject" {
      stored, saved, notice := Reject(payments, req.paymentId, admin, now);
    } else if req.action == "delete" {
      stored, saved, notice := Delete(payments, req.paymentId);
    }
  }
}

/** What the review actions keep true of the stored list. */
module ReviewProperties {
  import opened Claims
  import opened Review
  import PhpStrings

  /** With distinct ids, a second delete of the same id finds nothing and changes nothing. */
  lemma {:induction false} DeleteIdempotent(ps: seq<Claim>, id: string)
    requires DistinctIds(ps)
    ensures AfterDelete(AfterDelete(ps, id), id) == AfterDelete(ps, id)
  {
    if !PhpStrings.IsEmpty(id) && FirstWithId(ps, id).Some? {
      var i := FirstWithId(ps, id).value;
      var qs := ps[..i] + ps[i + 1..];
      assert AfterDelete(ps, id) == qs;
      forall j | 0 <= j < |qs| ensures qs[j].id != id {
        if j < i {
          assert qs[j] == ps[j];
        } else {
          assert qs[j] == ps[j + 1];
          assert ps[i].id != ps[j + 1].id;
        }
      }
    }
  }

  /** Approving keeps ids and reference numbers unique. */
  lemma ApproveKeepsDistinct(ps: seq<Claim>, id: string, reply: ApiReply, now: Time, actor: string)
    ensures DistinctIds(ps) ==> DistinctIds(AfterApprove(ps, id, reply, now, actor))
    ensures DistinctReferences(ps) ==> DistinctReferences(AfterApprove(ps, id, reply, now, actor))
  {
  }

  /** Rejecting keeps ids and reference numbers unique. */
  lemma RejectKeepsDistinct(ps: seq<Claim>, id: string, now: Time, actor: string)
    ensures DistinctIds(ps) ==> DistinctIds(AfterReject(ps, id, now, actor))
    ensures DistinctReferences(ps) ==> DistinctReferences(AfterReject(ps, id, now, actor))
  {
  }

  /** Deleting keeps the ids and the reference numbers of the remaining claims unique. */
  lemma DeleteKeepsDistinct(ps: seq<Claim>, id: string)
    ensures DistinctIds(ps) ==> DistinctIds(AfterDelete(ps, id))
    ensures DistinctReferences(ps) ==> DistinctReferences(AfterDelete(ps, id))
  {
    var qs := AfterDelete(ps, id);
    if qs != ps {
      var i :| 0 <= i < |ps| && ps[i].id == id && |qs| == |ps| - 1 &&
               (forall j :: 0 <= j < i ==> qs[j] == ps[j]) &&
               (forall j :: i <= j < |qs| ==> qs[j] == ps[j + 1]);
      if DistinctIds(ps) {
        forall a, b | 0 <= a < b < |qs| ensures qs[a].id != qs[b].id {
          assert qs[a] == ps[if a < i then a else a + 1];
          assert qs[b] == ps[if b < i then b else b + 1];
        }
      }
      if DistinctReferences(ps) {
        forall a, b | 0 <= a < b < |qs| ensures qs[a].referenceNumber != qs[b].referenceNumber {
          assert qs[a] == ps[if a < i then a else a + 1];
          assert qs[b] == ps[if b < i then b else b + 1];
        }
      }
    }
  }
}
