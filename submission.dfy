/**
 * The public two-step submission form (public.php). Step 1 (`verify_account`)
 * checks the account number and amount and finds the paying client; the match is
 * kept in the session. Step 2 (`submit_payment`) checks the reference number, the
 * session and the duplicate-reference guard, then appends a pending claim and
 * clears the session. The session map, the loaded list, the client directory's
 * answer, the configured receiving account, the new claim's id and the clock are
 * parameters; handlers return the new session and the list the file holds.
 */
module Submission {
  import opened Wrappers
  import opened Claims
  import PhpStrings

  /** One entry of the billing platform's `clients` list; absent keys are `None`. */
  datatype Client = Client(id: int, userIdent: Option<string>, firstName: Option<string>, lastName: Option<string>)

  /** A session entry: the client id and the amount are numbers, the name and account number text. */
  datatype SessionValue = Number(n: int) | Text(s: string)

  type Session = map<string, SessionValue>

  const ClientIdKey := "gcash_client_id"
  const ClientNameKey := "gcash_client_name"
  const AccountNumberKey := "gcash_account_number"
  const AmountKey := "gcash_amount"

  /** The receiving account shown to payers: the `gcashNumber` / `gcashName` settings ("" when unset). */
  datatype ReceivingAccount = ReceivingAccount(number: string, name: string)

  datatype Message = Message(text: string, kind: string)

  /**
   * What the page does next: render the form at a step with a new message (or with
   * the message it already had, `None`), or redirect to the success view.
   */
  datatype Reply = Form(step: int, message: Option<Message>) | Redirect(reference: string)

  /** The four step-1 keys are written together and removed together, with their expected types. */
  predicate SessionShaped(s: Session) {
    ClientIdKey in s ==>
      s[ClientIdKey].Number? &&
      ClientNameKey in s && s[ClientNameKey].Text? &&
      AccountNumberKey in s && s[AccountNumberKey].Text? &&
      AmountKey in s && s[AmountKey].Number?
  }

  /** `trim(firstName . ' ' . lastName)`, a missing part read as "". */
  function DisplayName(c: Client): string {
    PhpStrings.Trim(c.firstName.GetOr("") + " " + c.lastName.GetOr(""))
  }

  /** `isset($client['userIdent']) && $client['userIdent'] === $accountNumber`. */
  predicate IdentMatches(c: Client, accountNumber: string) {
    c.userIdent == Some(accountNumber)
  }

  /** A valid step-1 amount: numeric (`Some`, in centavos) and strictly positive. */
  predicate ValidAmount(amount: Option<int>) {
    amount.Some? && amount.value > 0
  }

  /** The position of the first client whose `userIdent` is exactly `accountNumber`. */
  function FirstClient(clients: seq<Client>, accountNumber: string): (r: Option<nat>)
    ensures r.Some? ==> r.value < |clients| && IdentMatches(clients[r.value], accountNumber)
    ensures r.Some? ==> forall j :: 0 <= j < r.value ==> !IdentMatches(clients[j], accountNumber)
    ensures r.None? <==> forall j :: 0 <= j < |clients| ==> !IdentMatches(clients[j], accountNumber)
  {
    if clients == [] then None
    else if IdentMatches(clients[0], accountNumber) then Some(0)
    else match FirstClient(clients[1..], accountNumber)
      case None => None
      case Some(k) => Some(k + 1)
  }

  /** The session after a successful step 1 for client `c`. */
  function Remember(session: Session, c: Client, accountNumber: string, amount: int): Session {
    session[ClientIdKey := Number(c.id)]
           [ClientNameKey := Text(DisplayName(c))]
           [AccountNumberKey := Text(accountNumber)]
           [AmountKey := Number(amount)]
  }

  /** The session after a successful step 2: the four step-1 keys removed, nothing else touched. */
  function Forget(session: Session): Session {
    session - {ClientIdKey, ClientNameKey, AccountNumberKey, AmountKey}
  }

  /** The pending claim step 2 builds from the session. */
  function NewClaim(session: Session, reference: string, account: ReceivingAccount, id: string, now: Time): Claim
    requires SessionShaped(session) && ClientIdKey in session
  {
    Claim(id, session[ClientIdKey].n, session[ClientNameKey].s, session[AccountNumberKey].s,
          session[AmountKey].n, reference, Pending, now, account.number, account.name,
          None, None, None, None, None)
  }

  /** The client search loop of step 1. */
  method FindClient(clients: seq<Client>, accountNumber: string) returns (index: Option<nat>)
    ensures index.Some? ==> index.value < |clients| && IdentMatches(clients[index.value], accountNumber)
    ensures index.Some? ==> forall j :: 0 <= j < index.value ==> !IdentMatches(clients[j], accountNumber)
    ensures index.None? ==> forall j :: 0 <= j < |clients| ==> !IdentMatches(clients[j], accountNumber)
    ensures index == FirstClient(clients, accountNumber)
  {
    index := None;
    var i := 0;
    while i < |clients|
      invariant 0 <= i <= |clients|
      invariant forall j :: 0 <= j < i ==> !IdentMatches(clients[j], accountNumber)
    {
      if clients[i].userIdent.Some? && clients[i].userIdent.value == accountNumber {
        index := Some(i);
        break;
      }
      i := i + 1;
    }
  }

  /** The duplicate-reference loop of step 2: any stored claim, whatever its status. */
  method IsDuplicate(payments: seq<Claim>, reference: string) returns (duplicate: bool)
    ensures duplicate <==> HasReference(payments, reference)
  {
    duplicate := false;
    var i := 0;
    while i < |payments|
      invariant 0 <= i <= |payments|
      invariant forall j :: 0 <= j < i ==> payments[j].referenceNumber != reference
    {
      if payments[i].referenceNumber == reference {
        duplicate := true;
        break;
      }
      i := i + 1;
    }
  }

  /**
   * Step 1, `verify_account`. Errors stay at step 1 and leave the session as it was;
   * a match stores the client in the session and moves to step 2.
   * `clients` is `None` when the directory lookup threw.
   */
  method VerifyAccount(accountField: string, amount: Option<int>, clients: Option<seq<Client>>, session: Session)
    returns (reply: Reply, newSession: Session)
    ensures var acc := PhpStrings.Trim(accountField);
            PhpStrings.IsEmpty(acc) ==>
              reply == Form(1, Some(Message("Account number is required.", "error"))) && newSession == session
    ensures var acc := PhpStrings.Trim(accountField);
            !PhpStrings.IsEmpty(acc) && !ValidAmount(amount) ==>
              reply == Form(1, Some(Message("Please enter a valid amount.", "error"))) && newSession == session
    ensures var acc := PhpStrings.Trim(accountField);
            !PhpStrings.IsEmpty(acc) && ValidAmount(amount) && clients.None? ==>
              reply == Form(1, Some(Message("Error verifying account. Please try again.", "error"))) &&
              newSession == session
    ensures var acc := PhpStrings.Trim(accountField);
            !PhpStrings.IsEmpty(acc) && ValidAmount(amount) && clients.Some? && FirstClient(clients.value, acc).None? ==>
              reply == Form(1, Some(Message("Account number not found. Please check and try again.", "error"))) &&
              newSession == session
    ensures reply.Form? && (reply.step == 2 <==>
              var acc := PhpStrings.Trim(accountField);
              !PhpStrings.IsEmpty(acc) && ValidAmount(amount) && clients.Some? && FirstClient(clients.value, acc).Some?)
    ensures reply.step == 2 ==>
              var acc := PhpStrings.Trim(accountField);
              var c := clients.value[FirstClient(clients.value, acc).value];
              reply.message.None? && newSession == Remember(session, c, acc, amount.value)
    ensures reply.step != 2 ==> newSession == session
    ensures SessionShaped(session) ==> SessionShaped(newSession)
  {
    var accountNumber := PhpStrings.Trim(accountField);
    newSession := session;
    if PhpStrings.IsEmpty(accountNumber) {
      reply := Form(1, Some(Message("Account number is required.", "error")));
    } else if !ValidAmount(amount) {
      reply := Form(1, Some(Message("Please enter a valid amount.", "error")));
    } else if clients.None? {
      reply := Form(1, Some(Message("Error verifying account. Please try again.", "error")));
    } else {
      var index := FindClient(clients.value, accountNumber);
      if index.Some? {
        var found := clients.value[index.value];
        newSession := newSession[ClientIdKey := Number(found.id)];
        newSession := newSession[ClientNameKey := Text(DisplayName(found))];
        newSession := newSession[AccountNumberKey := Text(accountNumber)];
        newSession := newSession[AmountKey := Number(amount.value)];
        reply := Form(2, None);
      } else {
        reply := Form(1, Some(Message("Account number not found. Please check and try again.", "error")));
      }
    }
  }

  /**
   * Step 2, `submit_payment`. The reference check comes before the session check,
   * and the duplicate guard after it; each failure leaves the list and the session
   * as they were. Success appends exactly one pending claim at the end, clears the
   * four session keys and redirects.
   */
  method SubmitPayment(referenceField: string, session: Session, payments: seq<Claim>,
                       account: ReceivingAccount, freshId: string, now: Time)
    returns (reply: Reply, newSession: Session, stored: seq<Claim>, saved: bool)
    requires SessionShaped(session)
    ensures var ref := PhpStrings.Trim(referenceField);
            PhpStrings.IsEmpty(ref) ==>
              reply == Form(2, Some(Message("GCash reference number is required.", "error")))
    ensures var ref := PhpStrings.Trim(referenceField);
            !PhpStrings.IsEmpty(ref) && ClientIdKey !in session ==>
              reply == Form(1, Some(Message("Session expired. Please start over.", "error")))
    ensures var ref := PhpStrings.Trim(referenceField);
            !PhpStrings.IsEmpty(ref) && ClientIdKey in session && HasReference(payments, ref) ==>
              reply == Form(2, Some(Message("This reference number has already been submitted.", "error")))
    ensures saved <==>
              var ref := PhpStrings.Trim(referenceField);
              !PhpStrings.IsEmpty(ref) && ClientIdKey in session && !HasReference(payments, ref)
    ensures !saved ==> stored == payments && newSession == session && reply.Form?
    ensures saved ==>
              var ref := PhpStrings.Trim(referenceField);
              reply == Redirect(ref) &&
              stored == payments + [NewClaim(session, ref, account, freshId, now)] &&
              newSession == Forget(session)
    ensures saved ==>
              ClientIdKey !in newSession && ClientNameKey !in newSession &&
              AccountNumberKey !in newSession && AmountKey !in newSession &&
              forall k :: k in session && k !in {ClientIdKey, ClientNameKey, AccountNumberKey, AmountKey} ==>
                            k in newSession && newSession[k] == session[k]
    ensures saved ==> |stored| == |payments| + 1 && stored[..|payments|] == payments &&
                      stored[|payments|].status == Pending &&
                      stored[|payments|].referenceNumber == PhpStrings.Trim(referenceField)
    ensures DistinctReferences(payments) ==> DistinctReferences(stored)
    ensures DistinctIds(payments) && FirstWithId(payments, freshId).None? ==> DistinctIds(stored)
    ensures SessionShaped(newSession)
  {
    var referenceNumber := PhpStrings.Trim(referenceField);
    reply, newSession, stored, saved := Form(1, None), session, payments, false;
    if PhpStrings.IsEmpty(referenceNumber) {
      reply := Form(2, Some(Message("GCash reference number is required.", "error")));
    } else if ClientIdKey !in session {
      reply := Form(1, Some(Message("Session expired. Please start over.", "error")));
    } else {
      var pendingPayment := NewClaim(session, referenceNumber, account, freshId, now);
      var duplicate := IsDuplicate(payments, referenceNumber);
      if duplicate {
        reply := Form(2, Some(Message("This reference number has already been submitted.", "error")));
      } else {
        stored := stored + [pendingPayment];
        saved := true;
        if DistinctReferences(payments) {
          AppendKeepsReferencesDistinct(payments, pendingPayment);
        }
        if DistinctIds(payments) && FirstWithId(payments, freshId).None? {
          AppendKeepsIdsDistinct(payments, pendingPayment);
        }
        newSession := newSession - {ClientIdKey};
        newSession := newSession - {ClientNameKey};
        newSession := newSession - {AccountNumberKey};
        newSession := newSession - {AmountKey};
        reply := Redirect(referenceNumber);
      }
    }
  }

  /**
   * One POST to the public page. Nothing is handled when the billing API client
   * could not be created; an unknown action changes nothing.
   */
  method HandlePublicPost(apiAvailable: bool, action: string, accountField: string, amount: Option<int>,
                          referenceField: string, clients: Option<seq<Client>>, session: Session,
                          payments: seq<Claim>, account: ReceivingAccount, freshId: string, now: Time)
    returns (reply: Reply, newSession: Session, stored: seq<Claim>, saved: bool)
    requires SessionShaped(session)
    ensures !apiAvailable || action !in {"verify_account", "submit_payment"} ==>
              reply == Form(1, None) && newSession == session && stored == payments && !saved
    ensures apiAvailable && action == "verify_account" ==>
              stored == payments && !saved && reply.Form? &&
              var acc := PhpStrings.Trim(accountField);
              var matched := !PhpStrings.IsEmpty(acc) && ValidAmount(amount) && clients.Some? &&
                             FirstClient(clients.value, acc).Some?;
              (reply.step == 2 <==> matched) &&
              (matched ==> newSession == Remember(session, clients.value[FirstClient(clients.value, acc).value],
                                                  acc, amount.value)) &&
              (!matched ==> newSession == session)
    ensures apiAvailable && action == "submit_payment" ==>
              var ref := PhpStrings.Trim(referenceField);
              (saved <==> !PhpStrings.IsEmpty(ref) && ClientIdKey in session && !HasReference(payments, ref)) &&
              (saved ==> reply == Redirect(ref) &&
                         stored == payments + [NewClaim(session, ref, account, freshId, now)] &&
                         newSession == Forget(session)) &&
              (!saved ==> newSession == session)
    ensures saved ==> apiAvailable && action == "submit_payment" &&
                      |stored| == |payments| + 1 && stored[..|payments|] == payments
    ensures !saved ==> stored == payments
    ensures DistinctReferences(payments) ==> DistinctReferences(stored)
    ensures SessionShaped(newSession)
  {
    reply, newSession, stored, saved := Form(1, None), session, payments, false;
    if apiAvailable {
      if action == "verify_account" {
        reply, newSession := VerifyAccount(accountField, amount, clients, session);
      } else if action == "submit_payment" {
        reply, newSession, stored, saved := SubmitPayment(referenceField, session, payments, account, freshId, now);
      }
    }
  }

  /**
   * The replay guard: once a reference has been accepted, submitting it again with
   * any live session is refused as a duplicate and the list stays as it is.
   */
  method ResubmissionRejected(referenceField: string, session: Session, later: Session, payments: seq<Claim>,
                              account: ReceivingAccount, freshId: string, laterId: string, now: Time, laterNow: Time)
    returns (first: Reply, second: Reply, stored: seq<Claim>, stored2: seq<Claim>)
    requires SessionShaped(session) && ClientIdKey in session
    requires SessionShaped(later) && ClientIdKey in later
    requires !PhpStrings.IsEmpty(PhpStrings.Trim(referenceField))
    requires !HasReference(payments, PhpStrings.Trim(referenceField))
    ensures first == Redirect(PhpStrings.Trim(referenceField))
    ensures second == Form(2, Some(Message("This reference number has already been submitted.", "error")))
    ensures |stored| == |payments| + 1 && stored[..|payments|] == payments
    ensures stored2 == stored
  {
    var s1, s2, saved1, saved2;
    first, s1, stored, saved1 := SubmitPayment(referenceField, session, payments, account, freshId, now);
    assert stored[|payments|].referenceNumber == PhpStrings.Trim(referenceField);
    second, s2, stored2, saved2 := SubmitPayment(referenceField, later, stored, account, laterId, laterNow);
  }
}
