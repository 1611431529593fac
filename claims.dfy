/**
 * The payment-claim record kept in the plugin's pending-payments file, and the
 * record-list facts both the public submission page and the admin page rely on.
 * The file holds the list in insertion order; each request loads all of it,
 * changes it and writes all of it back.
 */
module Claims {
  import opened Wrappers

  /** A point in time in seconds, as `strtotime` reads back a stored `date('Y-m-d H:i:s')`. */
  type Time = int

  const Pending := "pending"
  const Approved := "approved"
  const Rejected := "rejected"

  /**
   * One stored claim. `status` is the string kept in the file; amounts are in
   * centavos. The optional fields are the keys the review actions add.
   */
  datatype Claim = Claim(
    id: string,
    clientId: int,
    clientName: string,
    accountNumber: string,
    amount: int,
    referenceNumber: string,
    status: string,
    createdAt: Time,
    gcashNumber: string,
    gcashName: string,
    uispPaymentId: Option<string>,
    approvedAt: Option<Time>,
    approvedBy: Option<string>,
    rejectedAt: Option<Time>,
    rejectedBy: Option<string>)

  /** The position of the first claim whose id is `id`, as a `foreach` with `break` finds it. */
  function FirstWithId(ps: seq<Claim>, id: string): (r: Option<nat>)
    ensures r.Some? ==> r.value < |ps| && ps[r.value].id == id
    ensures r.Some? ==> forall j :: 0 <= j < r.value ==> ps[j].id != id
    ensures r.None? <==> forall j :: 0 <= j < |ps| ==> ps[j].id != id
  {
    if ps == [] then None
    else if ps[0].id == id then Some(0)
    else match FirstWithId(ps[1..], id)
      case None => None
      case Some(k) => Some(k + 1)
  }

  /** The position of the first claim that has id `id` and is still pending. */
  function FirstPendingWithId(ps: seq<Claim>, id: string): (r: Option<nat>)
    ensures r.Some? ==> r.value < |ps| && ps[r.value].id == id && ps[r.value].status == Pending
    ensures r.Some? ==> forall j :: 0 <= j < r.value ==> !(ps[j].id == id && ps[j].status == Pending)
    ensures r.None? <==> forall j :: 0 <= j < |ps| ==> !(ps[j].id == id && ps[j].status == Pending)
  {
    if ps == [] then None
    else if ps[0].id == id && ps[0].status == Pending then Some(0)
    else match FirstPendingWithId(ps[1..], id)
      case None => None
      case Some(k) => Some(k + 1)
  }

  /** No two stored claims share an id. */
  predicate DistinctIds(ps: seq<Claim>) {
    forall i, j :: 0 <= i < j < |ps| ==> ps[i].id != ps[j].id
  }

  /** No two stored claims share a reference number, whatever their status. */
  predicate DistinctReferences(ps: seq<Claim>) {
    forall i, j :: 0 <= i < j < |ps| ==> ps[i].referenceNumber != ps[j].referenceNumber
  }

  /** Some stored claim, whatever its status, already carries reference `ref`. */
  predicate HasReference(ps: seq<Claim>, ref: string) {
    exists i :: 0 <= i < |ps| && ps[i].referenceNumber == ref
  }

  /**
   * With distinct ids, the claim the reject action picks (first pending one with
   * the id) is the claim the approve action picks (first one with the id), when
   * that one is pending; when it is not, reject finds nothing either.
   */
  lemma {:induction false} UniqueIdsPickSameClaim(ps: seq<Claim>, id: string)
    requires DistinctIds(ps)
    ensures FirstPendingWithId(ps, id) ==
            match FirstWithId(ps, id)
            case Some(i) => if ps[i].status == Pending then Some(i) else None
            case None => None
  {
    match FirstWithId(ps, id)
    case None =>
    case Some(i) =>
      if ps[i].status != Pending {
        forall j | 0 <= j < |ps| && ps[j].id == id ensures j == i {
        }
      }
  }

  /** Appending a claim whose reference is not stored yet keeps references distinct. */
  lemma AppendKeepsReferencesDistinct(ps: seq<Claim>, c: Claim)
    requires DistinctReferences(ps)
    requires !HasReference(ps, c.referenceNumber)
    ensures DistinctReferences(ps + [c])
  {
    var qs := ps + [c];
    forall i, j | 0 <= i < j < |qs| ensures qs[i].referenceNumber != qs[j].referenceNumber {
      if j == |ps| {
        assert qs[i] == ps[i];
      } else {
        assert qs[i] == ps[i] && qs[j] == ps[j];
      }
    }
  }

  /** Appending a claim under a fresh id keeps ids distinct. */
  lemma AppendKeepsIdsDistinct(ps: seq<Claim>, c: Claim)
    requires DistinctIds(ps)
    requires FirstWithId(ps, c.id).None?
    ensures DistinctIds(ps + [c])
  {
    var qs := ps + [c];
    forall i, j | 0 <= i < j < |qs| ensures qs[i].id != qs[j].id {
      if j == |ps| {
        assert qs[i] == ps[i];
      } else {
        assert qs[i] == ps[i] && qs[j] == ps[j];
      }
    }
  }
}
