/**
 * The admin page's read path (main.php): the status-filtered list shown newest
 * first, the per-status counts and the pending/approved totals. All are derived
 * from the stored list on every request; none is stored.
 */
module Listing {
  import opened Wrappers
  import opened Claims

  /** `array_filter` with the page's filter: "all" keeps everything, any other value keeps that status. */
  function Filtered(ps: seq<Claim>, filter: string): (r: seq<Claim>)
    ensures filter == "all" ==> r == ps
    ensures forall c :: c in r <==> c in ps && (filter == "all" || c.status == filter)
    ensures multiset(r) <= multiset(ps)
    ensures forall c :: multiset(r)[c] == if filter == "all" || c.status == filter then multiset(ps)[c] else 0
  {
    if filter == "all" || ps == [] then ps
    else
      assert ps == [ps[0]] + ps[1..];
      if ps[0].status == filter then [ps[0]] + Filtered(ps[1..], filter) else Filtered(ps[1..], filter)
  }

  /** Creation times never increase along the list. */
  predicate NewestFirst(s: seq<Claim>) {
    forall i, j :: 0 <= i < j < |s| ==> s[i].createdAt >= s[j].createdAt
  }

  /** Places `c` in a newest-first list, before the first claim that is not newer than it. */
  function Insert(c: Claim, s: seq<Claim>): (r: seq<Claim>)
    requires NewestFirst(s)
    ensures NewestFirst(r)
    ensures multiset(r) == multiset(s) + multiset{c}
    ensures |r| == |s| + 1 && (r[0] == c || (s != [] && r[0] == s[0]))
  {
    if s == [] || s[0].createdAt <= c.createdAt then
      var r := [c] + s;
      assert forall j :: 0 < j < |r| ==> r[j] == s[j - 1];
      r
    else
      var tail := s[1..];
      assert NewestFirst(tail) by {
        forall i, j | 0 <= i < j < |tail| ensures tail[i].createdAt >= tail[j].createdAt {
          assert tail[i] == s[i + 1] && tail[j] == s[j + 1];
        }
      }
      var rest := Insert(c, tail);
      assert s == [s[0]] + tail;
      assert rest[0].createdAt <= s[0].createdAt;
      var r := [s[0]] + rest;
      assert forall j :: 0 < j < |r| ==> r[j] == rest[j - 1];
      r
  }

  /** The `usort` by `createdAt`, newest first. */
  function SortNewestFirst(s: seq<Claim>): (r: seq<Claim>)
    ensures NewestFirst(r)
    ensures multiset(r) == multiset(s)
  {
    if s == [] then []
    else
      assert s == [s[0]] + s[1..];
      Insert(s[0], SortNewestFirst(s[1..]))
  }

  /**
   * The table the page shows: the claims selected by `?filter=` (which defaults to
   * "pending"), newest first.
   */
  function View(ps: seq<Claim>, filterParam: Option<string>): (r: seq<Claim>)
    ensures var filter := filterParam.GetOr("pending");
            NewestFirst(r) &&
            multiset(r) == multiset(Filtered(ps, filter)) &&
            (forall c :: c in r <==> c in ps && (filter == "all" || c.status == filter))
  {
    var r := SortNewestFirst(Filtered(ps, filterParam.GetOr("pending")));
    assert forall c :: c in r <==> c in multiset(r);
    r
  }

  /** `count(array_filter(..., status === s))`. */
  function CountStatus(ps: seq<Claim>, status: string): (n: nat)
    ensures n <= |ps|
  {
    if ps == [] then 0
    else (if ps[0].status == status then 1 else 0) + CountStatus(ps[1..], status)
  }

  /** `array_sum` of the amounts of the claims with status `s` (others contribute 0). */
  function TotalFor(ps: seq<Claim>, status: string): int {
    if ps == [] then 0
    else (if ps[0].status == status then ps[0].amount else 0) + TotalFor(ps[1..], status)
  }

  function SumAmounts(ps: seq<Claim>): int {
    if ps == [] then 0 else ps[0].amount + SumAmounts(ps[1..])
  }

  datatype Counts = Counts(pending: nat, approved: nat, rejected: nat, all: nat)

  /** The four badges of the page; `all` is the length of the list. */
  function StatusCounts(ps: seq<Claim>): Counts {
    Counts(CountStatus(ps, Pending), CountStatus(ps, Approved), CountStatus(ps, Rejected), |ps|)
  }

  /** Every stored status is one of the three the workflow writes. */
  predicate KnownStatuses(ps: seq<Claim>) {
    forall i :: 0 <= i < |ps| ==> ps[i].status in {Pending, Approved, Rejected}
  }

  /** A status count is the length of the list filtered by that status. */
  lemma {:induction false} CountIsFilteredLength(ps: seq<Claim>, status: string)
    requires status != "all"
    ensures CountStatus(ps, status) == |Filtered(ps, status)|
  {
    if ps != [] {
      CountIsFilteredLength(ps[1..], status);
    }
  }

  /** A status total is the sum of the amounts of the list filtered by that status. */
  lemma {:induction false} TotalIsFilteredSum(ps: seq<Claim>, status: string)
    requires status != "all"
    ensures TotalFor(ps, status) == SumAmounts(Filtered(ps, status))
  {
    if ps != [] {
      TotalIsFilteredSum(ps[1..], status);
    }
  }

  /** When every status is a known one, the three status counts add up to `all`. */
  lemma {:induction false} CountsSumToAll(ps: seq<Claim>)
    requires KnownStatuses(ps)
    ensures var k := StatusCounts(ps); k.pending + k.approved + k.rejected == k.all
  {
    if ps != [] {
      assert KnownStatuses(ps[1..]) by {
        forall i | 0 <= i < |ps[1..]| ensures ps[1..][i].status in {Pending, Approved, Rejected} {
          assert ps[1..][i] == ps[i + 1];
        }
      }
      CountsSumToAll(ps[1..]);
    }
  }

  /** Replacing one claim moves its contribution from its old status to its new one. */
  lemma {:induction false} ReplaceOne(ps: seq<Claim>, i: nat, c: Claim, status: string)
    requires i < |ps|
    ensures CountStatus(ps[i := c], status) ==
            CountStatus(ps, status) - (if ps[i].status == status then 1 else 0) + (if c.status == status then 1 else 0)
    ensures TotalFor(ps[i := c], status) ==
            TotalFor(ps, status) - (if ps[i].status == status then ps[i].amount else 0) +
            (if c.status == status then c.amount else 0)
  {
    if i > 0 {
      assert ps[i := c][1..] == ps[1..][i - 1 := c];
      ReplaceOne(ps[1..], i - 1, c, status);
    }
  }

  /** Removing one claim removes its contribution. */
  lemma {:induction false} RemoveOne(ps: seq<Claim>, i: nat, status: string)
    requires i < |ps|
    ensures CountStatus(ps[..i] + ps[i + 1..], status) == CountStatus(ps, status) - (if ps[i].status == status then 1 else 0)
    ensures TotalFor(ps[..i] + ps[i + 1..], status) == TotalFor(ps, status) - (if ps[i].status == status then ps[i].amount else 0)
  {
    if i == 0 {
      assert ps[..0] + ps[1..] == ps[1..];
    } else {
      assert (ps[..i] + ps[i + 1..])[1..] == ps[1..][..i - 1] + ps[1..][i..];
      RemoveOne(ps[1..], i - 1, status);
    }
  }

  /** Appending one claim adds its contribution. */
  lemma {:induction false} AppendOne(ps: seq<Claim>, c: Claim, status: string)
    ensures CountStatus(ps + [c], status) == CountStatus(ps, status) + (if c.status == status then 1 else 0)
    ensures TotalFor(ps + [c], status) == TotalFor(ps, status) + (if c.status == status then c.amount else 0)
  {
    if ps != [] {
      assert (ps + [c])[1..] == ps[1..] + [c];
      AppendOne(ps[1..], c, status);
    }
  }
}

/** How each review action moves the page's counts and totals. */
module ListingProperties {
  import opened Claims
  import opened Review
  import opened Listing
  import PhpStrings

  /** A successful approval moves one claim, and its amount, from pending to approved. */
  lemma ApproveMovesCounts(ps: seq<Claim>, id: string, reply: ApiReply, now: Time, actor: string)
    requires Approvable(ps, id) && reply.Replied? && reply.id.Some?
    ensures var i := FirstWithId(ps, id).value;
            var before, after := StatusCounts(ps), StatusCounts(AfterApprove(ps, id, reply, now, actor));
            after.pending + 1 == before.pending && after.approved == before.approved + 1 &&
            after.rejected == before.rejected && after.all == before.all &&
            TotalFor(AfterApprove(ps, id, reply, now, actor), Pending) == TotalFor(ps, Pending) - ps[i].amount &&
            TotalFor(AfterApprove(ps, id, reply, now, actor), Approved) == TotalFor(ps, Approved) + ps[i].amount
  {
    var i := FirstWithId(ps, id).value;
    var c := ApprovedClaim(ps[i], reply.id.value, now, actor);
    ReplaceOne(ps, i, c, Pending);
    ReplaceOne(ps, i, c, Approved);
    ReplaceOne(ps, i, c, Rejected);
  }

  /** A successful rejection moves one claim from pending to rejected. */
  lemma RejectMovesCounts(ps: seq<Claim>, id: string, now: Time, actor: string)
    requires !PhpStrings.IsEmpty(id) && FirstPendingWithId(ps, id).Some?
    ensures var i := FirstPendingWithId(ps, id).value;
            var before, after := StatusCounts(ps), StatusCounts(AfterReject(ps, id, now, actor));
            after.pending + 1 == before.pending && after.rejected == before.rejected + 1 &&
            after.approved == before.approved && after.all == before.all &&
            TotalFor(AfterReject(ps, id, now, actor), Pending) == TotalFor(ps, Pending) - ps[i].amount &&
            TotalFor(AfterReject(ps, id, now, actor), Approved) == TotalFor(ps, Approved)
  {
    var i := FirstPendingWithId(ps, id).value;
    var c := RejectedClaim(ps[i], now, actor);
    ReplaceOne(ps, i, c, Pending);
    ReplaceOne(ps, i, c, Approved);
    ReplaceOne(ps, i, c, Rejected);
  }

  /** A delete drops `all` by one and the deleted claim's own status count by one. */
  lemma DeleteMovesCounts(ps: seq<Claim>, id: string, status: string)
    requires !PhpStrings.IsEmpty(id) && FirstWithId(ps, id).Some?
    ensures var i := FirstWithId(ps, id).value;
            |AfterDelete(ps, id)| == |ps| - 1 &&
            CountStatus(AfterDelete(ps, id), status) == CountStatus(ps, status) - (if ps[i].status == status then 1 else 0) &&
            TotalFor(AfterDelete(ps, id), status) == TotalFor(ps, status) - (if ps[i].status == status then ps[i].amount else 0)
  {
    RemoveOne(ps, FirstWithId(ps, id).value, status);
  }
}

/** How an accepted submission moves the page's counts and totals. */
module SubmissionTallies {
  import opened Claims
  import opened Listing
  import opened Submission

  /** An accepted submission adds one pending claim and its amount to the pending total. */
  lemma SubmitMovesCounts(payments: seq<Claim>, session: Session, reference: string,
                          account: ReceivingAccount, id: string, now: Time)
    requires SessionShaped(session) && ClientIdKey in session
    ensures var stored := payments + [NewClaim(session, reference, account, id, now)];
            var before, after := StatusCounts(payments), StatusCounts(stored);
            after.pending == before.pending + 1 && after.approved == before.approved &&
            after.rejected == before.rejected && after.all == before.all + 1 &&
            TotalFor(stored, Pending) == TotalFor(payments, Pending) + session[AmountKey].n &&
            TotalFor(stored, Approved) == TotalFor(payments, Approved)
  {
    var c := NewClaim(session, reference, account, id, now);
    AppendOne(payments, c, Pending);
    AppendOne(payments, c, Approved);
    AppendOne(payments, c, Rejected);
  }
}
