# GCash payment claims for UISP — a Dafny model

The plugin lets a customer of a UISP billing installation claim a GCash payment
through a public two-step form. An administrator then reviews each claim on an
admin page. There they approve it, which posts a payment to the UISP API, or they
reject or delete it. Every claim lives in one JSON file that holds the claim list
in insertion order. Each request loads the whole list, changes it and writes the
whole list back.

This project models that claim list and its lifecycle:

- `wrappers.dfy` (`Wrappers`): `Option`, standing for PHP's `null`, a missing key and `??`.
- `php_strings.dfy` (`PhpStrings`): the PHP string built-ins the handlers depend on,
  written out with their edge cases:
  - `empty()` is true for `"0"` as well as for `""`;
  - `trim()` uses its default character set;
  - `strcasecmp` lower-cases ASCII letters only;
  - the UUID regular expression is written as the code has it.
- `claims.dfy` (`Claims`): the stored claim record, the first-match searches used by
  the admin actions, and the uniqueness predicates on ids and reference numbers.
- `review.dfy` (`Review`, `ReviewProperties`): from `main.php`, the `approve`, `reject` and
  `delete` POST handlers, the payment-method resolution and the access check. Beside
  them are lemmas on what the actions preserve.
- `listing.dfy` (`Listing`, `ListingProperties`, `SubmissionTallies`): from `main.php`, the
  read path (status filter, newest-first sort, counts and totals). It also holds lemmas
  on how each action moves the counts and totals.
- `submission.dfy` (`Submission`): from `public.php`, step 1 (`verify_account`), step 2
  (`submit_payment`) and the POST dispatch.

PHP arrays are values, so each handler is a method. It takes the list as loaded from
the file and returns the list the file holds afterwards. A `saved` flag says whether
the handler wrote the file. `$_SESSION` is a `map<string, SessionValue>`, passed in
and returned. The handlers keep the source's loops (`foreach` with `break`, a flag
loop, and field-by-field writes into the found record) as `while` loops with
invariants. Their contracts state the result outright: which record changes, how it
changes, and that nothing else changes. They also tie it to the specification
functions `AfterApprove`, `AfterReject` and `AfterDelete`, which the lemmas use.

Behaviour of the code worth knowing, modelled as written:

- Because of `empty()` and PHP truthiness, an account number, reference number or
  payment id equal to `"0"` is treated as missing.
- Approve takes the first claim with the id and then checks that it is pending.
  Reject takes the first claim that has the id and is pending. With duplicate ids
  these can be different claims; with distinct ids they are the same
  (`Claims.UniqueIdsPickSameClaim`).
- The UUID pattern has no `D` modifier, so `$` also matches before one final newline.
  A setting of a UUID followed by `"\n"` is therefore used directly as the method id,
  newline included.
- The list shown defaults to the `pending` filter when `?filter=` is absent.

## Model

| member | source | states |
|---|---|---|
| PhpStrings.LeadingTrimCount | public.php:58-59 | counts the trim characters the string starts with: all of them are trim characters and the next one is not |
| PhpStrings.TrailingTrimCount | public.php:58-59 | counts the trim characters the string ends with: all of them are trim characters and the one before is not |
| PhpStrings.TrimIsSlice | public.php:58-59 | `trim` returns a middle slice of the input; everything cut from either end is a trim character; the result neither starts nor ends with one |
| PhpStrings.LowerAscii | main.php:73 | the result is never an upper-case ASCII letter; it is a lower-case letter exactly when the input is a letter of either case; it is the input or the input shifted by the ASCII case distance; any character other than 'A'..'Z' is returned unchanged |
| PhpStrings.Lower | main.php:73 | same length, each character lower-cased by `LowerAscii` |
| PhpStrings.EqualsIgnoreCaseIsLowerEquality | main.php:73 | `strcasecmp(a, b) === 0` holds exactly when the lower-cased strings are equal |
| Claims.FirstWithId | main.php:43-49 | the index of the first claim with the id; no earlier claim has it; `None` exactly when no claim has it |
| Claims.FirstPendingWithId | main.php:108-109 | the index of the first claim that has the id and is pending; `None` exactly when there is none |
| Claims.UniqueIdsPickSameClaim | main.php:43-51 | with distinct ids, reject's target (line 109) is approve's target when that claim is pending, and there is none otherwise |
| Claims.AppendKeepsReferencesDistinct | public.php:129-143 | appending a claim whose reference is not stored yet keeps reference numbers pairwise distinct |
| Claims.AppendKeepsIdsDistinct | public.php:108-143 | appending a claim under an id not stored yet keeps ids pairwise distinct |
| Review.MethodByName | main.php:69-77 | `None` exactly when no method name matches case-insensitively; otherwise the id of the first matching method |
| Review.FindById | main.php:41-49 | the search loop returns the first index with the id, or `None` when no claim has it |
| Review.ResolveMethodId | main.php:62-82 | no method id for an absent or empty setting; the setting itself when it is UUID-shaped; otherwise the id of the first method whose name matches ignoring case, and none when nothing matches or the list could not be fetched |
| Review.Approve | main.php:39-105 | a request is built exactly when the id is non-empty and its first claim is pending. The request has that claim's client and amount, the note "GCash Payment - Ref: " + reference, automatic invoice application, the admin's user id and the resolved method. The list is saved exactly when the API answer carries an id, and then only that claim becomes approved with the UISP id, time and admin name, at the same length. Otherwise the list is unchanged. The message follows each branch |
| Review.Reject | main.php:106-120 | saved exactly when some claim has the id and is pending; then only the first such claim becomes rejected with time and admin name; otherwise unchanged |
| Review.Delete | main.php:121-133 | saved exactly when some claim has the id; then the first such claim is removed, the others keep their order and the length drops by one; otherwise unchanged |
| Review.HandleAdminRequest | main.php:11-134 | without a logged-in admin, nothing runs; a GET or an unknown action changes nothing; otherwise the list becomes the named action's result |
| Review.AfterApprove | main.php:86-93 | length, ids and reference numbers stay; claims that are not pending stay as they are; at most one claim changes, and it becomes approved |
| Review.AfterReject | main.php:108-114 | length, ids and reference numbers stay; claims that are not pending stay as they are; at most one claim changes, and it becomes rejected |
| Review.AfterDelete | main.php:123-127 | unchanged, or one claim with the id removed with the rest in their order |
| ReviewProperties.DeleteIdempotent | main.php:121-133 | with distinct ids, deleting the same id twice gives the same list as deleting it once |
| ReviewProperties.ApproveKeepsDistinct | main.php:88-91 | approving keeps ids and reference numbers pairwise distinct |
| ReviewProperties.RejectKeepsDistinct | main.php:110-112 | rejecting keeps ids and reference numbers pairwise distinct |
| ReviewProperties.DeleteKeepsDistinct | main.php:125-126 | deleting keeps ids and reference numbers pairwise distinct |
| Listing.Filtered | main.php:143-147 | filter "all" keeps every claim; any other filter keeps exactly the claims with that status, every copy of them, and drops every other claim |
| Listing.Insert | main.php:150-152 | inserting into a newest-first list gives a newest-first list with one more copy of the claim |
| Listing.SortNewestFirst | main.php:150-152 | the result is ordered by `createdAt` descending and is a permutation of the input |
| Listing.View | main.php:142-152 | the shown table is newest first, a permutation of the filtered claims, and holds exactly the claims the filter selects ("pending" when no filter is given) |
| Listing.CountStatus | main.php:155-158 | only a bound: a status count never exceeds the list length; its exact value is stated by `Listing.CountIsFilteredLength` |
| Listing.CountIsFilteredLength | main.php:155-158 | each status count is the number of claims with that status |
| Listing.TotalIsFilteredSum | main.php:163-164 | each total is the sum of the amounts of the claims with that status |
| Listing.CountsSumToAll | main.php:155-160 | when every status is pending, approved or rejected, the three counts add up to `all` |
| Listing.ReplaceOne | main.php:155-164 | replacing one claim moves its count and amount from its old status to its new one |
| Listing.RemoveOne | main.php:155-164 | removing one claim takes its count and amount away from its status |
| Listing.AppendOne | main.php:155-164 | appending one claim adds its count and amount to its status |
| ListingProperties.ApproveMovesCounts | main.php:88-91 | a successful approval moves one claim and its amount from pending to approved; rejected and `all` stay |
| ListingProperties.RejectMovesCounts | main.php:110-112 | a successful rejection moves one claim from pending to rejected and its amount out of the pending total |
| ListingProperties.DeleteMovesCounts | main.php:125-126 | a delete drops `all` by one and the deleted claim's status count and total by that claim |
| SubmissionTallies.SubmitMovesCounts | public.php:143 | an accepted submission adds one pending claim and the session amount to the pending total |
| Submission.FirstClient | public.php:73-78 | the index of the first client whose set `userIdent` equals the account number exactly; `None` exactly when there is none |
| Submission.FindClient | public.php:71-78 | the search loop returns that first matching client, or `None` |
| Submission.IsDuplicate | public.php:129-135 | true exactly when some stored claim, whatever its status, has the reference |
| Submission.VerifyAccount | public.php:57-94 | an empty trimmed account number, then an invalid amount, then a failed lookup, then no matching client: each gives its own error at step 1 and leaves the session untouched. A match moves to step 2 and stores the client's id, its trimmed "first last" name, the trimmed account number and the amount |
| Submission.SubmitPayment | public.php:95-160 | an empty trimmed reference fails at step 2 before the session is looked at; a missing session reports "Session expired" at step 1; a reference already stored fails at step 2. In these cases the list and session are unchanged. Otherwise exactly one pending claim built from the session is appended at the end, the four session keys are removed with other keys kept, and the page redirects. Distinct references stay distinct |
| Submission.HandlePublicPost | public.php:54-163 | nothing is handled without the API client or for an unknown action. `verify_account` never writes the list; it moves to step 2 exactly when step 1 finds a client, and then the session holds that client, the trimmed account number and the amount; otherwise the session is unchanged. `submit_payment` saves exactly when the trimmed reference is non-empty, the session is live and the reference is new; then the new pending claim is appended, the session keys are cleared and the page redirects. Distinct references stay distinct |
| Submission.ResubmissionRejected | public.php:129-143 | once a reference is accepted, submitting it again with any live session is refused as a duplicate and the list stays as the first submission left it |

## Left out

- The billing platform's SDK (`UcrmSecurity`, `UcrmApi`, `PluginConfigManager`) is foreign code. Its answers are parameters: the admin (or its absence), the client list and the method list (`None` when the call threw), the payment-creation answer, whether the API client exists, and the configured receiving account.
- File and JSON I/O (`file_get_contents`, `json_decode`, `json_encode`, `file_put_contents`, `mkdir`): the handlers take the decoded list and return the list the file holds. The reload after an action is taken to read back what was written. An unreadable file decoding to `[]` is not modelled.
- `date()`, `strtotime` and `uniqid` are parameters: a `Time` in seconds and a supplied id. Date formatting and parsing are not modelled, and `uniqid` is not assumed unique. `SubmitPayment` keeps ids distinct only when the supplied id is new.
- Money is integer centavos. `is_numeric` and `floatval` are not modelled: the step-1 amount reaches the model already read as `Option<int>` (`None` for an empty or non-numeric field). The `(int)` and `(float)` casts in the request are identities.
- Submission.SubmitPayment and Submission.HandlePublicPost: require that the session is shaped as step 1 writes it. If `gcash_client_id` is present, the other three keys are present with their types. Only `VerifyAccount` writes these keys, always all four, and `SubmitPayment` removes all four together. A session holding the id without the other keys, which PHP would read as nulls, is not modelled.
- Listing.SortNewestFirst: proves order and permutation but not the stability of PHP 8's `usort` among claims with equal `createdAt`.
- The session lifetime and cookie settings (public.php:5-8), the redirect and `exit` (public.php:157-159), and the success banner of the redirected GET (public.php:47-51) are runtime behaviour or presentation.
- The messages "Configuration error" and "System temporarily unavailable" are presentation. Their effects are modelled: an empty receiving account, and no POST handling.
- HTML, CSS, the client-side reference formatter and the step-2 session restore for display (public.php:165-170) are presentation only.
- Concurrency: two overlapping requests race on the file and the last write wins. Each request is modelled alone.
- The day-of-month receiving-account selector is not in main.php or public.php, which read a single `gcashNumber`/`gcashName`, so it is not modelled.
