# v2ray_agent in Dafny

A model of the node agent `v2ray_agent.py`, with proofs. The agent runs two periodic jobs beside a V2Ray proxy:

- **User reconciliation** (`get_v2ray_users`, `loop_check_users`). It fetches the desired users from the panel's user directory and reads the ids in the proxy's `config.json`. It strikes each desired id off the live list, adds every unmatched desired user on the running proxy, and removes every leftover live id. Each change is mirrored into the in-memory config document: `inbounds` → `tag` → `settings.clients`. The document is written back only when a client was actually appended or popped.
- **Traffic accounting** (`loop_update_traffic`). It turns one destructive counter read into a record: node counters from the inbound with the agent's tag, plus per-user counters. It adds in the record left from a failed submission (`LAST_TRAFFIC_RECORD`) and posts the result. Then it empties or refills that one-record slot, depending on the reply.

Everything outside the agent becomes a model input:

| source | model input |
|---|---|
| fetch of desired users | a `UsersResponse` (status and parsed `users`) |
| the two reads of `config.json` (lines 43 and 67) | two `Option<Config>` values; `None` means unreadable |
| proxy replies to `add_user` / `remove_user` | functions from the call's position in the cycle to a reply: success, `EmailExistsError`/`EmailNotFoundError`, or any other exception |
| counter read | a `RawTraffic` value |
| outcome of the post | a `SubmitResult`: an HTTP status or a transport exception |

Modules:

- `Wrappers`: `Option`.
- `Seqs`: the Python list operations the agent uses: the first occurrence, `list.remove`, `list.pop(i)`.
- `V2rayConfig`: the config document, the live-id read and the append/pop on the first inbound with a tag.
- `Directory`: the desired users and the fetch.
- `Reconcile`: the reconciliation cycle.
- `Traffic`: the traffic cycle and the pending slot, a field of the class `TrafficAccountant`.

The loops of the source are Dafny methods with loop invariants: `GetV2rayUsers`, `AppendToInbound`, `PopFromInbound`, `AddPhase`, `RemovePhase`, `SelectNode` and `MergePending`. The straight-line code around them is methods that call them: `AddOne`, `RemoveOne`, `CheckUsersCycle` and `TrafficAccountant.UpdateTraffic`. Each method is proved equal to a specification function, and the lemmas are stated about those functions.

The behaviour the agent is meant to have differs from the code in a few places; the model follows the code:

- An unreadable config is harmless only at the first read: `get_v2ray_users` returns `[]` when reading fails. The second read (line 67) has no handler, so the cycle then ends before any proxy call (`ConfigUnreadable`). It does not go on with an empty live set.
- `if LAST_TRAFFIC_RECORD:` tests truthiness. A stored record always has its `users` and `node` keys, so the test is the same as "a record is pending".
- A failed submission is meant to be kept for a retry and never dropped, and the merge is meant to take the union of the users of both records. Three cases under "Findings" break that. The reconciliation cycle also removes nobody when the directory returns no users (also under "Findings").

The operational methods (`CheckUsersCycle`, `TrafficAccountant.UpdateTraffic`) do what the code does. Beside each as-written function there is a corrected one (`CheckUsersIntended`, `IntendedStep`/`RunIntended`). Convergence and retention are proved about the corrected functions. The lemmas named `...AsWritten`, `Rejected...` and the idempotence lemma are proved about the code as written.

## Model

| member | source | states |
|---|---|---|
| Seqs.IndexOf | v2ray_agent.py:109-111 | None exactly when `x` does not occur; otherwise a position holding `x` with no `x` before it (the first match the `enumerate` loop stops at) |
| Seqs.RemoveFirst | v2ray_agent.py:71-72 | `list.remove` after an `in` test: without an `x` nothing changes, with one the list is one shorter |
| Seqs.RemoveFirstMultiset | v2ray_agent.py:71-72 | `list.remove(x)` takes exactly one `x` out of the multiset of elements, if there is one |
| Seqs.RemoveFirstAtIndex | v2ray_agent.py:72 | removing `x` takes out the element at the first position holding `x`; the others keep their order |
| Seqs.RemoveFirstAt | v2ray_agent.py:109-111 | the client popped by the index loop is the one `list.remove` would take: the first occurrence |
| Seqs.RemoveAt | v2ray_agent.py:111 | `list.pop(i)`: the list without its element at `i`, the others in order (no contract; used by `V2rayConfig.RemoveClient` and `Seqs.RemoveFirstAtIndex`) |
| V2rayConfig.LiveIds | v2ray_agent.py:40-53 | ids of the clients of the first inbound carrying the tag; empty when the read failed or no inbound matches |
| V2rayConfig.GetV2rayUsers | v2ray_agent.py:40-53 | the accumulation loop returns exactly `LiveIds` of the read, including the failed-read path |
| V2rayConfig.AppendClient | v2ray_agent.py:86-96 | the client goes at the end of the first inbound with the tag; tags and every other inbound unchanged; change reported exactly when that inbound exists; live ids gain the new id at the end |
| V2rayConfig.AppendToInbound | v2ray_agent.py:86-96 | the inbound loop with `break` computes `AppendClient` |
| V2rayConfig.RemoveClient | v2ray_agent.py:107-115 | change reported exactly when the id is live; only the first client with that id in the first matching inbound is popped, order kept, other inbounds unchanged; on ids it is `list.remove` |
| V2rayConfig.PopFromInbound | v2ray_agent.py:107-115 | the two nested loops with `break` compute `RemoveClient` |
| Directory.GetEnableUsers | v2ray_agent.py:24-37 | users are returned exactly for a 200 reply with a readable `users` body; every other reply raises |
| Reconcile.ClientOf | v2ray_agent.py:88-93 | the client entry appended for a user: `id` and `email` are the user id, plus level and alterId (no contract) |
| Reconcile.Split | v2ray_agent.py:70-73 | the desired-user loop on ids: a matched id strikes off its first live occurrence, an unmatched user is an addition; returns the additions in order and the leftover list (no contract; its meaning is `SplitAddsAreDesired`, `SplitAddCounts`, `SplitLeftoverCounts`, `SplitDistinct`) |
| Reconcile.AddStep | v2ray_agent.py:74-96 | one addition after the proxy's reply: no change on an outright failure, otherwise `AppendClient` with the flag or-ed in (no contract; see `ApplyAddsEffect`) |
| Reconcile.ApplyAdds | v2ray_agent.py:70-96 | the additions in order, the k-th add call getting the k-th reply (no contract; see `ApplyAddsEffect`, `AddPhaseLiveIds`, `ApplyAddsQuiet`) |
| Reconcile.RemoveStep | v2ray_agent.py:98-115 | one removal after the proxy's reply: no change on an outright failure, otherwise `RemoveClient` with the flag or-ed in (no contract; see `ApplyRemovesCounts`) |
| Reconcile.ApplyRemoves | v2ray_agent.py:97-115 | the removals in order, the j-th remove call getting the j-th reply (no contract; see `ApplyRemovesCounts`, `ApplyRemovesFlag`, `ApplyRemovesFrame`) |
| Reconcile.Phases | v2ray_agent.py:69-118 | both loops over one document and the write-back when the flag is set: the add calls then the remove calls, and the document iff it changed (no contract) |
| Reconcile.CheckUsers | v2ray_agent.py:56-118 | the cycle as written: `FetchFailed` when the fetch raised, `ConfigUnreadable` when line 67 fails, otherwise both phases, with no removals when the directory returned no users (no contract; see `AsWrittenAgrees`, `AttemptsEveryDifference`, `InSyncIsNoOp`, `SecondRunIsNoOp`) |
| Reconcile.CheckUsersIntended | v2ray_agent.py:56-118 | the corrected cycle: every leftover id is removed, an empty directory included (no contract; see `Converges`, `IntendedRemovesEveryLeftover`) |
| Reconcile.SplitAddsAreDesired | v2ray_agent.py:70-80 | the additions are desired users themselves, level and alterId included, each at most as often as it is desired |
| Reconcile.SplitAddCounts | v2ray_agent.py:70-73 | the additions are the desired ids minus the live ids, counted with multiplicity |
| Reconcile.SplitLeftoverCounts | v2ray_agent.py:70-73 | the leftover list is the live ids minus the desired ids, counted with multiplicity |
| Reconcile.SplitCounts | v2ray_agent.py:70-73 | both differences at once |
| Reconcile.SplitDistinct | v2ray_agent.py:70-73 | with no repeated ids, an id is added exactly when desired and not live, and removed exactly when live and not desired |
| Reconcile.ApplyAddsEffect | v2ray_agent.py:74-96 | the add phase appends, in order, the clients of the additions whose call did not fail outright (an `EmailExistsError` still appends) to the first matching inbound, leaves the other inbounds alone, and sets the flag exactly when it appended; no change without a matching inbound |
| Reconcile.AddPhaseLiveIds | v2ray_agent.py:86-96 | when the document has an inbound with the tag, the add phase appends the ids of the accepted additions to its live ids, in order |
| Reconcile.ApplyAddsQuiet | v2ray_agent.py:69-96 | an add phase that leaves `config_changed` unset has changed nothing |
| Reconcile.ApplyRemovesFrame | v2ray_agent.py:107-115 | the remove phase keeps the tags, touches only the first matching inbound, and changes nothing without one |
| Reconcile.ApplyRemovesCounts | v2ray_agent.py:97-115 | the remove phase takes one occurrence of each removal whose call did not fail outright (an `EmailNotFoundError` still pops) out of the live ids |
| Reconcile.ApplyRemovesFlag | v2ray_agent.py:107-115 | the flag is set exactly when a client was popped, and when none was the document is unchanged |
| Reconcile.ApplyRemovesQuiet | v2ray_agent.py:97-115 | a remove phase that leaves `config_changed` unset has changed nothing |
| Reconcile.CallIdsAdded | v2ray_agent.py:74-80 | the add calls of a cycle are for the additions, in order |
| Reconcile.CallIdsRemoved | v2ray_agent.py:98-101 | the remove calls of a cycle are for the removals, in order |
| Reconcile.AsWrittenAgrees | v2ray_agent.py:97-106 | with an empty directory and a readable config the cycle as written calls nothing and writes nothing; in every other case it is the corrected cycle |
| Reconcile.AttemptsEveryDifference | v2ray_agent.py:69-115 | whatever the proxy replies, the cycle adds exactly desired minus live and removes exactly live minus desired (nobody when the directory is empty): the same calls as when every call fails |
| Reconcile.IntendedRemovesEveryLeftover | v2ray_agent.py:97-115 | the corrected cycle removes exactly live minus desired, an empty directory included |
| Reconcile.InSyncIsNoOp | v2ray_agent.py:69-118 | if the desired ids are the live ids in any order, the cycle makes no call and writes nothing |
| Reconcile.Converges | v2ray_agent.py:69-118 | corrected cycle, live ids read from the edited document, a matching inbound, and no call failing outright: the document on disk afterwards holds exactly the desired ids |
| Reconcile.ConvergesAsWritten | v2ray_agent.py:69-118 | the same for the cycle as written, whenever the directory returned at least one user |
| Reconcile.SecondRunIsNoOp | v2ray_agent.py:56-118 | when the first cycle read its live ids from the same document it edits, that document has an inbound with the tag, and no call of the first cycle failed outright: a second cycle with the same desired users on the document the first left makes no call and writes nothing |
| Reconcile.EmptyDirectoryRemovesNobody | v2ray_agent.py:97-106 | an empty directory and one live user: as written nothing is called or written; the corrected cycle removes and pops the user |
| Reconcile.ReconcileExample | v2ray_agent.py:69-118 | desired u1, u2 against live u2, u3 with a proxy accepting every call: add u1, remove u3, and the document written with clients u2 then u1 |
| Reconcile.AddOne | v2ray_agent.py:74-96 | one addition after the proxy's reply: an `EmailExistsError` falls through to the append, any other error skips it |
| Reconcile.RemoveOne | v2ray_agent.py:99-115 | one removal after the proxy's reply: an `EmailNotFoundError` falls through to the pop, any other error skips it |
| Reconcile.AddPhase | v2ray_agent.py:69-96 | the desired-user loop leaves the leftover list of `Split` and the document and flag of the add phase, and makes the add calls of the additions |
| Reconcile.RemovePhase | v2ray_agent.py:97-115 | the leftover loop computes the remove phase and its calls; when `user` is unbound no call is made and nothing changes |
| Reconcile.CheckUsersCycle | v2ray_agent.py:56-118 | the method computes the cycle as written; a failed fetch makes no call and no write; a completed cycle implies the config was readable |
| Traffic.NodeCounters | v2ray_agent.py:129-135 | the node counters of a read: the inbound entry for the tag with a missing key as 0, zeros without such an entry (no contract; see `SelectNode`) |
| Traffic.MergeAsWritten | v2ray_agent.py:136-143 | the merge as written: with nothing pending the read itself; otherwise node counters added and each of the read's users added to its pending entry, `None` (the `KeyError`) when the pending record lacks one (no contract; see `ReportStep`, `MergePending`) |
| Traffic.ReportStep | v2ray_agent.py:122-149 | one cycle as written: the posted record has exactly the read's users and the read's node counters plus the pending ones; each user's entry has both counters, the read's plus the pending entry's; nothing is posted exactly when a record is pending that lacks one of the read's users; a `KeyError` or a transport exception leaves the slot unchanged; 200/202 empties it; any other status stores exactly the posted record |
| Traffic.SelectNode | v2ray_agent.py:129-135 | the node loop yields the entry for the tag, a missing key counting as 0, and zeros without one |
| Traffic.MergePending | v2ray_agent.py:137-143 | the in-place merge loop computes the as-written merge, including the `KeyError` |
| Traffic.TrafficAccountant.constructor | v2ray_agent.py:18 | the slot starts empty |
| Traffic.TrafficAccountant.UpdateTraffic | v2ray_agent.py:122-149 | the new slot and the posted record are those of `ReportStep` on the old slot |
| Traffic.Run | v2ray_agent.py:122-149 | the slot after the agent runs a sequence of cycles in order, each one a `ReportStep` (no contract; see `RejectedRunRecord`, `RejectedRunUsers`) |
| Traffic.RejectedStep | v2ray_agent.py:136-149 | one rejected post where the read and the slot have the same users: the slot holds those users and the read's node counters added to its own |
| Traffic.RejectedStepUsers | v2ray_agent.py:139-149 | the same step per user: the slot's counters are the read's plus the old slot's |
| Traffic.RejectedRunRecord | v2ray_agent.py:136-149 | as written, after any run of rejected posts whose reads have the same users: the slot is empty only if it started empty and nothing ran, and its node counters are the pending ones plus the sum of the reads |
| Traffic.RejectedRunUsers | v2ray_agent.py:136-149 | the same run per user: the pending counters plus the user's sum over all reads |
| Traffic.MergeIntended | v2ray_agent.py:136-143 | the corrected merge adds the node counters |
| Traffic.MergeIntendedKey | v2ray_agent.py:136-143 | a user is in the corrected merge exactly when it is in the read or in the pending record |
| Traffic.MergeIntendedUser | v2ray_agent.py:136-143 | each user's counters in the corrected merge are the sum of both records', a missing entry counting as zero |
| Traffic.IntendedStep | v2ray_agent.py:144-149 | the corrected cycle always posts; 200/202 empties the slot; any other outcome, a transport exception included, stores exactly the posted record |
| Traffic.RunIntended | v2ray_agent.py:122-149 | the slot after a sequence of corrected cycles, each one an `IntendedStep` (no contract; see `IntendedRunRecord`, `IntendedRunKeys`, `IntendedRunUsers`) |
| Traffic.IntendedRunRecord | v2ray_agent.py:136-149 | with the corrected cycle, after any run of failed submissions: the slot is empty only if it started empty and nothing ran, and its node counters are the pending ones plus the sum of all reads |
| Traffic.IntendedRunKeys | v2ray_agent.py:136-149 | in the same run a user is in the slot exactly when it was pending or appeared in some read |
| Traffic.IntendedRunUsers | v2ray_agent.py:136-149 | in the same run each user's counters are the pending ones plus the sum over all reads |
| Traffic.NewUserLosesRead | v2ray_agent.py:139-143 | a user new in this read while a record is pending: as written nothing is posted and the slot keeps the old record; the corrected cycle posts both users |
| Traffic.PendingOnlyUserDropped | v2ray_agent.py:139-143 | a user only in the pending record is missing from the posted record as written, and present in the corrected one |
| Traffic.TransportErrorLosesRead | v2ray_agent.py:144-149 | a transport exception from the post leaves the read neither posted nor kept as written; the corrected cycle keeps it |
| Traffic.RetryExample | v2ray_agent.py:136-149 | a read of 100/50 with u1 at 10/5 on a pending 20/0 with u1 at 1/0 posts 120/50 with u1 at 11/5, and a rejected post keeps exactly that record |

## Left out

- The network: the HTTP calls to the panel (lines 26, 144) and the gRPC client's `add_user`, `remove_user` and `get_all_traffic` (lines 58, 76-80, 101, 128). Their outcomes are model inputs.
- File I/O and JSON: reading and parsing `config.json` (lines 43-44, 67-68) and writing it back with `sort_keys`/`indent` (lines 117-118). A failed read is `None`; the write is the `written` field of the outcome.
- The host/port guards (lines 57-60, 124-127). Both return before anything else happens.
- The scheduler (lines 152-156) and any overlap between the two jobs. The model runs one cycle at a time.
- Logging. Only line 100 of the log calls affects behaviour, and the model keeps that effect.
- `settings.py`: constants only. The inbound tag is a parameter.
- Malformed JSON inside a readable document or reply (a missing `tag`, `settings`, `users`, `uplink` key or a non-dict entry): the model's types are well formed. A reply whose body has no `users` is the `None` of `UsersResponse.users`; missing `uplink`/`downlink` counter keys are modelled.
- Dictionary iteration order in the traffic job. The merge updates each key independently, so the order does not change the result.
- Traffic.RejectedRunUsers, Traffic.IntendedRunUsers, Traffic.IntendedRunKeys: stated for one user `u` at a time (the property for all users follows by quantifying over `u`) rather than as one equation between maps.
- Traffic.RejectedRunRecord: stated only for runs whose reads all have the same users as the slot. With any other users, the code as written loses reads (see "Findings").
- Reconcile.Converges: stated for a proxy whose calls never fail outright, and for live ids read from the same document the cycle edits. A call that fails outright leaves the difference for the next cycle.

## Findings

| source | as written | input that shows it | evidently intended | confidence | as-written member | corrected member |
|---|---|---|---|---|---|---|
| v2ray_agent.py:139-143 | the merge looks up every user of the new read in the pending record; a user the pending record lacks raises `KeyError` after the destructive read, so nothing is posted and the new read is lost | pending node 20/0 with u1 at 1/0; read 100/50 with only u2 at 10/5 | post 120/50 with u1 at 1/0 and u2 at 10/5 | not executed | Traffic.NewUserLosesRead | Traffic.IntendedRunUsers |
| v2ray_agent.py:139-143 | the merged record has only the new read's users, so counters pending for a user absent from the read are never posted again | pending u1 at 1/1 and u3 at 7/7; read with only u1 at 2/2; status 500 | the posted and retained record keeps u3 | not executed | Traffic.PendingOnlyUserDropped | Traffic.IntendedRunKeys |
| v2ray_agent.py:144-149 | an exception from the post escapes before the slot is updated, so the read taken with `reset=True` is neither posted nor kept | no pending record; read 100/50 with u1 at 10/5; transport exception | keep the record for a retry | not executed | Traffic.TransportErrorLosesRead | Traffic.IntendedRunRecord |
| v2ray_agent.py:97-106 | the removal log line formats `user['user_id']`, the variable of the desired-user loop; with no desired users the name is unbound, the line raises before `remove_user`, and the handler skips every leftover id | an empty directory; one live client `a` in the inbound | remove `a` on the proxy and pop it from the document | not executed | Reconcile.EmptyDirectoryRemovesNobody | Reconcile.Converges |
