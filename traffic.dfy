/** One run of `loop_update_traffic` (lines 122-149): turn one destructive
    counter read into a record, add in the record left over from a failed
    submission, post it, and keep or clear the pending slot. */
module Traffic {
  import opened Wrappers
  import opened V2rayConfig

  /** A counter entry as the proxy reports it; either key may be missing. */
  datatype Stat = Stat(uplink: Option<int>, downlink: Option<int>)

  datatype Counters = Counters(uplink: int, downlink: int)

  /** One `get_all_traffic(reset=True)`: entries per inbound tag and per user. */
  datatype RawTraffic = RawTraffic(inbound: map<string, Stat>, users: map<UserId, Stat>)

  /** The body posted to `trafficapi`, and what the pending slot holds. */
  datatype TrafficRecord = TrafficRecord(node: Counters, users: map<UserId, Stat>)

  /** What the post produced: an HTTP status, or an exception from the transport. */
  datatype SubmitResult = Status(code: int) | TransportError

  /** The new pending slot and the record handed to the post, if it got that far. */
  datatype Report = Report(pending: Option<TrafficRecord>, posted: Option<TrafficRecord>)

  predicate Accepted(s: SubmitResult)
  {
    s.Status? && (s.code == 200 || s.code == 202)
  }

  /** `.get(key, 0)` */
  function Get(v: Option<int>): int
  {
    match v
    case None => 0
    case Some(n) => n
  }

  function Plus(a: Counters, b: Counters): Counters
  {
    Counters(a.uplink + b.uplink, a.downlink + b.downlink)
  }

  function StatCounters(s: Stat): Counters
  {
    Counters(Get(s.uplink), Get(s.downlink))
  }

  /** Lines 140-143: one user's entry after the pending entry is added in. */
  function AddStat(current: Stat, last: Stat): Stat
  {
    Stat(Some(Get(current.uplink) + Get(last.uplink)), Some(Get(current.downlink) + Get(last.downlink)))
  }

  /** Lines 129-135: the node counters come from the inbound entry for `tag`,
      a missing key counting as 0, and are 0 when there is no such entry. */
  function NodeCounters(raw: RawTraffic, tag: string): Counters
  {
    if tag in raw.inbound then StatCounters(raw.inbound[tag]) else Counters(0, 0)
  }

  /** Lines 136-143. The merged record has exactly the current read's users;
      `None` is the `KeyError` raised when the pending record lacks one of
      them. */
  function MergeAsWritten(current: TrafficRecord, pending: Option<TrafficRecord>): Option<TrafficRecord>
  {
    match pending
    case None => Some(current)
    case Some(last) =>
      if current.users.Keys <= last.users.Keys then
        Some(TrafficRecord(Plus(current.node, last.node),
                           map u | u in current.users :: AddStat(current.users[u], last.users[u])))
      else None
  }

  /** One cycle as the source runs it. A `KeyError` while merging and an
      exception from the post both escape the function and leave the slot as
      it was; a 200 or 202 reply empties it; any other reply puts exactly the
      posted record in it. */
  function ReportStep(pending: Option<TrafficRecord>, raw: RawTraffic, tag: string, submit: SubmitResult): (r: Report)
    ensures r.posted.Some? ==> r.posted.value.users.Keys == raw.users.Keys
    ensures r.posted.Some? ==> r.posted.value.node
                               == if pending.None? then NodeCounters(raw, tag) else Plus(NodeCounters(raw, tag), pending.value.node)
    ensures r.posted.Some? && pending.Some? ==>
              forall u :: u in raw.users ==>
                u in pending.value.users
                && r.posted.value.users[u].uplink.Some? && r.posted.value.users[u].downlink.Some?
                && StatCounters(r.posted.value.users[u]) == Plus(StatCounters(raw.users[u]), StatCounters(pending.value.users[u]))
    ensures pending.None? ==> r.posted == Some(TrafficRecord(NodeCounters(raw, tag), raw.users))
    ensures r.posted.None? <==> pending.Some? && !(raw.users.Keys <= pending.value.users.Keys)
    ensures r.posted.None? || submit.TransportError? ==> r.pending == pending
    ensures r.posted.Some? && Accepted(submit) ==> r.pending == None
    ensures r.posted.Some? && submit.Status? && !Accepted(submit) ==> r.pending == r.posted
  {
    var current := TrafficRecord(NodeCounters(raw, tag), raw.users);
    match MergeAsWritten(current, pending)
    case None => Report(pending, None)
    case Some(merged) =>
      match submit
      case TransportError => Report(pending, Some(merged))
      case Status(code) =>
        if code == 200 || code == 202 then Report(None, Some(merged)) else Report(Some(merged), Some(merged))
  }

  /** The node counter loop of lines 129-135, over the inbound entries. */
  method SelectNode(raw: RawTraffic, tag: string) returns (node: Counters)
    ensures node == NodeCounters(raw, tag)
  {
    node := Counters(0, 0);
    var tags := raw.inbound.Keys;
    while tags != {}
      invariant tags <= raw.inbound.Keys
      invariant node == if tag in raw.inbound && tag !in tags then NodeCounters(raw, tag) else Counters(0, 0)
      decreases tags
    {
      var inbound :| inbound in tags;
      if inbound == tag {
        node := Counters(Get(raw.inbound[inbound].uplink), Get(raw.inbound[inbound].downlink));
      }
      tags := tags - {inbound};
    }
  }

  /** Lines 137-143: add the pending node counters, then update each user
      entry of the current read in place; a user the pending record lacks
      raises, reported as `None`. */
  method MergePending(current: TrafficRecord, last: TrafficRecord) returns (merged: Option<TrafficRecord>)
    ensures merged == MergeAsWritten(current, Some(last))
  {
    var node := Counters(current.node.uplink + last.node.uplink, current.node.downlink + last.node.downlink);
    var users := current.users;
    var todo := current.users.Keys;
    while todo != {}
      invariant todo <= current.users.Keys
      invariant users.Keys == current.users.Keys
      invariant forall u :: u in current.users && u !in todo ==> u in last.users && users[u] == AddStat(current.users[u], last.users[u])
      invariant forall u :: u in todo ==> users[u] == current.users[u]
      decreases todo
    {
      var u :| u in todo;
      if u !in last.users {
        return None;
      }
      users := users[u := AddStat(users[u], last.users[u])];
      todo := todo - {u};
    }
    assert users == map u | u in current.users :: AddStat(current.users[u], last.users[u]);
    merged := Some(TrafficRecord(node, users));
  }

  /** The agent's traffic state: `LAST_TRAFFIC_RECORD`, the one record whose
      submission last failed. */
  class TrafficAccountant {
    var pending: Option<TrafficRecord>

    constructor ()
      ensures pending == None
    {
      pending := None;
    }

    /** `loop_update_traffic` for one counter read `raw` and the outcome
      `submit` of posting; returns the record posted, if the cycle got that far. */
    method UpdateTraffic(raw: RawTraffic, tag: string, submit: SubmitResult) returns (posted: Option<TrafficRecord>)
      modifies this
      ensures Report(pending, posted) == ReportStep(old(pending), raw, tag, submit)
    {
      var node := SelectNode(raw, tag);
      var result := TrafficRecord(node, raw.users);
      if pending.Some? {
        var merged := MergePending(result, pending.value);
        if merged.None? {
          return None;
        }
        result := merged.value;
      }
      posted := Some(result);
      match submit
      case TransportError =>
      case Status(code) =>
        if code == 200 || code == 202 {
          pending := None;
        } else {
          pending := Some(result);
        }
    }
  }

  /** Adding a read in and then the rest of the run equals adding the whole run. */
  lemma PlusRegroup(slot: Counters, read: Counters, rest: Counters)
    ensures Plus(Plus(read, slot), rest) == Plus(slot, Plus(read, rest))
  {
  }

  /** Zero counters add nothing. */
  lemma PlusZero(x: Counters)
    ensures Plus(Counters(0, 0), x) == x && Plus(x, Counters(0, 0)) == x
  {
    assert x == Counters(x.uplink, x.downlink);
  }

  /** One cycle's inputs: the counter read and what posting the report produced. */
  datatype Cycle = Cycle(raw: RawTraffic, submit: SubmitResult)

  function UserCounters(users: map<UserId, Stat>, u: UserId): Counters
  {
    if u in users then StatCounters(users[u]) else Counters(0, 0)
  }

  /** The node counters the pending slot holds, 0 when it is empty. */
  function SlotNode(pending: Option<TrafficRecord>): Counters
  {
    if pending.None? then Counters(0, 0) else pending.value.node
  }

  /** One user's counters in the pending slot, 0 when it has none. */
  function SlotUser(pending: Option<TrafficRecord>, u: UserId): Counters
  {
    if pending.None? then Counters(0, 0) else UserCounters(pending.value.users, u)
  }

  /** The pending slot holds an entry for `u`. */
  predicate SlotHas(pending: Option<TrafficRecord>, u: UserId)
  {
    pending.Some? && u in pending.value.users
  }

  /** Sum of the node counters of a run of reads. */
  function NodeTotal(cycles: seq<Cycle>, tag: string): Counters
  {
    if cycles == [] then Counters(0, 0) else Plus(NodeCounters(cycles[0].raw, tag), NodeTotal(cycles[1..], tag))
  }

  /** Sum of one user's counters over a run of reads. */
  function UserTotal(cycles: seq<Cycle>, u: UserId): Counters
  {
    if cycles == [] then Counters(0, 0) else Plus(UserCounters(cycles[0].raw.users, u), UserTotal(cycles[1..], u))
  }

  /** Every user that appears in some read of the run. */
  predicate Seen(cycles: seq<Cycle>, u: UserId)
  {
    cycles != [] && (u in cycles[0].raw.users || Seen(cycles[1..], u))
  }

  /** The pending slot after the agent runs `cycles` in order, as written. */
  function Run(pending: Option<TrafficRecord>, cycles: seq<Cycle>, tag: string): Option<TrafficRecord>
    decreases |cycles|
  {
    if cycles == [] then pending
    else Run(ReportStep(pending, cycles[0].raw, tag, cycles[0].submit).pending, cycles[1..], tag)
  }

  /** One rejected post with the same users in the read and the slot: the
      slot then holds a record with those users and the read's node counters
      added to the ones it held before. */
  lemma RejectedStep(pending: Option<TrafficRecord>, raw: RawTraffic, tag: string, submit: SubmitResult, keys: set<UserId>)
    requires submit.Status? && !Accepted(submit)
    requires raw.users.Keys == keys
    requires pending.Some? ==> pending.value.users.Keys == keys
    ensures var next := ReportStep(pending, raw, tag, submit).pending;
            && next.Some?
            && next.value.users.Keys == keys
            && next.value.node == Plus(NodeCounters(raw, tag), SlotNode(pending))
  {
    var step := ReportStep(pending, raw, tag, submit);
    assert step.posted.Some?;
    assert step.pending == step.posted;
  }

  /** When the read and the slot hold the same users, the merge as written
      succeeds and adds each user's counters. */
  lemma MergeSameUsers(current: TrafficRecord, pending: Option<TrafficRecord>, u: UserId)
    requires pending.Some? ==> pending.value.users.Keys == current.users.Keys
    ensures MergeAsWritten(current, pending).Some?
    ensures UserCounters(MergeAsWritten(current, pending).value.users, u)
            == Plus(UserCounters(current.users, u), SlotUser(pending, u))
  {
    if pending.Some? && u in current.users {
      var users := MergeAsWritten(current, pending).value.users;
      assert users[u] == AddStat(current.users[u], pending.value.users[u]);
    }
  }

  /** The same step, user by user: each user's counters in the slot are the
      read's plus what the slot held before. */
  lemma RejectedStepUsers(pending: Option<TrafficRecord>, raw: RawTraffic, tag: string, submit: SubmitResult, keys: set<UserId>, u: UserId)
    requires submit.Status? && !Accepted(submit)
    requires raw.users.Keys == keys
    requires pending.Some? ==> pending.value.users.Keys == keys
    ensures SlotUser(ReportStep(pending, raw, tag, submit).pending, u) == Plus(UserCounters(raw.users, u), SlotUser(pending, u))
  {
    var current := TrafficRecord(NodeCounters(raw, tag), raw.users);
    MergeSameUsers(current, pending, u);
    assert ReportStep(pending, raw, tag, submit).pending == MergeAsWritten(current, pending);
  }

  /** As written, the slot after a run of rejected posts whose reads all
      report the same users: it is empty only if it started empty and nothing
      ran, it has those users, and its node counters are the pending ones plus
      the sum of all the reads. */
  lemma {:induction false} RejectedRunRecord(pending: Option<TrafficRecord>, cycles: seq<Cycle>, tag: string, keys: set<UserId>)
    requires forall n :: 0 <= n < |cycles| ==> cycles[n].submit.Status? && !Accepted(cycles[n].submit)
    requires forall n :: 0 <= n < |cycles| ==> cycles[n].raw.users.Keys == keys
    requires pending.Some? ==> pending.value.users.Keys == keys
    ensures Run(pending, cycles, tag).None? <==> pending.None? && cycles == []
    ensures Run(pending, cycles, tag).Some? ==>
              && Run(pending, cycles, tag).value.users.Keys == keys
              && Run(pending, cycles, tag).value.node == Plus(SlotNode(pending), NodeTotal(cycles, tag))
    decreases |cycles|
  {
    if cycles != [] {
      var c := cycles[0];
      var next := ReportStep(pending, c.raw, tag, c.submit).pending;
      RejectedStep(pending, c.raw, tag, c.submit, keys);
      var rest := cycles[1..];
      forall n | 0 <= n < |rest|
        ensures rest[n].submit.Status? && !Accepted(rest[n].submit) && rest[n].raw.users.Keys == keys
      {
        assert rest[n] == cycles[n + 1];
      }
      RejectedRunRecord(next, rest, tag, keys);
      assert Run(pending, cycles, tag) == Run(next, rest, tag);
      PlusRegroup(SlotNode(pending), NodeCounters(c.raw, tag), NodeTotal(rest, tag));
    } else if pending.Some? {
      assert Run(pending, cycles, tag) == pending;
      PlusZero(pending.value.node);
    }
  }

  /** The same run, user by user: each user's counters in the slot are the
      pending ones plus the sum over all the reads. */
  lemma {:induction false} RejectedRunUsers(pending: Option<TrafficRecord>, cycles: seq<Cycle>, tag: string, keys: set<UserId>, u: UserId)
    requires forall n :: 0 <= n < |cycles| ==> cycles[n].submit.Status? && !Accepted(cycles[n].submit)
    requires forall n :: 0 <= n < |cycles| ==> cycles[n].raw.users.Keys == keys
    requires pending.Some? ==> pending.value.users.Keys == keys
    ensures SlotUser(Run(pending, cycles, tag), u) == Plus(SlotUser(pending, u), UserTotal(cycles, u))
    decreases |cycles|
  {
    if cycles != [] {
      var c := cycles[0];
      var next := ReportStep(pending, c.raw, tag, c.submit).pending;
      RejectedStep(pending, c.raw, tag, c.submit, keys);
      RejectedStepUsers(pending, c.raw, tag, c.submit, keys, u);
      var rest := cycles[1..];
      forall n | 0 <= n < |rest|
        ensures rest[n].submit.Status? && !Accepted(rest[n].submit) && rest[n].raw.users.Keys == keys
      {
        assert rest[n] == cycles[n + 1];
      }
      RejectedRunUsers(next, rest, tag, keys, u);
      assert Run(pending, cycles, tag) == Run(next, rest, tag);
      PlusRegroup(SlotUser(pending, u), UserCounters(c.raw.users, u), UserTotal(rest, u));
    } else {
      assert Run(pending, cycles, tag) == pending;
      PlusZero(SlotUser(pending, u));
    }
  }

  /** The entry for `u`, a missing one counting as zero. */
  function UserOr(users: map<UserId, Stat>, u: UserId): Stat
  {
    if u in users then users[u] else Stat(None, None)
  }

  /** Every user of either map, the two entries added. */
  function UnionUsers(a: map<UserId, Stat>, b: map<UserId, Stat>): map<UserId, Stat>
  {
    map u | u in a.Keys + b.Keys :: AddStat(UserOr(a, u), UserOr(b, u))
  }

  lemma UnionUsersCounters(a: map<UserId, Stat>, b: map<UserId, Stat>)
    ensures UnionUsers(a, b).Keys == a.Keys + b.Keys
    ensures forall u :: UserCounters(UnionUsers(a, b), u) == Plus(UserCounters(a, u), UserCounters(b, u))
  {
    forall u
      ensures UserCounters(UnionUsers(a, b), u) == Plus(UserCounters(a, u), UserCounters(b, u))
    {
      if u !in a.Keys + b.Keys {
        assert u !in UnionUsers(a, b);
      }
    }
  }

  /** The corrected merge: node counters added, and every user of
      either record present. */
  function MergeIntended(current: TrafficRecord, pending: Option<TrafficRecord>): (r: TrafficRecord)
    ensures r.node == Plus(current.node, SlotNode(pending))
  {
    match pending
    case None =>
      PlusZero(current.node);
      current
    case Some(last) =>
      TrafficRecord(Plus(current.node, last.node), UnionUsers(current.users, last.users))
  }

  /** A user is in the intended merge exactly when it is in either record. */
  lemma MergeIntendedKey(current: TrafficRecord, pending: Option<TrafficRecord>, u: UserId)
    ensures u in MergeIntended(current, pending).users <==> u in current.users || SlotHas(pending, u)
  {
    if pending.Some? {
      assert MergeIntended(current, pending).users == UnionUsers(current.users, pending.value.users);
    }
  }

  /** Each user's counters after the intended merge are the sum of the two
      records' counters, a missing entry counting as zero. */
  lemma MergeIntendedUser(current: TrafficRecord, pending: Option<TrafficRecord>, u: UserId)
    ensures UserCounters(MergeIntended(current, pending).users, u) == Plus(UserCounters(current.users, u), SlotUser(pending, u))
  {
    match pending
    case None =>
      PlusZero(UserCounters(current.users, u));
    case Some(last) =>
      UnionUsersCounters(current.users, last.users);
  }

  /** The corrected cycle: the union merge always produces a
      record to post; a 200 or 202 reply empties the slot, and every other
      outcome, a transport exception included, keeps exactly the posted record. */
  function IntendedStep(pending: Option<TrafficRecord>, raw: RawTraffic, tag: string, submit: SubmitResult): (r: Report)
    ensures r.posted.Some?
    ensures Accepted(submit) ==> r.pending == None
    ensures !Accepted(submit) ==> r.pending == r.posted
  {
    var merged := MergeIntended(TrafficRecord(NodeCounters(raw, tag), raw.users), pending);
    if Accepted(submit) then Report(None, Some(merged)) else Report(Some(merged), Some(merged))
  }

  function RunIntended(pending: Option<TrafficRecord>, cycles: seq<Cycle>, tag: string): Option<TrafficRecord>
    decreases |cycles|
  {
    if cycles == [] then pending
    else RunIntended(IntendedStep(pending, cycles[0].raw, tag, cycles[0].submit).pending, cycles[1..], tag)
  }

  /** One failed post under the intended step: the slot then holds a record
      whose node counters are the read's plus what it held before. */
  lemma IntendedFailedStep(pending: Option<TrafficRecord>, raw: RawTraffic, tag: string, submit: SubmitResult)
    requires !Accepted(submit)
    ensures var next := IntendedStep(pending, raw, tag, submit).pending;
            && next.Some?
            && next.value.node == Plus(NodeCounters(raw, tag), SlotNode(pending))
  {
  }

  /** The same step, user by user. */
  lemma IntendedFailedStepUser(pending: Option<TrafficRecord>, raw: RawTraffic, tag: string, submit: SubmitResult, u: UserId)
    requires !Accepted(submit)
    ensures SlotUser(IntendedStep(pending, raw, tag, submit).pending, u) == Plus(UserCounters(raw.users, u), SlotUser(pending, u))
  {
    MergeIntendedUser(TrafficRecord(NodeCounters(raw, tag), raw.users), pending, u);
  }

  /** With the intended step, the slot after any run of failed submissions
      (transport exceptions or non-success statuses, with any users in any
      read): it is empty only if it started empty and nothing ran, and its
      node counters are the pending ones plus the sum of all the reads. */
  lemma {:induction false} IntendedRunRecord(pending: Option<TrafficRecord>, cycles: seq<Cycle>, tag: string)
    requires forall n :: 0 <= n < |cycles| ==> !Accepted(cycles[n].submit)
    ensures RunIntended(pending, cycles, tag).None? <==> pending.None? && cycles == []
    ensures RunIntended(pending, cycles, tag).Some? ==>
              RunIntended(pending, cycles, tag).value.node == Plus(SlotNode(pending), NodeTotal(cycles, tag))
    decreases |cycles|
  {
    if cycles != [] {
      var c := cycles[0];
      var next := IntendedStep(pending, c.raw, tag, c.submit).pending;
      IntendedFailedStep(pending, c.raw, tag, c.submit);
      var rest := cycles[1..];
      forall n | 0 <= n < |rest|
        ensures !Accepted(rest[n].submit)
      {
        assert rest[n] == cycles[n + 1];
      }
      IntendedRunRecord(next, rest, tag);
      assert RunIntended(pending, cycles, tag) == RunIntended(next, rest, tag);
      PlusRegroup(SlotNode(pending), NodeCounters(c.raw, tag), NodeTotal(rest, tag));
    } else if pending.Some? {
      assert RunIntended(pending, cycles, tag) == pending;
      PlusZero(pending.value.node);
    }
  }

  /** The same run: a user is in the slot exactly when it was in the pending
      record or in some read. */
  lemma {:induction false} IntendedRunKeys(pending: Option<TrafficRecord>, cycles: seq<Cycle>, tag: string, u: UserId)
    requires forall n :: 0 <= n < |cycles| ==> !Accepted(cycles[n].submit)
    ensures SlotHas(RunIntended(pending, cycles, tag), u) <==> SlotHas(pending, u) || Seen(cycles, u)
    decreases |cycles|
  {
    if cycles != [] {
      var c := cycles[0];
      var next := IntendedStep(pending, c.raw, tag, c.submit).pending;
      MergeIntendedKey(TrafficRecord(NodeCounters(c.raw, tag), c.raw.users), pending, u);
      var rest := cycles[1..];
      forall n | 0 <= n < |rest|
        ensures !Accepted(rest[n].submit)
      {
        assert rest[n] == cycles[n + 1];
      }
      IntendedRunKeys(next, rest, tag, u);
      assert RunIntended(pending, cycles, tag) == RunIntended(next, rest, tag);
    } else {
      assert RunIntended(pending, cycles, tag) == pending;
    }
  }

  /** The same run, user by user: each user's counters in the slot are the
      pending ones plus the sum over all the reads. */
  lemma {:induction false} IntendedRunUsers(pending: Option<TrafficRecord>, cycles: seq<Cycle>, tag: string, u: UserId)
    requires forall n :: 0 <= n < |cycles| ==> !Accepted(cycles[n].submit)
    ensures SlotUser(RunIntended(pending, cycles, tag), u) == Plus(SlotUser(pending, u), UserTotal(cycles, u))
    decreases |cycles|
  {
    if cycles != [] {
      var c := cycles[0];
      var next := IntendedStep(pending, c.raw, tag, c.submit).pending;
      IntendedFailedStep(pending, c.raw, tag, c.submit);
      IntendedFailedStepUser(pending, c.raw, tag, c.submit, u);
      var rest := cycles[1..];
      forall n | 0 <= n < |rest|
        ensures !Accepted(rest[n].submit)
      {
        assert rest[n] == cycles[n + 1];
      }
      IntendedRunUsers(next, rest, tag, u);
      assert RunIntended(pending, cycles, tag) == RunIntended(next, rest, tag);
      PlusRegroup(SlotUser(pending, u), UserCounters(c.raw.users, u), UserTotal(rest, u));
    } else {
      assert RunIntended(pending, cycles, tag) == pending;
      PlusZero(SlotUser(pending, u));
    }
  }

  /** A user that first appears in this read while a record is pending: the
      merge raises after the destructive read, so nothing is posted, the read
      is lost and the slot keeps the old record. The intended step posts both
      users. */
  lemma NewUserLosesRead()
    ensures var last := TrafficRecord(Counters(20, 0), map["u1" := Stat(Some(1), Some(0))]);
            var raw := RawTraffic(map["master" := Stat(Some(100), Some(50))], map["u2" := Stat(Some(10), Some(5))]);
            && ReportStep(Some(last), raw, "master", Status(200)) == Report(Some(last), None)
            && IntendedStep(Some(last), raw, "master", Status(200)).posted.value
               == TrafficRecord(Counters(120, 50), map["u1" := Stat(Some(1), Some(0)), "u2" := Stat(Some(10), Some(5))])
  {
    var last := TrafficRecord(Counters(20, 0), map["u1" := Stat(Some(1), Some(0))]);
    var raw := RawTraffic(map["master" := Stat(Some(100), Some(50))], map["u2" := Stat(Some(10), Some(5))]);
    assert "u2" !in last.users;
    var merged := MergeIntended(TrafficRecord(NodeCounters(raw, "master"), raw.users), Some(last));
    assert merged.users.Keys == {"u1", "u2"};
  }

  /** A user present only in the pending record: the merge keeps only the
      read's users, so that user's pending counters are posted to nobody and
      then discarded. */
  lemma PendingOnlyUserDropped()
    ensures var last := TrafficRecord(Counters(0, 0), map["u1" := Stat(Some(1), Some(1)), "u3" := Stat(Some(7), Some(7))]);
            var raw := RawTraffic(map[], map["u1" := Stat(Some(2), Some(2))]);
            var posted := ReportStep(Some(last), raw, "master", Status(500)).posted;
            && posted.Some? && "u3" !in posted.value.users
            && "u3" in IntendedStep(Some(last), raw, "master", Status(500)).posted.value.users
  {
    var last := TrafficRecord(Counters(0, 0), map["u1" := Stat(Some(1), Some(1)), "u3" := Stat(Some(7), Some(7))]);
    var raw := RawTraffic(map[], map["u1" := Stat(Some(2), Some(2))]);
    var posted := ReportStep(Some(last), raw, "master", Status(500)).posted;
    assert posted.Some? && "u3" !in posted.value.users by {
      assert "u3" !in raw.users by {
        assert "u3"[1] != "u1"[1];
      }
      assert raw.users.Keys <= last.users.Keys;
    }
    assert "u3" in IntendedStep(Some(last), raw, "master", Status(500)).posted.value.users by {
      var current := TrafficRecord(NodeCounters(raw, "master"), raw.users);
      MergeIntendedKey(current, Some(last), "u3");
      assert IntendedStep(Some(last), raw, "master", Status(500)).posted == Some(MergeIntended(current, Some(last)));
    }
  }

  /** A transport exception from the post escapes after the destructive read,
      so the read's counters are neither posted nor kept. */
  lemma TransportErrorLosesRead()
    ensures var raw := RawTraffic(map["master" := Stat(Some(100), Some(50))], map["u1" := Stat(Some(10), Some(5))]);
            && ReportStep(None, raw, "master", TransportError).pending == None
            && IntendedStep(None, raw, "master", TransportError).pending == Some(TrafficRecord(Counters(100, 50), raw.users))
  {
  }

  /** The worked retry: a read of 100/50 with u1 at 10/5 on top of a pending
      20/0 with u1 at 1/0 posts 120/50 with u1 at 11/5, and a rejected post
      keeps exactly that record. */
  lemma RetryExample()
    ensures var last := TrafficRecord(Counters(20, 0), map["u1" := Stat(Some(1), Some(0))]);
            var raw := RawTraffic(map["master" := Stat(Some(100), Some(50))], map["u1" := Stat(Some(10), Some(5))]);
            var merged := TrafficRecord(Counters(120, 50), map["u1" := Stat(Some(11), Some(5))]);
            ReportStep(Some(last), raw, "master", Status(500)) == Report(Some(merged), Some(merged))
  {
    var last := TrafficRecord(Counters(20, 0), map["u1" := Stat(Some(1), Some(0))]);
    var raw := RawTraffic(map["master" := Stat(Some(100), Some(50))], map["u1" := Stat(Some(10), Some(5))]);
    var users := map u | u in raw.users :: AddStat(raw.users[u], last.users[u]);
    assert users == map["u1" := Stat(Some(11), Some(5))];
  }
}
