/** One run of `loop_check_users` (lines 56-118): diff the desired users
    against the live ids, apply each addition and removal to the running
    proxy and then to the config document, and write the document back only
    when it changed. */
module Reconcile {
  import opened Wrappers
  import opened Seqs
  import opened V2rayConfig
  import opened Directory

  /** Outcome of `add_user` on the proxy: success, `EmailExistsError`, or any other exception. */
  datatype AddReply = Added | EmailExists | AddFailed

  /** Outcome of `remove_user` on the proxy: success, `EmailNotFoundError`, or any other exception. */
  datatype RemoveReply = Removed | EmailNotFound | RemoveFailed

  /** A call made to the running proxy during the cycle. */
  datatype ProxyCall = AddUser(user: User) | RemoveUser(id: UserId)

  /** The in-memory config document and the `config_changed` flag. */
  datatype Draft = Draft(cfg: Config, changed: bool)

  /** What one cycle did. A failed fetch and an unreadable config both end
      the cycle before any proxy call; otherwise `written` is the document
      written back to config.json, if any. */
  datatype CheckOutcome =
    | FetchFailed
    | ConfigUnreadable
    | Completed(calls: seq<ProxyCall>, written: Option<Config>)

  /** The client entry appended for a new user (lines 88-93). */
  function ClientOf(u: User): Client
  {
    Client(u.userId, u.userId, u.level, u.alterId)
  }

  function ClientsOf(users: seq<User>): seq<Client>
  {
    seq(|users|, k requires 0 <= k < |users| => ClientOf(users[k]))
  }

  /** Lines 70-73: each desired user whose id is still in the working list
      strikes off the first occurrence of that id; every other desired user
      is an addition. Returns the additions, in order, and what is left of the
      working list, which is the removal list. */
  function Split(desired: seq<User>, working: seq<UserId>): (seq<User>, seq<UserId>)
  {
    if desired == [] then ([], working)
    else if desired[0].userId in working then
      Split(desired[1..], RemoveFirst(working, desired[0].userId))
    else
      var rest := Split(desired[1..], working);
      ([desired[0]] + rest.0, rest.1)
  }

  /** The additions are desired users themselves, with the level and
      alterId the directory gave, each at most as often as it is desired. */
  lemma {:induction false} SplitAddsAreDesired(desired: seq<User>, working: seq<UserId>)
    ensures multiset(Split(desired, working).0) <= multiset(desired)
  {
    if desired != [] {
      var rest := desired[1..];
      assert desired == [desired[0]] + rest;
      if desired[0].userId in working {
        SplitAddsAreDesired(rest, RemoveFirst(working, desired[0].userId));
      } else {
        SplitAddsAreDesired(rest, working);
      }
    }
  }

  /** The additions are the desired ids not matched by a live id, counted
      with multiplicity. */
  lemma {:induction false} SplitAddCounts(desired: seq<User>, working: seq<UserId>)
    ensures multiset(UserIds(Split(desired, working).0)) == multiset(UserIds(desired)) - multiset(working)
  {
    if desired == [] {
      assert UserIds(desired) == [];
    } else {
      var u := desired[0];
      var rest := desired[1..];
      assert UserIds(desired) == [u.userId] + UserIds(rest);
      if u.userId in working {
        var working' := RemoveFirst(working, u.userId);
        SplitAddCounts(rest, working');
        RemoveFirstMultiset(working, u.userId);
        StrikeOffCounts(multiset(UserIds(rest)), multiset(working), u.userId);
      } else {
        SplitAddCounts(rest, working);
        var adds := Split(rest, working).0;
        assert UserIds([u] + adds) == [u.userId] + UserIds(adds);
        UnmatchedCounts(multiset(UserIds(rest)), multiset(working), u.userId);
      }
    }
  }

  /** The removals are the live ids not matched by a desired id, counted
      with multiplicity. */
  lemma {:induction false} SplitLeftoverCounts(desired: seq<User>, working: seq<UserId>)
    ensures multiset(Split(desired, working).1) == multiset(working) - multiset(UserIds(desired))
  {
    if desired == [] {
      assert UserIds(desired) == [];
    } else {
      var u := desired[0];
      var rest := desired[1..];
      assert UserIds(desired) == [u.userId] + UserIds(rest);
      if u.userId in working {
        var working' := RemoveFirst(working, u.userId);
        SplitLeftoverCounts(rest, working');
        RemoveFirstMultiset(working, u.userId);
        StrikeOffCounts(multiset(UserIds(rest)), multiset(working), u.userId);
      } else {
        SplitLeftoverCounts(rest, working);
        UnmatchedCounts(multiset(UserIds(rest)), multiset(working), u.userId);
      }
    }
  }

  /** Both differences at once: additions are desired minus live and
      removals live minus desired, with multiplicity. */
  lemma SplitCounts(desired: seq<User>, working: seq<UserId>)
    ensures multiset(UserIds(Split(desired, working).0)) == multiset(UserIds(desired)) - multiset(working)
    ensures multiset(Split(desired, working).1) == multiset(working) - multiset(UserIds(desired))
  {
    SplitAddCounts(desired, working);
    SplitLeftoverCounts(desired, working);
  }

  /** A desired id that strikes off a live one leaves both differences as they were. */
  lemma StrikeOffCounts(rest: multiset<UserId>, working: multiset<UserId>, x: UserId)
    requires x in working
    ensures rest - (working - multiset{x}) == (multiset{x} + rest) - working
    ensures (working - multiset{x}) - rest == working - (multiset{x} + rest)
  {
    assert forall y :: (rest - (working - multiset{x}))[y] == ((multiset{x} + rest) - working)[y];
    assert forall y :: ((working - multiset{x}) - rest)[y] == (working - (multiset{x} + rest))[y];
  }

  /** A desired id with no live match is one more addition and matches nothing. */
  lemma UnmatchedCounts(rest: multiset<UserId>, working: multiset<UserId>, x: UserId)
    requires x !in working
    ensures multiset{x} + (rest - working) == (multiset{x} + rest) - working
    ensures working - rest == working - (multiset{x} + rest)
  {
    assert forall y :: (multiset{x} + (rest - working))[y] == ((multiset{x} + rest) - working)[y];
    assert forall y :: (working - rest)[y] == (working - (multiset{x} + rest))[y];
  }

  /** With no repeated ids this is the plain set difference: the additions
      are D minus L and the removals L minus D, by user id. */
  lemma SplitDistinct(desired: seq<User>, live: seq<UserId>)
    requires Distinct(UserIds(desired)) && Distinct(live)
    ensures forall id :: id in UserIds(Split(desired, live).0) <==> id in UserIds(desired) && id !in live
    ensures forall id :: id in Split(desired, live).1 <==> id in live && id !in UserIds(desired)
  {
    SplitCounts(desired, live);
    forall id
      ensures id in UserIds(Split(desired, live).0) <==> id in UserIds(desired) && id !in live
      ensures id in Split(desired, live).1 <==> id in live && id !in UserIds(desired)
    {
      DistinctCountsAtMostOne(UserIds(desired), id);
      DistinctCountsAtMostOne(live, id);
      var left := Split(desired, live).1;
      assert id in left <==> id in multiset(left);
      assert id in live <==> id in multiset(live);
      assert id in UserIds(desired) <==> id in multiset(UserIds(desired));
    }
  }

  /** Lines 74-96 for one addition: unless the proxy call failed with an
      error other than `EmailExistsError`, the client is appended. */
  function AddStep(d: Draft, tag: string, u: User, reply: AddReply): Draft
  {
    if reply == AddFailed then d
    else
      var (cfg, appended) := AppendClient(d.cfg, tag, ClientOf(u));
      Draft(cfg, d.changed || appended)
  }

  /** The additions in order; the k-th add call of the cycle gets `reply(k)`. */
  function ApplyAdds(d: Draft, tag: string, adds: seq<User>, reply: nat -> AddReply, k: nat): Draft
    decreases adds
  {
    if adds == [] then d
    else ApplyAdds(AddStep(d, tag, adds[0], reply(k)), tag, adds[1..], reply, k + 1)
  }

  /** Lines 98-115 for one removal: unless the proxy call failed with an
      error other than `EmailNotFoundError`, the client is popped. */
  function RemoveStep(d: Draft, tag: string, id: UserId, reply: RemoveReply): Draft
  {
    if reply == RemoveFailed then d
    else
      var (cfg, popped) := RemoveClient(d.cfg, tag, id);
      Draft(cfg, d.changed || popped)
  }

  /** The removals in order; the j-th remove call of the cycle gets `reply(j)`. */
  function ApplyRemoves(d: Draft, tag: string, ids: seq<UserId>, reply: nat -> RemoveReply, j: nat): Draft
    decreases ids
  {
    if ids == [] then d
    else ApplyRemoves(RemoveStep(d, tag, ids[0], reply(j)), tag, ids[1..], reply, j + 1)
  }

  /** The additions whose proxy call did not fail outright. */
  function AcceptedAdds(adds: seq<User>, reply: nat -> AddReply, k: nat): seq<User>
    decreases adds
  {
    if adds == [] then []
    else (if reply(k) == AddFailed then [] else [adds[0]]) + AcceptedAdds(adds[1..], reply, k + 1)
  }

  /** The removals whose proxy call did not fail outright. */
  function AcceptedRemoves(ids: seq<UserId>, reply: nat -> RemoveReply, j: nat): seq<UserId>
    decreases ids
  {
    if ids == [] then []
    else (if reply(j) == RemoveFailed then [] else [ids[0]]) + AcceptedRemoves(ids[1..], reply, j + 1)
  }

  function AddCalls(adds: seq<User>): seq<ProxyCall>
  {
    seq(|adds|, k requires 0 <= k < |adds| => AddUser(adds[k]))
  }

  function RemoveCalls(ids: seq<UserId>): seq<ProxyCall>
  {
    seq(|ids|, j requires 0 <= j < |ids| => RemoveUser(ids[j]))
  }

  /** Both loops of the cycle over the document `cfg`: the additions, then
      the removals in `removals`, and the write-back when the flag is set. */
  function Phases(desired: seq<User>, live: seq<UserId>, cfg: Config, tag: string,
                  addReply: nat -> AddReply, removeReply: nat -> RemoveReply, removals: seq<UserId>): CheckOutcome
  {
    var adds := Split(desired, live).0;
    var added := ApplyAdds(Draft(cfg, false), tag, adds, addReply, 0);
    var removed := ApplyRemoves(added, tag, removals, removeReply, 0);
    Completed(AddCalls(adds) + RemoveCalls(removals), if removed.changed then Some(removed.cfg) else None)
  }

  /** The whole cycle as the source runs it, given the directory's users
      (`None` when the fetch raised), the config as `get_v2ray_users` read it,
      the config as line 67 read it, and the proxy's replies. The removal log
      line (line 100) reads `user`, the variable of the loop over the desired
      users; when the directory returned no users that name is unbound, every
      pass of the removal loop raises before `remove_user` and the handler
      at line 104 skips it, so no removal happens at all. */
  function CheckUsers(fetched: Option<seq<User>>, liveRead: Option<Config>, configRead: Option<Config>,
                      tag: string, addReply: nat -> AddReply, removeReply: nat -> RemoveReply): CheckOutcome
  {
    if fetched.None? then FetchFailed
    else if configRead.None? then ConfigUnreadable
    else
      var live := LiveIds(liveRead, tag);
      var removals := if fetched.value == [] then [] else Split(fetched.value, live).1;
      Phases(fetched.value, live, configRead.value, tag, addReply, removeReply, removals)
  }

  /** The corrected cycle: every leftover live id is removed, whether or
      not the directory returned any users. */
  function CheckUsersIntended(fetched: Option<seq<User>>, liveRead: Option<Config>, configRead: Option<Config>,
                              tag: string, addReply: nat -> AddReply, removeReply: nat -> RemoveReply): CheckOutcome
  {
    if fetched.None? then FetchFailed
    else if configRead.None? then ConfigUnreadable
    else
      var live := LiveIds(liveRead, tag);
      Phases(fetched.value, live, configRead.value, tag, addReply, removeReply, Split(fetched.value, live).1)
  }

  /** The two agree whenever the directory returned at least one user; with
      none, the cycle as written calls nothing and writes nothing. */
  lemma AsWrittenAgrees(fetched: Option<seq<User>>, liveRead: Option<Config>, configRead: Option<Config>,
                        tag: string, addReply: nat -> AddReply, removeReply: nat -> RemoveReply)
    ensures fetched.Some? && fetched.value == [] && configRead.Some? ==>
              CheckUsers(fetched, liveRead, configRead, tag, addReply, removeReply) == Completed([], None)
    ensures fetched.None? || fetched.value != [] || configRead.None? ==>
              CheckUsers(fetched, liveRead, configRead, tag, addReply, removeReply)
              == CheckUsersIntended(fetched, liveRead, configRead, tag, addReply, removeReply)
  {
    if fetched.Some? && fetched.value == [] && configRead.Some? {
      assert AddCalls([]) == [] && RemoveCalls([]) == [];
    }
  }

  lemma ClientsOfAppend(a: seq<User>, b: seq<User>)
    ensures ClientsOf(a + b) == ClientsOf(a) + ClientsOf(b)
  {
  }

  /** The add phase appends, in order, the client of every addition whose
      proxy call did not fail outright to the first inbound carrying `tag`,
      leaves every other inbound alone, and sets the flag exactly when it
      appended something. Without such an inbound nothing changes. */
  lemma {:induction false} ApplyAddsEffect(d: Draft, tag: string, adds: seq<User>, reply: nat -> AddReply, k: nat)
    decreases adds
    ensures Tags(ApplyAdds(d, tag, adds, reply, k).cfg.inbounds) == Tags(d.cfg.inbounds)
    ensures tag !in Tags(d.cfg.inbounds) ==> ApplyAdds(d, tag, adds, reply, k) == d
    ensures tag in Tags(d.cfg.inbounds) ==>
              var r := ApplyAdds(d, tag, adds, reply, k);
              var i := TagIndex(d.cfg, tag).value;
              && r.cfg.inbounds[i].clients == d.cfg.inbounds[i].clients + ClientsOf(AcceptedAdds(adds, reply, k))
              && (forall j :: 0 <= j < |d.cfg.inbounds| && j != i ==> r.cfg.inbounds[j] == d.cfg.inbounds[j])
              && r.changed == (d.changed || AcceptedAdds(adds, reply, k) != [])
  {
    if adds != [] {
      var d' := AddStep(d, tag, adds[0], reply(k));
      ApplyAddsEffect(d', tag, adds[1..], reply, k + 1);
      var head := if reply(k) == AddFailed then [] else [adds[0]];
      assert AcceptedAdds(adds, reply, k) == head + AcceptedAdds(adds[1..], reply, k + 1);
      ClientsOfAppend(head, AcceptedAdds(adds[1..], reply, k + 1));
      assert Tags(d'.cfg.inbounds) == Tags(d.cfg.inbounds);
      if tag in Tags(d.cfg.inbounds) {
        var i := TagIndex(d.cfg, tag).value;
        assert TagIndex(d'.cfg, tag) == TagIndex(d.cfg, tag);
        assert ClientsOf(head) == if reply(k) == AddFailed then [] else [ClientOf(adds[0])];
        assert d'.cfg.inbounds[i].clients == d.cfg.inbounds[i].clients + ClientsOf(head);
        assert d'.changed == (d.changed || head != []);
      }
    } else {
      assert ClientsOf([]) == [];
    }
  }

  /** An add phase that leaves `config_changed` unset has changed nothing. */
  lemma {:induction false} ApplyAddsQuiet(d: Draft, tag: string, adds: seq<User>, reply: nat -> AddReply, k: nat)
    decreases adds
    ensures !ApplyAdds(d, tag, adds, reply, k).changed ==> ApplyAdds(d, tag, adds, reply, k) == d
  {
    if adds != [] {
      var d' := AddStep(d, tag, adds[0], reply(k));
      ApplyAddsQuiet(d', tag, adds[1..], reply, k + 1);
      ApplyAddsMonotone(d', tag, adds[1..], reply, k + 1);
    }
  }

  lemma {:induction false} ApplyAddsMonotone(d: Draft, tag: string, adds: seq<User>, reply: nat -> AddReply, k: nat)
    decreases adds
    ensures d.changed ==> ApplyAdds(d, tag, adds, reply, k).changed
  {
    if adds != [] {
      ApplyAddsMonotone(AddStep(d, tag, adds[0], reply(k)), tag, adds[1..], reply, k + 1);
    }
  }

  /** A remove phase that leaves `config_changed` unset has changed nothing. */
  lemma {:induction false} ApplyRemovesQuiet(d: Draft, tag: string, ids: seq<UserId>, reply: nat -> RemoveReply, j: nat)
    decreases ids
    ensures !ApplyRemoves(d, tag, ids, reply, j).changed ==> ApplyRemoves(d, tag, ids, reply, j) == d
  {
    if ids != [] {
      var d' := RemoveStep(d, tag, ids[0], reply(j));
      ApplyRemovesQuiet(d', tag, ids[1..], reply, j + 1);
      ApplyRemovesMonotone(d', tag, ids[1..], reply, j + 1);
    }
  }

  lemma {:induction false} ApplyRemovesMonotone(d: Draft, tag: string, ids: seq<UserId>, reply: nat -> RemoveReply, j: nat)
    decreases ids
    ensures d.changed ==> ApplyRemoves(d, tag, ids, reply, j).changed
  {
    if ids != [] {
      ApplyRemovesMonotone(RemoveStep(d, tag, ids[0], reply(j)), tag, ids[1..], reply, j + 1);
    }
  }

  lemma MultisetMinusMinus(a: multiset<UserId>, b: multiset<UserId>, c: multiset<UserId>)
    ensures (a - b) - c == a - (b + c)
  {
    assert forall y :: ((a - b) - c)[y] == (a - (b + c))[y];
  }

  /** The remove phase only ever touches the first inbound carrying `tag`,
      and changes nothing when there is no such inbound. */
  lemma {:induction false} ApplyRemovesFrame(d: Draft, tag: string, ids: seq<UserId>, reply: nat -> RemoveReply, j: nat)
    decreases ids
    ensures Tags(ApplyRemoves(d, tag, ids, reply, j).cfg.inbounds) == Tags(d.cfg.inbounds)
    ensures tag !in Tags(d.cfg.inbounds) ==> ApplyRemoves(d, tag, ids, reply, j) == d
    ensures tag in Tags(d.cfg.inbounds) ==>
              var r := ApplyRemoves(d, tag, ids, reply, j);
              var i := TagIndex(d.cfg, tag).value;
              forall n :: 0 <= n < |d.cfg.inbounds| && n != i ==> r.cfg.inbounds[n] == d.cfg.inbounds[n]
  {
    if ids != [] {
      ApplyRemovesFrame(RemoveStep(d, tag, ids[0], reply(j)), tag, ids[1..], reply, j + 1);
    }
  }

  /** The remove phase takes one occurrence of every removal whose proxy call
      did not fail outright out of the live ids of the inbound. */
  lemma {:induction false} ApplyRemovesCounts(d: Draft, tag: string, ids: seq<UserId>, reply: nat -> RemoveReply, j: nat)
    decreases ids
    ensures multiset(LiveIds(Some(ApplyRemoves(d, tag, ids, reply, j).cfg), tag))
            == multiset(LiveIds(Some(d.cfg), tag)) - multiset(AcceptedRemoves(ids, reply, j))
  {
    if ids == [] {
      assert multiset(AcceptedRemoves(ids, reply, j)) == multiset{};
    } else {
      var d' := RemoveStep(d, tag, ids[0], reply(j));
      ApplyRemovesCounts(d', tag, ids[1..], reply, j + 1);
      var live := LiveIds(Some(d.cfg), tag);
      var rest := AcceptedRemoves(ids[1..], reply, j + 1);
      if reply(j) != RemoveFailed {
        RemoveFirstMultiset(live, ids[0]);
        assert AcceptedRemoves(ids, reply, j) == [ids[0]] + rest;
        MultisetMinusMinus(multiset(live), multiset{ids[0]}, multiset(rest));
      } else {
        assert AcceptedRemoves(ids, reply, j) == rest;
      }
    }
  }

  /** `config_changed` is set by the remove phase exactly when a client was
      popped, and when none was the document is unchanged. */
  lemma {:induction false} ApplyRemovesFlag(d: Draft, tag: string, ids: seq<UserId>, reply: nat -> RemoveReply, j: nat)
    decreases ids
    ensures var r := ApplyRemoves(d, tag, ids, reply, j);
            && |LiveIds(Some(r.cfg), tag)| <= |LiveIds(Some(d.cfg), tag)|
            && (r.changed <==> d.changed || |LiveIds(Some(r.cfg), tag)| < |LiveIds(Some(d.cfg), tag)|)
            && (|LiveIds(Some(r.cfg), tag)| == |LiveIds(Some(d.cfg), tag)| ==> r.cfg == d.cfg)
  {
    if ids != [] {
      ApplyRemovesFlag(RemoveStep(d, tag, ids[0], reply(j)), tag, ids[1..], reply, j + 1);
    }
  }

  /** The config document on disk after a cycle that read `cfg`. */
  function FileAfter(cfg: Config, out: CheckOutcome): Config
  {
    if out.Completed? && out.written.Some? then out.written.value else cfg
  }

  /** Ids of the users the cycle asked the proxy to add, in call order. */
  function AddedIds(calls: seq<ProxyCall>): seq<UserId>
  {
    if calls == [] then []
    else (if calls[0].AddUser? then [calls[0].user.userId] else []) + AddedIds(calls[1..])
  }

  /** Ids the cycle asked the proxy to remove, in call order. */
  function RemovedIds(calls: seq<ProxyCall>): seq<UserId>
  {
    if calls == [] then []
    else (if calls[0].RemoveUser? then [calls[0].id] else []) + RemovedIds(calls[1..])
  }

  lemma AddCallsCons(adds: seq<User>)
    requires adds != []
    ensures AddCalls(adds) == [AddUser(adds[0])] + AddCalls(adds[1..])
  {
    var r := [AddUser(adds[0])] + AddCalls(adds[1..]);
    forall n | 0 <= n < |adds|
      ensures AddCalls(adds)[n] == r[n]
    {
      if n > 0 {
        assert r[n] == AddCalls(adds[1..])[n - 1];
      }
    }
  }

  lemma RemoveCallsCons(ids: seq<UserId>)
    requires ids != []
    ensures RemoveCalls(ids) == [RemoveUser(ids[0])] + RemoveCalls(ids[1..])
  {
    var r := [RemoveUser(ids[0])] + RemoveCalls(ids[1..]);
    forall n | 0 <= n < |ids|
      ensures RemoveCalls(ids)[n] == r[n]
    {
      if n > 0 {
        assert r[n] == RemoveCalls(ids[1..])[n - 1];
      }
    }
  }

  /** The add calls of a cycle are the additions, in order. */
  lemma {:induction false} CallIdsAdded(adds: seq<User>, ids: seq<UserId>)
    ensures AddedIds(AddCalls(adds) + RemoveCalls(ids)) == UserIds(adds)
  {
    var calls := AddCalls(adds) + RemoveCalls(ids);
    if adds != [] {
      var tail := AddCalls(adds[1..]) + RemoveCalls(ids);
      AddCallsCons(adds);
      assert calls == [AddUser(adds[0])] + tail;
      CallIdsAdded(adds[1..], ids);
      assert UserIds(adds) == [adds[0].userId] + UserIds(adds[1..]);
    } else if ids != [] {
      assert AddCalls([]) == [];
      RemoveCallsCons(ids);
      assert calls == [RemoveUser(ids[0])] + (AddCalls([]) + RemoveCalls(ids[1..]));
      CallIdsAdded([], ids[1..]);
    } else {
      assert calls == [];
      assert UserIds(adds) == [];
    }
  }

  /** The remove calls of a cycle are the removals, in order. */
  lemma {:induction false} CallIdsRemoved(adds: seq<User>, ids: seq<UserId>)
    ensures RemovedIds(AddCalls(adds) + RemoveCalls(ids)) == ids
  {
    var calls := AddCalls(adds) + RemoveCalls(ids);
    if adds != [] {
      var tail := AddCalls(adds[1..]) + RemoveCalls(ids);
      AddCallsCons(adds);
      assert calls == [AddUser(adds[0])] + tail;
      CallIdsRemoved(adds[1..], ids);
    } else if ids != [] {
      assert AddCalls([]) == [];
      RemoveCallsCons(ids);
      assert calls == [RemoveUser(ids[0])] + (AddCalls([]) + RemoveCalls(ids[1..]));
      CallIdsRemoved([], ids[1..]);
      assert ids == [ids[0]] + ids[1..];
    } else {
      assert calls == [];
    }
  }

  lemma CallIds(adds: seq<User>, ids: seq<UserId>)
    ensures AddedIds(AddCalls(adds) + RemoveCalls(ids)) == UserIds(adds)
    ensures RemovedIds(AddCalls(adds) + RemoveCalls(ids)) == ids
  {
    CallIdsAdded(adds, ids);
    CallIdsRemoved(adds, ids);
  }

  /** Whatever the proxy replies, a cycle with a fetched user list and a
      readable config asks the proxy to add exactly the unmatched desired ids
      and to remove exactly the unmatched live ids, unless the directory
      returned no users, in which case it removes nobody: the same calls it
      makes when every single call fails. */
  lemma AttemptsEveryDifference(desired: seq<User>, liveRead: Option<Config>, cfg: Config, tag: string,
                                addReply: nat -> AddReply, removeReply: nat -> RemoveReply)
    ensures var out := CheckUsers(Some(desired), liveRead, Some(cfg), tag, addReply, removeReply);
            && out.Completed?
            && multiset(AddedIds(out.calls)) == multiset(UserIds(desired)) - multiset(LiveIds(liveRead, tag))
            && multiset(RemovedIds(out.calls))
               == (if desired == [] then multiset{} else multiset(LiveIds(liveRead, tag)) - multiset(UserIds(desired)))
            && out.calls == CheckUsers(Some(desired), liveRead, Some(cfg), tag, (k: nat) => AddFailed, (j: nat) => RemoveFailed).calls
  {
    var live := LiveIds(liveRead, tag);
    var split := Split(desired, live);
    SplitCounts(desired, live);
    var removals := if desired == [] then [] else split.1;
    CallIds(split.0, removals);
  }

  /** The corrected cycle asks the proxy to remove exactly the unmatched live
      ids, an empty directory included. */
  lemma IntendedRemovesEveryLeftover(desired: seq<User>, liveRead: Option<Config>, cfg: Config, tag: string,
                                     addReply: nat -> AddReply, removeReply: nat -> RemoveReply)
    ensures var out := CheckUsersIntended(Some(desired), liveRead, Some(cfg), tag, addReply, removeReply);
            && out.Completed?
            && multiset(AddedIds(out.calls)) == multiset(UserIds(desired)) - multiset(LiveIds(liveRead, tag))
            && multiset(RemovedIds(out.calls)) == multiset(LiveIds(liveRead, tag)) - multiset(UserIds(desired))
  {
    var split := Split(desired, LiveIds(liveRead, tag));
    SplitCounts(desired, LiveIds(liveRead, tag));
    CallIds(split.0, split.1);
  }

  /** If the desired ids are the live ids (in any order), the cycle calls
      nothing and writes nothing. */
  lemma InSyncIsNoOp(desired: seq<User>, liveRead: Option<Config>, cfg: Config, tag: string,
                     addReply: nat -> AddReply, removeReply: nat -> RemoveReply)
    requires multiset(UserIds(desired)) == multiset(LiveIds(liveRead, tag))
    ensures CheckUsers(Some(desired), liveRead, Some(cfg), tag, addReply, removeReply) == Completed([], None)
  {
    var live := LiveIds(liveRead, tag);
    var split := Split(desired, live);
    assert split.0 == [] && split.1 == [] by {
      SplitCounts(desired, live);
      assert |UserIds(split.0)| == |multiset(UserIds(split.0))| == 0;
      assert |split.1| == |multiset(split.1)| == 0;
    }
    assert AddCalls([]) + RemoveCalls([]) == [];
    assert Phases(desired, live, cfg, tag, addReply, removeReply, []) == Completed([], None);
  }

  lemma AllAcceptedAdds(adds: seq<User>, reply: nat -> AddReply, k: nat)
    requires forall n :: reply(n) != AddFailed
    ensures AcceptedAdds(adds, reply, k) == adds
  {
  }

  lemma AllAcceptedRemoves(ids: seq<UserId>, reply: nat -> RemoveReply, j: nat)
    requires forall n :: reply(n) != RemoveFailed
    ensures AcceptedRemoves(ids, reply, j) == ids
  {
  }

  lemma RefillCounts(live: multiset<UserId>, desired: multiset<UserId>)
    ensures (live + (desired - live)) - (live - desired) == desired
  {
    assert forall y :: ((live + (desired - live)) - (live - desired))[y] == desired[y];
  }

  /** On ids, the add phase appends the accepted additions to the live ids. */
  lemma AddPhaseLiveIds(d: Draft, tag: string, adds: seq<User>, reply: nat -> AddReply, k: nat)
    requires tag in Tags(d.cfg.inbounds)
    ensures LiveIds(Some(ApplyAdds(d, tag, adds, reply, k).cfg), tag)
            == LiveIds(Some(d.cfg), tag) + UserIds(AcceptedAdds(adds, reply, k))
  {
    var r := ApplyAdds(d, tag, adds, reply, k);
    var accepted := AcceptedAdds(adds, reply, k);
    var i := TagIndex(d.cfg, tag).value;
    var before := d.cfg.inbounds[i].clients;
    assert TagIndex(r.cfg, tag) == Some(i) && r.cfg.inbounds[i].clients == before + ClientsOf(accepted) by {
      ApplyAddsEffect(d, tag, adds, reply, k);
    }
    assert Ids(before + ClientsOf(accepted)) == Ids(before) + UserIds(accepted);
  }

  /** When the live ids were read from the same document the cycle edits, that
      document has an inbound for `tag`, and no proxy call fails outright, the
      document left on disk by the corrected cycle holds exactly the desired
      ids for that inbound. */
  lemma Converges(desired: seq<User>, cfg: Config, tag: string,
                  addReply: nat -> AddReply, removeReply: nat -> RemoveReply)
    requires tag in Tags(cfg.inbounds)
    requires forall k :: addReply(k) != AddFailed
    requires forall j :: removeReply(j) != RemoveFailed
    ensures var out := CheckUsersIntended(Some(desired), Some(cfg), Some(cfg), tag, addReply, removeReply);
            multiset(LiveIds(Some(FileAfter(cfg, out)), tag)) == multiset(UserIds(desired))
  {
    var live := LiveIds(Some(cfg), tag);
    var split := Split(desired, live);
    var adds, left := split.0, split.1;
    var d0 := Draft(cfg, false);
    var d1 := ApplyAdds(d0, tag, adds, addReply, 0);
    var d2 := ApplyRemoves(d1, tag, left, removeReply, 0);
    assert CheckUsersIntended(Some(desired), Some(cfg), Some(cfg), tag, addReply, removeReply)
           == Completed(AddCalls(adds) + RemoveCalls(left), if d2.changed then Some(d2.cfg) else None);
    SplitCounts(desired, live);
    AllAcceptedAdds(adds, addReply, 0);
    AllAcceptedRemoves(left, removeReply, 0);
    AddPhaseLiveIds(d0, tag, adds, addReply, 0);
    ApplyRemovesCounts(d1, tag, left, removeReply, 0);
    RefillCounts(multiset(live), multiset(UserIds(desired)));
    assert multiset(LiveIds(Some(d2.cfg), tag)) == multiset(UserIds(desired)) by {
      assert multiset(live + UserIds(adds)) == multiset(live) + multiset(UserIds(adds));
    }
    var out := CheckUsersIntended(Some(desired), Some(cfg), Some(cfg), tag, addReply, removeReply);
    assert out.written == (if d2.changed then Some(d2.cfg) else None);
    ApplyRemovesQuiet(d1, tag, left, removeReply, 0);
    ApplyRemovesMonotone(d1, tag, left, removeReply, 0);
    ApplyAddsQuiet(d0, tag, adds, addReply, 0);
    assert FileAfter(cfg, out) == d2.cfg;
  }

  /** The cycle as written converges the same way whenever the directory
      returned at least one user. */
  lemma ConvergesAsWritten(desired: seq<User>, cfg: Config, tag: string,
                           addReply: nat -> AddReply, removeReply: nat -> RemoveReply)
    requires desired != []
    requires tag in Tags(cfg.inbounds)
    requires forall k :: addReply(k) != AddFailed
    requires forall j :: removeReply(j) != RemoveFailed
    ensures var out := CheckUsers(Some(desired), Some(cfg), Some(cfg), tag, addReply, removeReply);
            multiset(LiveIds(Some(FileAfter(cfg, out)), tag)) == multiset(UserIds(desired))
  {
    AsWrittenAgrees(Some(desired), Some(cfg), Some(cfg), tag, addReply, removeReply);
    Converges(desired, cfg, tag, addReply, removeReply);
  }

  /** Reconciling twice with the same desired users and a proxy that accepts
      every call: the second run calls nothing and writes nothing. */
  lemma SecondRunIsNoOp(desired: seq<User>, cfg: Config, tag: string,
                        addReply: nat -> AddReply, removeReply: nat -> RemoveReply,
                        addReply2: nat -> AddReply, removeReply2: nat -> RemoveReply)
    requires tag in Tags(cfg.inbounds)
    requires forall k :: addReply(k) != AddFailed
    requires forall j :: removeReply(j) != RemoveFailed
    ensures var cfg' := FileAfter(cfg, CheckUsers(Some(desired), Some(cfg), Some(cfg), tag, addReply, removeReply));
            CheckUsers(Some(desired), Some(cfg'), Some(cfg'), tag, addReply2, removeReply2) == Completed([], None)
  {
    var cfg' := FileAfter(cfg, CheckUsers(Some(desired), Some(cfg), Some(cfg), tag, addReply, removeReply));
    if desired == [] {
      AsWrittenAgrees(Some(desired), Some(cfg), Some(cfg), tag, addReply, removeReply);
      AsWrittenAgrees(Some(desired), Some(cfg'), Some(cfg'), tag, addReply2, removeReply2);
    } else {
      ConvergesAsWritten(desired, cfg, tag, addReply, removeReply);
      InSyncIsNoOp(desired, Some(cfg'), cfg', tag, addReply2, removeReply2);
    }
  }

  /** An empty directory with one live user: as written the cycle calls
      nothing and keeps the user in the document; the corrected cycle
      removes it on the proxy and pops it from the document. */
  lemma EmptyDirectoryRemovesNobody(addReply: nat -> AddReply, removeReply: nat -> RemoveReply)
    ensures var cfg := Config([Inbound("proxy", [Client("a", "a", 0, 2)])]);
            && CheckUsers(Some([]), Some(cfg), Some(cfg), "proxy", addReply, removeReply) == Completed([], None)
            && CheckUsersIntended(Some([]), Some(cfg), Some(cfg), "proxy", addReply, (j: nat) => Removed)
               == Completed([RemoveUser("a")], Some(Config([Inbound("proxy", [])])))
  {
    var cfg := Config([Inbound("proxy", [Client("a", "a", 0, 2)])]);
    AsWrittenAgrees(Some([]), Some(cfg), Some(cfg), "proxy", addReply, removeReply);
    assert Tags(cfg.inbounds) == ["proxy"];
    assert LiveIds(Some(cfg), "proxy") == ["a"];
    assert RemoveCalls(["a"]) == [RemoveUser("a")];
    assert AddCalls([]) == [];
    assert Split([], ["a"]) == ([], ["a"]);
    var d := Draft(cfg, false);
    assert ApplyAdds(d, "proxy", [], addReply, 0) == d;
    assert TagIndex(cfg, "proxy") == Some(0);
    assert Ids(cfg.inbounds[0].clients) == ["a"];
    assert IndexOf(Ids(cfg.inbounds[0].clients), "a") == Some(0);
    assert RemoveAt(cfg.inbounds[0].clients, 0) == [];
    assert cfg.inbounds[0 := cfg.inbounds[0].(clients := [])] == [Inbound("proxy", [])];
    assert RemoveClient(cfg, "proxy", "a") == (Config([Inbound("proxy", [])]), true);
    assert ApplyRemoves(d, "proxy", ["a"], (j: nat) => Removed, 0) == Draft(Config([Inbound("proxy", [])]), true);
  }

  /** The worked reconciliation: desired u1 and u2 against live u2 and u3,
      with a proxy that accepts every call, adds u1, removes u3 and leaves
      the clients u2 then u1. */
  lemma ReconcileExample()
    ensures var u1 := User("u1", 0, 2);
            var u2 := User("u2", 0, 2);
            var cfg := Config([Inbound("proxy", [ClientOf(u2), Client("u3", "u3", 0, 2)])]);
            CheckUsers(Some([u1, u2]), Some(cfg), Some(cfg), "proxy", (k: nat) => Added, (j: nat) => Removed)
            == Completed([AddUser(u1), RemoveUser("u3")], Some(Config([Inbound("proxy", [ClientOf(u2), ClientOf(u1)])])))
  {
    var u1 := User("u1", 0, 2);
    var u2 := User("u2", 0, 2);
    var cfg := Config([Inbound("proxy", [ClientOf(u2), Client("u3", "u3", 0, 2)])]);
    ExampleSplit();
    ExampleAdd();
    ExampleRemove();
    var d2 := Draft(Config([Inbound("proxy", [ClientOf(u2), ClientOf(u1)])]), true);
    assert Phases([u1, u2], ["u2", "u3"], cfg, "proxy", (k: nat) => Added, (j: nat) => Removed, ["u3"])
           == Completed(AddCalls([u1]) + RemoveCalls(["u3"]), Some(d2.cfg));
    assert AddCalls([u1]) == [AddUser(u1)];
    assert RemoveCalls(["u3"]) == [RemoveUser("u3")];
  }

  /** The example's live ids and its split: u1 is added, u3 is left over. */
  lemma ExampleSplit()
    ensures var cfg := Config([Inbound("proxy", [ClientOf(User("u2", 0, 2)), Client("u3", "u3", 0, 2)])]);
            && LiveIds(Some(cfg), "proxy") == ["u2", "u3"]
            && Split([User("u1", 0, 2), User("u2", 0, 2)], ["u2", "u3"]) == ([User("u1", 0, 2)], ["u3"])
  {
    var u1 := User("u1", 0, 2);
    var u2 := User("u2", 0, 2);
    var live: seq<UserId> := ["u2", "u3"];
    var cfg := Config([Inbound("proxy", [ClientOf(u2), Client("u3", "u3", 0, 2)])]);
    assert TagIndex(cfg, "proxy") == Some(0) by {
      assert Tags(cfg.inbounds) == ["proxy"];
    }
    assert "u2" in live && RemoveFirst(live, "u2") == ["u3"];
    assert [u2][1..] == [];
    assert Split([u2], live) == Split([], ["u3"]) == ([], ["u3"]);
    assert "u1" !in live by {
      assert "u1"[1] != "u2"[1] && "u1"[1] != "u3"[1];
    }
    assert [u1, u2][1..] == [u2];
    assert [u1] + [] == [u1];
  }

  /** The example's add phase appends u1's client after the live ones. */
  lemma ExampleAdd()
    ensures var cfg := Config([Inbound("proxy", [ClientOf(User("u2", 0, 2)), Client("u3", "u3", 0, 2)])]);
            ApplyAdds(Draft(cfg, false), "proxy", [User("u1", 0, 2)], (k: nat) => Added, 0)
            == Draft(Config([Inbound("proxy", [ClientOf(User("u2", 0, 2)), Client("u3", "u3", 0, 2), ClientOf(User("u1", 0, 2))])]), true)
  {
    var u1 := User("u1", 0, 2);
    var cfg := Config([Inbound("proxy", [ClientOf(User("u2", 0, 2)), Client("u3", "u3", 0, 2)])]);
    var cfg1 := Config([Inbound("proxy", [ClientOf(User("u2", 0, 2)), Client("u3", "u3", 0, 2), ClientOf(u1)])]);
    assert TagIndex(cfg, "proxy") == Some(0) by {
      assert Tags(cfg.inbounds) == ["proxy"];
    }
    assert cfg.inbounds[0].clients + [ClientOf(u1)] == cfg1.inbounds[0].clients;
    assert cfg.inbounds[0 := cfg.inbounds[0].(clients := cfg.inbounds[0].clients + [ClientOf(u1)])] == cfg1.inbounds;
    assert AppendClient(cfg, "proxy", ClientOf(u1)) == (cfg1, true);
  }

  /** The example's remove phase pops u3's client and keeps the order of the rest. */
  lemma ExampleRemove()
    ensures var cfg1 := Config([Inbound("proxy", [ClientOf(User("u2", 0, 2)), Client("u3", "u3", 0, 2), ClientOf(User("u1", 0, 2))])]);
            ApplyRemoves(Draft(cfg1, true), "proxy", ["u3"], (j: nat) => Removed, 0)
            == Draft(Config([Inbound("proxy", [ClientOf(User("u2", 0, 2)), ClientOf(User("u1", 0, 2))])]), true)
  {
    var cfg1 := Config([Inbound("proxy", [ClientOf(User("u2", 0, 2)), Client("u3", "u3", 0, 2), ClientOf(User("u1", 0, 2))])]);
    var cfg2 := Config([Inbound("proxy", [ClientOf(User("u2", 0, 2)), ClientOf(User("u1", 0, 2))])]);
    assert TagIndex(cfg1, "proxy") == Some(0) by {
      assert Tags(cfg1.inbounds) == ["proxy"];
    }
    var clients := cfg1.inbounds[0].clients;
    assert Ids(clients) == ["u2", "u3", "u1"];
    assert IndexOf(Ids(clients), "u3") == Some(1) by {
      assert "u3"[1] != "u2"[1];
    }
    assert RemoveAt(clients, 1) == cfg2.inbounds[0].clients;
    assert cfg1.inbounds[0 := cfg1.inbounds[0].(clients := RemoveAt(clients, 1))] == cfg2.inbounds;
    assert RemoveClient(cfg1, "proxy", "u3") == (cfg2, true);
  }

  /** Lines 69-96: the loop over the desired users. A matched id is struck
      off the working list; an unmatched user is added on the proxy (the k-th
      add call gets `addReply(k)`) and, unless that call failed outright,
      appended to the document. */
  method AddPhase(desired: seq<User>, live: seq<UserId>, cfg0: Config, tag: string, addReply: nat -> AddReply)
    returns (working: seq<UserId>, cfg: Config, changed: bool, calls: seq<ProxyCall>)
    ensures working == Split(desired, live).1
    ensures Draft(cfg, changed) == ApplyAdds(Draft(cfg0, false), tag, Split(desired, live).0, addReply, 0)
    ensures calls == AddCalls(Split(desired, live).0)
  {
    working, cfg, changed, calls := live, cfg0, false, [];
    ghost var adds: seq<User> := [];
    ghost var todo := Split(desired, live).0;
    var k := 0;
    var i := 0;
    assert desired[i..] == desired;
    while i < |desired|
      invariant 0 <= i <= |desired|
      invariant k == |adds|
      invariant todo == Split(desired[i..], working).0
      invariant Split(desired, live).0 == adds + todo
      invariant Split(desired, live).1 == Split(desired[i..], working).1
      invariant ApplyAdds(Draft(cfg0, false), tag, Split(desired, live).0, addReply, 0)
                == ApplyAdds(Draft(cfg, changed), tag, todo, addReply, k)
      invariant calls == AddCalls(adds)
    {
      var user := desired[i];
      SplitStep(desired, i, working);
      if user.userId in working {
        working := RemoveFirst(working, user.userId);
      } else {
        AddTurn(Split(desired, live).0, adds, todo, user, Draft(cfg, changed), tag, addReply, k);
        calls := calls + [AddUser(user)];
        adds := adds + [user];
        cfg, changed := AddOne(cfg, changed, tag, user, addReply(k));
        k := k + 1;
        todo := todo[1..];
      }
      i := i + 1;
    }
    assert desired[i..] == [];
  }

  /** One addition in the loop over the desired users: the user heads the
      additions still to do, moves to the ones done, and its step is the
      next one the add phase applies. */
  lemma AddTurn(all: seq<User>, adds: seq<User>, todo: seq<User>, user: User, d: Draft, tag: string,
                reply: nat -> AddReply, k: nat)
    requires todo != [] && todo[0] == user
    requires all == adds + todo
    ensures all == (adds + [user]) + todo[1..]
    ensures AddCalls(adds + [user]) == AddCalls(adds) + [AddUser(user)]
    ensures ApplyAdds(d, tag, todo, reply, k) == ApplyAdds(AddStep(d, tag, user, reply(k)), tag, todo[1..], reply, k + 1)
  {
    assert todo == [user] + todo[1..];
  }

  /** Lines 74-96 for one addition, after the proxy replied `reply`: an
      `EmailExistsError` falls through to the append, any other error skips it. */
  method AddOne(cfg: Config, changed: bool, tag: string, user: User, reply: AddReply)
    returns (cfg': Config, changed': bool)
    ensures Draft(cfg', changed') == AddStep(Draft(cfg, changed), tag, user, reply)
  {
    cfg', changed' := cfg, changed;
    if reply == AddFailed {
      return;
    }
    var appended;
    cfg', appended := AppendToInbound(cfg, tag, ClientOf(user));
    if appended {
      changed' := true;
    }
  }

  /** Lines 99-115 for one removal, after the proxy replied `reply`: an
      `EmailNotFoundError` falls through to the pop, any other error skips it. */
  method RemoveOne(cfg: Config, changed: bool, tag: string, id: UserId, reply: RemoveReply)
    returns (cfg': Config, changed': bool)
    ensures Draft(cfg', changed') == RemoveStep(Draft(cfg, changed), tag, id, reply)
  {
    cfg', changed' := cfg, changed;
    if reply == RemoveFailed {
      return;
    }
    var popped;
    cfg', popped := PopFromInbound(cfg, tag, id);
    if popped {
      changed' := true;
    }
  }

  /** One turn of the loop over the desired users. */
  lemma SplitStep(desired: seq<User>, i: nat, working: seq<UserId>)
    requires i < |desired|
    ensures var u := desired[i];
            Split(desired[i..], working)
            == if u.userId in working then Split(desired[i + 1..], RemoveFirst(working, u.userId))
               else ([u] + Split(desired[i + 1..], working).0, Split(desired[i + 1..], working).1)
  {
    assert desired[i..][1..] == desired[i + 1..];
  }

  /** Lines 97-115: the loop over the leftover ids. Each is removed on the
      proxy (the j-th remove call gets `removeReply(j)`) and, unless that
      call failed outright, popped from the document. `userBound` says
      whether the loop over the desired users bound `user`, which the log
      line before the call reads; when it did not, that line raises, the
      handler skips the id and nothing is removed. */
  method RemovePhase(leftover: seq<UserId>, cfg0: Config, changed0: bool, tag: string,
                     removeReply: nat -> RemoveReply, userBound: bool)
    returns (cfg: Config, changed: bool, calls: seq<ProxyCall>)
    ensures Draft(cfg, changed) == ApplyRemoves(Draft(cfg0, changed0), tag, if userBound then leftover else [], removeReply, 0)
    ensures calls == RemoveCalls(if userBound then leftover else [])
  {
    cfg, changed, calls := cfg0, changed0, [];
    var j := 0;
    while j < |leftover|
      invariant 0 <= j <= |leftover|
      invariant userBound ==> ApplyRemoves(Draft(cfg0, changed0), tag, leftover, removeReply, 0)
                              == ApplyRemoves(Draft(cfg, changed), tag, leftover[j..], removeReply, j)
      invariant userBound ==> calls == RemoveCalls(leftover[..j])
      invariant !userBound ==> cfg == cfg0 && changed == changed0 && calls == []
    {
      var id := leftover[j];
      if userBound {
        RemoveTurn(leftover, j, Draft(cfg, changed), tag, removeReply);
        calls := calls + [RemoveUser(id)];
        cfg, changed := RemoveOne(cfg, changed, tag, id, removeReply(j));
      }
      j := j + 1;
    }
    assert leftover[..j] == leftover;
    assert RemoveCalls([]) == [];
  }

  /** One turn of the loop over the leftover ids: the id's step is the next
      one the remove phase applies, and its call is the next one made. */
  lemma RemoveTurn(ids: seq<UserId>, j: nat, d: Draft, tag: string, reply: nat -> RemoveReply)
    requires j < |ids|
    ensures ApplyRemoves(d, tag, ids[j..], reply, j)
            == ApplyRemoves(RemoveStep(d, tag, ids[j], reply(j)), tag, ids[j + 1..], reply, j + 1)
    ensures RemoveCalls(ids[..j + 1]) == RemoveCalls(ids[..j]) + [RemoveUser(ids[j])]
  {
    assert ids[j..][1..] == ids[j + 1..];
    assert ids[..j + 1] == ids[..j] + [ids[j]];
  }

  /** `loop_check_users` (lines 61-118): fetch the desired users, read the
      live ids and the document, run both loops, and write the document back
      only if `config_changed` was set. */
  method CheckUsersCycle(response: UsersResponse, liveRead: Option<Config>, configRead: Option<Config>,
                         tag: string, addReply: nat -> AddReply, removeReply: nat -> RemoveReply)
    returns (out: CheckOutcome)
    ensures out == CheckUsers(GetEnableUsers(response), liveRead, configRead, tag, addReply, removeReply)
    ensures GetEnableUsers(response).None? ==> out == FetchFailed
    ensures out.Completed? ==> configRead.Some?
  {
    var fetched := GetEnableUsers(response);
    if fetched.None? {
      return FetchFailed;
    }
    var live := GetV2rayUsers(liveRead, tag);
    if configRead.None? {
      return ConfigUnreadable;
    }
    var leftover, cfg, changed, addCalls := AddPhase(fetched.value, live, configRead.value, tag, addReply);
    var removeCalls;
    cfg, changed, removeCalls := RemovePhase(leftover, cfg, changed, tag, removeReply, fetched.value != []);
    if changed {
      out := Completed(addCalls + removeCalls, Some(cfg));
    } else {
      out := Completed(addCalls + removeCalls, None);
    }
  }
}
