/** The store object itself: the fields its actions assign, and the code each action
    runs before its first await, proved to be the machine's step. */
module WcStoreActions {
  import opened TxTypes
  import opened WcStore

  predicate DistinctKeys(q: seq<Replay>) {
    forall i, j :: 0 <= i < j < |q| ==> q[i].key != q[j].key
  }

  lemma {:induction false} WithoutAbsent(q: seq<Replay>, key: Key)
    requires forall i :: 0 <= i < |q| ==> q[i].key != key
    ensures Without(q, key) == q
  {
    if q != [] { WithoutAbsent(q[1..], key); }
  }

  /** The first match is the one that goes. */
  lemma {:induction false} WithoutAt(q: seq<Replay>, key: Key, i: nat)
    requires i < |q| && q[i].key == key && forall j :: 0 <= j < i ==> q[j].key != key
    ensures Without(q, key) == q[..i] + q[i + 1..]
  {
    if i > 0 {
      WithoutAt(q[1..], key, i - 1);
      assert q[1..][..i - 1] == q[1..i];
      assert [q[0]] + q[1..i] == q[..i];
    }
  }

  lemma WithoutStaysDistinct(q: seq<Replay>, i: nat)
    requires DistinctKeys(q) && i < |q|
    ensures DistinctKeys(q[..i] + q[i + 1..])
  {}

  lemma WithoutKeepsOthers(q: seq<Replay>, i: nat)
    requires DistinctKeys(q) && i < |q|
    ensures forall x :: x in q[..i] + q[i + 1..] <==> x in q && x.key != q[i].key
  {
    var rest := q[..i] + q[i + 1..];
    assert q == q[..i] + [q[i]] + q[i + 1..];
    forall x | x in rest ensures x in q && x.key != q[i].key {
      var j :| 0 <= j < |rest| && rest[j] == x;
      assert x == q[if j < i then j else j + 1];
    }
  }

  /** Queueing keeps one entry for each request: the newest, at the end, with the
      others untouched and in order. */
  lemma {:induction false} QueueStaysDistinct(q: seq<Replay>, r: Replay)
    requires DistinctKeys(q)
    ensures DistinctKeys(Without(q, r.key) + [r])
    ensures forall x :: x in Without(q, r.key) <==> x in q && x.key != r.key
  {
    if i: nat :| i < |q| && q[i].key == r.key {
      WithoutAt(q, r.key, i);
      WithoutKeepsOthers(q, i);
      WithoutStaysDistinct(q, i);
    } else {
      WithoutAbsent(q, r.key);
    }
    hide Without;
  }

  /** An ending drops exactly the entries it hits that are not for local recovery, and
      keeps the others in order: the two halves of a queue are treated apart. */
  lemma {:induction false} EndDropsExactlyTheHit(q: seq<Replay>, hit: Key -> bool, i: nat)
    requires i <= |q|
    ensures forall r :: r in EndQueue(q, hit) <==> r in q && !(hit(r.key) && !r.local)
    ensures EndQueue(q, hit) == EndQueue(q[..i], hit) + EndQueue(q[i..], hit)
  {
    if q != [] {
      EndDropsExactlyTheHit(q[1..], hit, if i > 0 then i - 1 else 0);
      assert q == [q[0]] + q[1..];
      if i > 0 {
        assert q[..i] == [q[0]] + q[1..][..i - 1] && q[i..] == q[1..][i - 1..];
        EndQueueStep(q[0], q[1..][..i - 1], hit);
      } else {
        assert q[..i] == [] && q[i..] == q;
      }
    }
  }

  lemma EndQueueStep(r: Replay, q: seq<Replay>, hit: Key -> bool)
    ensures EndQueue([r] + q, hit) == (if hit(r.key) && !r.local then [] else [r]) + EndQueue(q, hit)
  {
    assert ([r] + q)[1..] == q;
  }

  lemma {:induction false} EndQueueTwice(q: seq<Replay>, hit: Key -> bool)
    ensures EndQueue(EndQueue(q, hit), hit) == EndQueue(q, hit)
  {
    if q != [] {
      EndQueueTwice(q[1..], hit);
      EndQueueStep(q[0], EndQueue(q[1..], hit), hit);
    }
  }

  lemma EndActionsTwice(actions: map<nat, Action>, hit: Key -> bool)
    ensures EndActions(EndActions(actions, hit), hit) == EndActions(actions, hit)
  {}

  /** The deletion and the expiry of a session may both be reported: whatever the first
      report did, the second changes nothing. */
  lemma EndingTwiceIsOnce(s: State, hit: Key -> bool)
    ensures End(End(s, hit), hit) == End(s, hit)
  {
    var u := End(s, hit);
    EndQueueTwice(s.queue, hit);
    EndActionsTwice(s.actions, hit);
    assert EndActions(u.actions, hit) == u.actions;
    hide EndQueue, EndActions;
  }

  class WalletConnectStore {
    var request: Option<Request>
    var preparingRequest: Option<Slot>
    var pendingReplays: seq<Replay>
    var next: nat

    /** The object is where the machine's state `s` says. */
    ghost predicate Agrees(s: State)
      reads this
    {
      request == s.request && preparingRequest == s.preparing && pendingReplays == s.queue && next == s.next
    }

    constructor (content: Key -> Intent)
      ensures Agrees(Initial(content))
    {
      request, preparingRequest, pendingReplays, next := None, None, [], 1;
    }

    method EnqueuePendingReplay(entry: Replay, ghost s: State)
      requires Agrees(s)
      modifies this
      ensures Agrees(Enqueue(s, entry))
      ensures pendingReplays != [] && pendingReplays[|pendingReplays| - 1] == entry
      ensures old(DistinctKeys(pendingReplays)) ==>
                && DistinctKeys(pendingReplays)
                && forall r :: r in pendingReplays <==> r == entry || (r in old(pendingReplays) && r.key != entry.key)
    {
      var i := 0;
      while i < |pendingReplays| && pendingReplays[i].key != entry.key
        invariant i <= |pendingReplays|
        invariant forall j :: 0 <= j < i ==> pendingReplays[j].key != entry.key
      {
        i := i + 1;
      }
      if i < |pendingReplays| {
        WithoutAt(pendingReplays, entry.key, i);
        pendingReplays := pendingReplays[..i] + pendingReplays[i + 1..];
      } else {
        WithoutAbsent(pendingReplays, entry.key);
      }
      pendingReplays := pendingReplays + [entry];
      if old(DistinctKeys(pendingReplays)) { QueueStaysDistinct(old(pendingReplays), entry); }
    }

    /** The loop of handleSessionEnded and handleRequestExpired, from the back so that
        removals do not shift what is still to be looked at. */
    method DropEndedReplays(hit: Key -> bool)
      modifies this`pendingReplays
      ensures pendingReplays == EndQueue(old(pendingReplays), hit)
      ensures forall r :: r in pendingReplays <==> r in old(pendingReplays) && !(hit(r.key) && !r.local)
    {
      var i := |pendingReplays|;
      while i > 0
        invariant 0 <= i <= |old(pendingReplays)| && i <= |pendingReplays|
        invariant pendingReplays[..i] == old(pendingReplays)[..i]
        invariant pendingReplays[i..] == EndQueue(old(pendingReplays)[i..], hit)
      {
        i := i - 1;
        var r := pendingReplays[i];
        assert r == old(pendingReplays)[..i + 1][i];
        assert old(pendingReplays)[i..][1..] == old(pendingReplays)[i + 1..];
        assert pendingReplays[..i] == old(pendingReplays)[..i + 1][..i];
        assert pendingReplays[i..] == [r] + pendingReplays[i + 1..];
        if hit(r.key) && !r.local {
          pendingReplays := pendingReplays[..i] + pendingReplays[i + 1..];
        }
      }
      EndDropsExactlyTheHit(old(pendingReplays), hit, 0);
    }

    /** handleSessionEnded and handleRequestExpired up to the cancellation: the hold to
        cancel is returned. */
    method HandleEnded(hit: Key -> bool, ghost s: State) returns (cancel: Option<nat>)
      requires Agrees(s)
      modifies this
      ensures Agrees(End(s, hit).(next := s.next))
      ensures cancel == if s.request.Some? && request.None? then Some(s.request.value.hold) else None
      ensures
        var was := old(request);
        if was.Some? && !was.value.local && hit(was.value.key) then
          if Cancellable(was.value) then request.None? && cancel == Some(was.value.hold)
          else request == Some(was.value.(ended := true)) && cancel.None?
        else request == was && cancel.None?
      ensures
        var was := old(preparingRequest);
        preparingRequest == if was.Some? && hit(was.value.key) then Some(was.value.(ended := true)) else was
    {
      cancel := None;
      DropEndedReplays(hit);
      if preparingRequest.Some? && hit(preparingRequest.value.key) {
        preparingRequest := Some(preparingRequest.value.(ended := true));
      }
      if request.None? || request.value.local || !hit(request.value.key) { return; }
      if Cancellable(request.value) {
        cancel := Some(request.value.hold);
        request := None;
      } else {
        request := Some(request.value.(ended := true));
      }
    }

    /** deliverReplayPublished up to its response: the marker it claimed, if any. */
    method ClaimDelivery(key: Key, ghost s: State, ghost tid: nat, ghost owner: Key) returns (marker: Option<nat>)
      requires Agrees(s)
      modifies this
      ensures Agrees(Deliver(s, tid, key, owner, None, false))
      ensures Deliver(s, tid, key, owner, None, false).actions == s.actions[tid := Delivering(key, owner, marker, marker.Some?, false)]
      ensures marker.Some? <==> old(request).None? && old(preparingRequest).None?
      ensures request == old(request) && pendingReplays == old(pendingReplays)
      ensures preparingRequest == if marker.Some? then Some(Slot(marker.value, key, false, false)) else old(preparingRequest)
    {
      marker := None;
      if request.None? && preparingRequest.None? {
        marker := Some(next);
        preparingRequest := Some(Slot(next, key, false, false));
        next := next + 1;
      }
    }

    /** drainPendingReplays up to its first await: a published entry to deliver is
        returned, an unknown one is shown. */
    method DrainPendingReplays(ghost s: State) returns (deliver: Option<Replay>)
      requires Agrees(s)
      modifies this
      ensures request == Drain(s).request && pendingReplays == Drain(s).queue
      ensures deliver.Some? <==> request.None? && Drain(s).preparing.Some? && s.preparing.None?
      ensures deliver.Some? ==> Drain(s).actions == s.actions[s.next := Delivering(deliver.value.key, deliver.value.owner, Some(s.next + 1), true, true)]
      ensures old(request.Some? || preparingRequest.Some? || pendingReplays == []) ==>
                deliver.None? && request == old(request) && pendingReplays == old(pendingReplays)
      ensures old(request.None? && preparingRequest.None? && pendingReplays != []) ==>
                var oldest := old(pendingReplays)[0];
                && pendingReplays == old(pendingReplays)[1..]
                && deliver == (if oldest.published then Some(oldest) else None)
                && (if oldest.published then request.None?
                    else request.Some? && request.value.key == oldest.key && request.value.owner == oldest.owner &&
                         request.value.status == Unknown && request.value.local == oldest.local)
    {
      deliver := None;
      if request.Some? || preparingRequest.Some? || pendingReplays == [] { return; }
      var r := pendingReplays[0];
      pendingReplays := pendingReplays[1..];
      if r.published {
        deliver := Some(r);
      } else {
        request := Some(Request(next, r.key, r.owner, Unknown, 0, false, false, r.local));
        next := next + 1;
      }
    }

    /** updateAccount and walletLocked mark the preparation and withdraw a request that
        is still awaiting or refused. */
    method CancelForAccount(locked: bool, ghost s: State) returns (cancel: Option<Request>)
      requires Agrees(s)
      modifies this
      ensures Agrees((if locked then StepLocked(s) else StepAccount(s)).(next := s.next))
      ensures cancel == if s.request.Some? && request.None? then s.request else None
      ensures
        var was := old(request);
        if was.Some? && Cancellable(was.value) && !(locked && was.value.local) then request.None? && cancel == was
        else request == was && cancel.None?
      ensures preparingRequest.Some? <==> old(preparingRequest).Some?
      ensures preparingRequest.Some? ==> preparingRequest == Some(old(preparingRequest).value.(cancelled := true))
    {
      cancel := None;
      if preparingRequest.Some? { preparingRequest := Some(preparingRequest.value.(cancelled := true)); }
      if request.Some? && !(locked && request.value.local) && Cancellable(request.value) {
        cancel := request;
        request := None;
      }
    }

    /** approveRequest up to its confirm or its cancellation. */
    method ApproveRequest(expired: bool, ghost s: State) returns (confirm: Option<nat>)
      requires Agrees(s) && s.request.Some? && s.request.value.status == Awaiting
      modifies this
      ensures Agrees(StepApprove(s, expired).(next := s.next))
      ensures confirm == if expired then None else Some(s.request.value.hold)
      ensures expired ==> request.None?
      ensures !expired ==> request == Some(old(request).value.(status := Publishing))
      ensures preparingRequest == old(preparingRequest) && pendingReplays == old(pendingReplays)
    {
      if expired {
        confirm := None;
        request := None;
      } else {
        confirm := Some(request.value.hold);
        request := Some(request.value.(status := Publishing));
      }
    }
  }
}
