/** What a dapp can be told: never an error for a request whose block may have moved
    funds, and never a second offer of it, unless its record was dropped without an
    answer of its own. */
module WcStoreAnswerSafety {
  import opened TxTypes
  import opened WcStore
  import S = WcStoreSlots
  import H = WcStoreHolds
  import Slots = WcStoreSlotSafety
  import A = WcStoreAnswers

  /** The step sends the dapp an error for `k`. */
  ghost predicate Refuses(s: State, e: Event, k: Key)
    requires Enabled(s, e)
  {
    k in Next(s, e).past.errors && k !in s.past.errors
  }

  lemma RefusalsComeFromRefusableActions(s: State, e: Event, k: Key)
    requires Enabled(s, e) && Refuses(s, e, k)
    ensures e.Resume? && A.RefusableOf(s.actions[e.tid]) == Some(k)
  {
    match e
    case Backend(tid, ok, marked, reply) => BackendSendsNothing(s, tid, ok, marked, reply);
    case Resume(tid, ok, stray) => ResumeRefuses(s, tid, ok, ok || stray);
    case _ =>
  }

  lemma BackendSendsNothing(s: State, tid: nat, ok: bool, marked: bool, reply: ConfirmReply)
    requires tid in s.actions
    ensures StepBackend(s, tid, ok, marked, reply).past.errors == s.past.errors
  {}

  lemma ResumeRefuses(s: State, tid: nat, ok: bool, sent: bool)
    requires tid in s.actions && Returned(s.actions[tid])
    ensures
      var t := s.actions[tid];
      StepResume(s, tid, ok, sent).past.errors
      == if sent && (t.Refusing? || t.Answering?) then s.past.errors + {t.key} else s.past.errors
  {
    hide Drain, Finish, Without, AfterLookup, AfterPrepare, AfterCancel, AfterConfirm, AfterReconcile, AfterRecovery;
  }

  /** An error is only ever sent for a request that has no record in the journal and
      was given no result. */
  lemma NeverRefusesARetainedRequest(r: Run, i: nat, k: Key)
    requires ValidRun(r) && i < |r.events| && ValidStep(r.states[i], r.events[i], r.states[i + 1])
    requires Refuses(r.states[i], r.events[i], k)
    ensures k !in r.states[i].journal && k !in r.states[i].past.results
  {
    var s, e := r.states[i], r.events[i];
    A.RunKeeps(r, i);
    RefusalsComeFromRefusableActions(s, e, k);
    hide Next, Enabled;
    RefusableIsClean(s, e.tid, k);
  }

  lemma RefusableIsClean(s: State, tid: nat, k: Key)
    requires A.AnswerInv(s) && tid in s.actions && A.RefusableOf(s.actions[tid]) == Some(k)
    ensures k !in s.journal && k !in s.past.results && (k in s.past.handed <==> k in s.past.droppedElsewhere)
  {
    assert A.ActionAnswerOk(s, s.actions[tid]) && A.Claimed(s, k);
    assert A.HistoryOk(s);
  }

  /** An error goes to a request whose block was handed to a node exactly when that
      request's record was dropped by another request's acknowledgement (a reissued
      id) or by local recovery (of a refused duplicate). */
  lemma RefusesAHandedRequestIffDroppedElsewhere(r: Run, i: nat, k: Key)
    requires ValidRun(r) && i < |r.events| && ValidStep(r.states[i], r.events[i], r.states[i + 1])
    requires Refuses(r.states[i], r.events[i], k)
    ensures k in r.states[i].past.handed <==> k in r.states[i].past.droppedElsewhere
  {
    var s, e := r.states[i], r.events[i];
    A.RunKeeps(r, i);
    RefusalsComeFromRefusableActions(s, e, k);
    hide Next, Enabled;
    RefusableIsClean(s, e.tid, k);
  }

  /** A request comes up for approval only without record and result; and it is one
      whose block was handed to a node already exactly when its record was dropped in
      one of those two ways. */
  lemma OffersAHandedRequestIffDroppedElsewhere(r: Run, i: nat)
    requires ValidRun(r) && i < |r.events| && ValidStep(r.states[i], r.events[i], r.states[i + 1])
    requires Slots.Offers(r.states[i], r.states[i + 1])
    ensures
      var s, k := r.states[i], r.states[i + 1].request.value.key;
      k !in s.journal && k !in s.past.results && (k in s.past.handed <==> k in s.past.droppedElsewhere)
  {
    var s, e := r.states[i], r.events[i];
    S.RunKeeps(r, i);
    A.RunKeeps(r, i);
    Slots.OffersExactlyUnmarkedPrepares(s, e);
    hide Next, Enabled, ValidRun, S.SlotInv;
    RefusableIsClean(s, e.tid, s.actions[e.tid].key);
  }

  /** Over whole runs, restarts included: no request is both refused and given a
      result, none that was refused has a record, and one that was both refused and
      handed to a node had its record dropped in one of those two ways. */
  lemma AnswersNeverConflict(r: Run, i: nat)
    requires ValidRun(r) && i < |r.states|
    ensures
      var s := r.states[i];
      && s.past.errors !! s.past.results && s.past.errors !! s.journal.Keys && s.past.errors * s.past.handed <= s.past.droppedElsewhere
  {
    A.RunKeeps(r, i);
    assert A.HistoryOk(r.states[i]);
  }

  /** A published record is dropped by the acknowledgement of a request that does not
      own it, or by local recovery. */
  predicate DropsElsewhere(s: State, e: Event) {
    e.Backend? && e.ok && e.tid in s.actions &&
    match s.actions[e.tid]
    case Acking(key, owner, done, _, _, _) => !done && owner != key && Droppable(s, owner)
    case Recovering(_, owner, cleared) => cleared.None? && Droppable(s, owner)
    case _ => false
  }

  function DroppedBy(s: State, e: Event): set<Key> {
    if DropsElsewhere(s, e) then {s.actions[e.tid].owner} else {}
  }

  /** These steps, and no others, drop a record without an answer to its request. */
  lemma OnlyThoseDrop(s: State, e: Event)
    requires Enabled(s, e)
    ensures Next(s, e).past.droppedElsewhere == s.past.droppedElsewhere + DroppedBy(s, e)
    ensures DroppedBy(s, e) !! Next(s, e).journal.Keys
  {
    hide StepResume, StepBackend, Drain, Without, DroppedBy, Finds;
    if e.Resume? {
      ResumeDropsNothing(s, e.tid, e.ok, e.ok || e.stray);
      OthersDropNothing(s, e);
    } else if e.Backend? {
      BackendDrops(s, e.tid, e.ok, e.marked, e.outcome);
    } else {
      OthersDropNothing(s, e);
    }
  }

  lemma OthersDropNothing(s: State, e: Event)
    requires !e.Backend?
    ensures DroppedBy(s, e) == {}
  {}

  lemma ResumeDropsNothing(s: State, tid: nat, ok: bool, sent: bool)
    requires tid in s.actions && Returned(s.actions[tid])
    ensures StepResume(s, tid, ok, sent).past.droppedElsewhere == s.past.droppedElsewhere
  {
    hide Drain, Finish, Without, AfterLookup, AfterPrepare, AfterCancel, AfterConfirm, AfterReconcile, AfterRecovery;
  }

  lemma BackendDrops(s: State, tid: nat, ok: bool, marked: bool, reply: ConfirmReply)
    requires tid in s.actions
    ensures
      var u, gone := StepBackend(s, tid, ok, marked, reply), DroppedBy(s, Backend(tid, ok, marked, reply));
      u.past.droppedElsewhere == s.past.droppedElsewhere + gone && gone !! u.journal.Keys
  {
    if s.actions[tid].Confirming? || s.actions[tid].Reconciling? {
      PublishersDropNothing(s, tid, ok, marked, reply);
    }
    hide StepConfirm, StepReconcile;
  }

  lemma PublishersDropNothing(s: State, tid: nat, ok: bool, marked: bool, reply: ConfirmReply)
    requires tid in s.actions
    ensures s.actions[tid].Confirming? ==> StepConfirm(s, tid, s.actions[tid], ok, reply).past.droppedElsewhere == s.past.droppedElsewhere
    ensures s.actions[tid].Reconciling? ==>
              StepReconcile(s, tid, s.actions[tid], ok, marked, reply).past.droppedElsewhere == s.past.droppedElsewhere
  {}

  lemma {:induction false} NothingDroppedElsewhere(r: Run, i: nat)
    requires ValidRun(r) && i < |r.states|
    requires forall j | 0 <= j < i :: !DropsElsewhere(r.states[j], r.events[j])
    ensures r.states[i].past.droppedElsewhere == {}
  {
    if i > 0 {
      NothingDroppedElsewhere(r, i - 1);
      assert ValidStep(r.states[i - 1], r.events[i - 1], r.states[i]);
      OnlyThoseDrop(r.states[i - 1], r.events[i - 1]);
    }
  }

  /** As long as every record is dropped by the answer to its own request, no request
      whose block was handed to a node is ever refused: across locks, account changes,
      expiries, session ends, reconciles and restarts. */
  lemma NeverRefusesAHandedRequest(r: Run, i: nat)
    requires ValidRun(r) && i < |r.states|
    requires forall j | 0 <= j < i :: !DropsElsewhere(r.states[j], r.events[j])
    ensures forall k :: k in r.states[i].past.errors ==> k !in r.states[i].past.handed
  {
    NothingDroppedElsewhere(r, i);
    AnswersNeverConflict(r, i);
    var s := r.states[i];
    forall k | k in s.past.errors ensures k !in s.past.handed { assert k in s.past.handed ==> k in s.past.errors * s.past.handed; }
  }
}
