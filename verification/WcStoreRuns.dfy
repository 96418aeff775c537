/** Building runs of the store step by step. */
module WcStoreRuns {
  import opened TxTypes
  import opened WcStore

  function Last(r: Run): State
    requires |r.states| > 0
  {
    r.states[|r.states| - 1]
  }

  ghost predicate Reaches(r: Run, s: State) {
    ValidRun(r) && Last(r) == s
  }

  lemma Extend(r: Run, s: State, e: Event, s': State) returns (t: Run)
    requires Reaches(r, s) && Enabled(s, e) && Next(s, e) == s'
    ensures Reaches(t, s')
  {
    t := Run(r.states + [s'], r.events + [e]);
    forall i | 0 <= i < |t.events| ensures ValidStep(t.states[i], t.events[i], t.states[i + 1]) {
      assert i < |r.events| ==> ValidStep(r.states[i], r.events[i], r.states[i + 1]);
    }
  }

  lemma Replies(r: Run, s: State, tid: nat, reply: Reply, s': State) returns (t: Run)
    requires Reaches(r, s) && tid in s.actions && AnswerEnabled(s, s.actions[tid], reply) && StepAnswer(s, tid, s.actions[tid], reply) == s'
    ensures Reaches(t, s')
  {
    hide Reaches, AnswerEnabled, StepAnswer;
    t := Extend(r, s, Answer(tid, reply), s');
  }

  lemma Runs(r: Run, s: State, tid: nat, reply: ConfirmReply, s': State) returns (t: Run)
    requires Reaches(r, s) && tid in s.actions && StepBackend(s, tid, true, true, reply) == s'
    ensures Reaches(t, s')
  {
    hide Reaches, StepBackend;
    t := Extend(r, s, Backend(tid, true, true, reply), s');
  }

  lemma Resumes(r: Run, s: State, tid: nat, ok: bool, s': State) returns (t: Run)
    requires Reaches(r, s) && tid in s.actions && Returned(s.actions[tid]) && StepResume(s, tid, ok, ok) == s'
    ensures Reaches(t, s')
  {
    hide Reaches, Returned, StepResume;
    t := Extend(r, s, Resume(tid, ok, false), s');
  }

  lemma Does(r: Run, s: State, e: Event, s': State) returns (t: Run)
    requires Reaches(r, s) && !e.Answer? && !e.Backend? && !e.Resume? && Enabled(s, e) && Next(s, e) == s'
    ensures Reaches(t, s')
  {
    hide Reaches, Enabled, Next;
    t := Extend(r, s, e, s');
  }

  lemma Unfold(r: Run, s: State)
    requires Reaches(r, s)
    ensures ValidRun(r) && Last(r) == s
  {}
}
