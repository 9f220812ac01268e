/**
 * Job assignment on an agent worker: AssignJob registers a one-slot channel and waits,
 * HandleAvailability sends into it while holding the worker's lock. Each critical section, each
 * channel receive and each deferred cleanup is one step.
 */
module AgentWorker {
  import opened Common

  type JobId = string
  type CallId = nat

  datatype Response = Response(available: bool, terminate: bool)

  datatype Status = PENDING | RUNNING | SUCCESS | FAILED

  predicate Ended(s: Status) { s == SUCCESS || s == FAILED }

  /** Where an AssignJob call is: selecting, about to start the job, about to run its deferred cleanup. */
  datatype Point = Waiting | Accepted | Leaving | Returned

  /** `slot` is the call's channel of capacity one, `sent` how often something was sent into it. */
  datatype Call = Call(job: JobId, slot: Option<Response>, sent: nat, point: Point)

  /**
   * `stuck` would be a send on a full channel under the lock; `accepted` are the jobs a worker took, and
   * `ended` those it has reported as ended since it took them last.
   */
  datatype State = State(
    availability: map<JobId, CallId>, calls: map<CallId, Call>, running: map<JobId, Status>,
    accepted: set<JobId>, ended: set<JobId>, stuck: bool)

  const FRESH := State(map[], map[], map[], {}, {}, false)

  datatype Event =
    | Assign(call: CallId, job: JobId)
    | Respond(job: JobId, r: Response)
    | Receive(call: CallId, tokenOk: bool)
    | GiveUp(call: CallId)                       // timeout, closed worker or cancelled context
    | StartJob(call: CallId)
    | Return(call: CallId)
    | Update(job: JobId, status: Status)         // UpdateJobStatus, also on behalf of TerminateJob

  predicate At(w: State, call: CallId, p: Point) {
    call in w.calls && w.calls[call].point == p
  }

  function Move(w: State, call: CallId, p: Point): State
    requires call in w.calls
  {
    w.(calls := w.calls[call := w.calls[call].(point := p)])
  }

  function Step(w: State, e: Event): State {
    match e
    case Assign(call, job) =>
      if call in w.calls then w
      else if job in w.availability then w.(calls := w.calls[call := Call(job, None, 0, Returned)])
      else w.(calls := w.calls[call := Call(job, None, 0, Waiting)], availability := w.availability[job := call])
    case Respond(job, r) =>
      if job !in w.availability || w.availability[job] !in w.calls then w
      else
        var call := w.availability[job];
        var c := w.calls[call];
        if c.slot.Some? then w.(stuck := true)
        else w.(calls := w.calls[call := c.(slot := Some(r), sent := c.sent + 1)], availability := w.availability - {job})
    case Receive(call, tokenOk) =>
      if !At(w, call, Waiting) || w.calls[call].slot.None? then w
      else
        var c := w.calls[call];
        var ok := !c.slot.value.terminate && c.slot.value.available && tokenOk;
        w.(calls := w.calls[call := c.(slot := None, point := if ok then Accepted else Leaving)],
           accepted := if ok then w.accepted + {c.job} else w.accepted,
           ended := if ok then w.ended - {c.job} else w.ended)
    case GiveUp(call) => if At(w, call, Waiting) then Move(w, call, Leaving) else w
    case StartJob(call) =>
      if At(w, call, Accepted) then Move(w, call, Leaving).(running := w.running[w.calls[call].job := RUNNING]) else w
    case Return(call) =>
      if At(w, call, Leaving) then Move(w, call, Returned).(availability := w.availability - {w.calls[call].job}) else w
    case Update(job, status) =>
      var w' := if Ended(status) then w.(ended := w.ended + {job}) else w;
      if job !in w.running then w'
      else w'.(running := if Ended(status) then w.running - {job} else w.running[job := status])
  }

  function Run(w: State, es: seq<Event>): State
    decreases |es|
  {
    if es == [] then w else Run(Step(w, es[0]), es[1..])
  }

  // ---------- the invariant ----------

  /** A listed call waits or leaves, and nothing was sent to it yet. */
  ghost predicate ListedInv(w: State, j: JobId)
    requires j in w.availability
  {
    var k := w.availability[j];
    && k in w.calls && w.calls[k].job == j && w.calls[k].sent == 0
    && (w.calls[k].point == Waiting || w.calls[k].point == Leaving)
  }

  ghost predicate CallInv(w: State, k: CallId)
    requires k in w.calls
  {
    var c := w.calls[k];
    && c.sent <= 1 && (c.slot.Some? ==> c.sent == 1)
    && (c.point == Accepted ==> c.job in w.accepted && c.sent == 1)
  }

  ghost predicate Inv(w: State) {
    && !w.stuck
    && (forall j | j in w.availability :: ListedInv(w, j))
    && (forall k | k in w.calls :: CallInv(w, k))
    && (forall j | j in w.running :: j in w.accepted && !Ended(w.running[j]))
  }

  lemma StepKeepsListed(w: State, e: Event, j: JobId)
    requires Inv(w) && j in Step(w, e).availability
    ensures ListedInv(Step(w, e), j)
  {
    if j in w.availability {
      assert ListedInv(w, j) && CallInv(w, w.availability[j]);
    }
    if e.Respond? && e.job in w.availability {
      assert ListedInv(w, e.job);
    }
  }

  lemma StepKeepsCall(w: State, e: Event, k: CallId)
    requires Inv(w) && k in Step(w, e).calls
    ensures CallInv(Step(w, e), k) && !Step(w, e).stuck
  {
    if k in w.calls {
      assert CallInv(w, k);
    }
    if e.Respond? && e.job in w.availability {
      assert ListedInv(w, e.job) && CallInv(w, w.availability[e.job]);
    }
  }

  lemma StepKeepsInv(w: State, e: Event)
    requires Inv(w)
    ensures Inv(Step(w, e))
  {
    var w' := Step(w, e);
    forall j | j in w'.availability ensures ListedInv(w', j) {
      StepKeepsListed(w, e, j);
    }
    forall k | k in w'.calls ensures CallInv(w', k) {
      StepKeepsCall(w, e, k);
    }
    if e.StartJob? && At(w, e.call, Accepted) {
      assert CallInv(w, e.call);
    }
    if e.Respond? && e.job in w.availability {
      assert ListedInv(w, e.job) && CallInv(w, w.availability[e.job]);
    }
  }

  lemma {:induction false} RunKeepsInv(w: State, es: seq<Event>)
    requires Inv(w)
    ensures Inv(Run(w, es))
    decreases |es|
  {
    if es != [] {
      StepKeepsInv(w, es[0]);
      RunKeepsInv(Step(w, es[0]), es[1..]);
    }
  }

  /**
   * In every interleaving, each channel in the availability map is empty, so the send under the lock
   * never blocks, and no channel is sent to twice.
   */
  lemma SendNeverBlocks(es: seq<Event>, j: JobId)
    ensures var w := Run(FRESH, es);
            && !w.stuck
            && (j in w.availability ==> w.availability[j] in w.calls && w.calls[w.availability[j]].slot.None?)
            && (forall k | k in w.calls :: w.calls[k].sent <= 1)
  {
    RunKeepsInv(FRESH, es);
    var w := Run(FRESH, es);
    if j in w.availability {
      assert ListedInv(w, j) && CallInv(w, w.availability[j]);
    }
    forall k | k in w.calls ensures w.calls[k].sent <= 1 {
      assert CallInv(w, k);
    }
  }

  /** Only jobs a worker accepted are ever running, and none in an ended status. */
  lemma RunningJobsWereAccepted(es: seq<Event>, j: JobId)
    requires j in Run(FRESH, es).running
    ensures var w := Run(FRESH, es);
            j in w.accepted && !Ended(w.running[j])
  {
    RunKeepsInv(FRESH, es);
  }

  /** No job is kept as running that its worker has reported as ended. */
  ghost predicate NoneOverdue(w: State) {
    forall j | j in w.running :: j !in w.ended
  }

  /**
   * A job reported as ended comes to be kept as running in exactly one way: the report arrives after the
   * assignment went out and before AssignJob enters the job into the running map, and so is dropped.
   */
  lemma EndedJobsRunExactly(w: State, e: Event)
    requires NoneOverdue(w)
    ensures NoneOverdue(Step(w, e)) <==>
            !(e.StartJob? && At(w, e.call, Accepted) && w.calls[e.call].job in w.ended)
  {
    if e.StartJob? && At(w, e.call, Accepted) {
      assert w.calls[e.call].job in Step(w, e).running;
    }
  }

  /** It does happen, to every accepted job that ends at once: its map entry then stays for good. */
  lemma EarlyEndIsLost(w: State, call: CallId, status: Status)
    requires At(w, call, Accepted) && Ended(status)
    ensures var job := w.calls[call].job;
            var w' := Run(w, [Update(job, status), StartJob(call)]);
            job in w'.running && w'.running[job] == RUNNING && job in w'.ended
  {
    var es := [Update(w.calls[call].job, status), StartJob(call)];
    Suffixes(es);
    var w1 := Step(w, es[0]);
    assert Run(w, es[0..]) == Run(w1, es[1..]);
    var w2 := Step(w1, es[1]);
    assert Run(w1, es[1..]) == Run(w2, es[2..]);
  }

  /**
   * A worker that accepts gets the job: with no call listed for it, an answered assignment ends with the
   * job running exactly if the worker is available, does not terminate the job, and the token is built;
   * otherwise the running jobs stay as they were. Nothing is left in the map.
   */
  lemma AnsweredAssignment(w: State, call: CallId, job: JobId, r: Response, tokenOk: bool)
    requires Inv(w) && call !in w.calls && job !in w.availability
    ensures var es := [Assign(call, job), Respond(job, r), Receive(call, tokenOk), StartJob(call), Return(call)];
            var w' := Run(w, es);
            && At(w', call, Returned) && w'.availability == w.availability
            && w'.running == if r.available && !r.terminate && tokenOk then w.running[job := RUNNING] else w.running
  {
    var es := [Assign(call, job), Respond(job, r), Receive(call, tokenOk), StartJob(call), Return(call)];
    Suffixes(es);
    var w1 := Step(w, es[0]);
    assert Run(w, es[0..]) == Run(w1, es[1..]);
    var w2 := Step(w1, es[1]);
    assert Run(w1, es[1..]) == Run(w2, es[2..]);
    ResponseArrives(w, call, job, r);
    var w3 := Step(w2, es[2]);
    assert Run(w2, es[2..]) == Run(w3, es[3..]);
    var w4 := Step(w3, es[3]);
    assert Run(w3, es[3..]) == Run(w4, es[4..]);
    var w5 := Step(w4, es[4]);
    assert Run(w4, es[4..]) == Run(w5, es[5..]);
    ResponseIsHandled(w2, call, job, r, tokenOk);
  }

  /** A response that comes too late, or never, changes neither the running jobs nor the map in the end. */
  lemma UnansweredAssignment(w: State, call: CallId, job: JobId, r: Response, late: bool, tokenOk: bool)
    requires Inv(w) && call !in w.calls && job !in w.availability
    ensures var es := [Assign(call, job), GiveUp(call)] + (if late then [Respond(job, r)] else [])
                      + [Receive(call, tokenOk), StartJob(call), Return(call)];
            var w' := Run(w, es);
            At(w', call, Returned) && w'.availability == w.availability && w'.running == w.running
  {
    var tail := [Receive(call, tokenOk), StartJob(call), Return(call)];
    var w2 := Step(Step(w, Assign(call, job)), GiveUp(call));
    assert w2 == w.(calls := w.calls[call := Call(job, None, 0, Leaving)], availability := w.availability[job := call]);
    assert w.availability[job := call] - {job} == w.availability == w.availability - {job};
    if late {
      var es := [Assign(call, job), GiveUp(call), Respond(job, r)] + tail;
      assert es == [Assign(call, job), GiveUp(call)] + [Respond(job, r)] + tail;
      Suffixes(es);
      var w3 := Step(w2, Respond(job, r));
      assert Run(w, es[0..]) == Run(Step(w, es[0]), es[1..]);
      assert Run(Step(w, es[0]), es[1..]) == Run(w2, es[2..]);
      assert Run(w2, es[2..]) == Run(w3, es[3..]) && es[3..] == tail;
      LeavingTail(w3, call, job, tokenOk);
    } else {
      var es := [Assign(call, job), GiveUp(call)] + tail;
      assert es == [Assign(call, job), GiveUp(call)] + [] + tail;
      Suffixes(es);
      assert Run(w, es[0..]) == Run(Step(w, es[0]), es[1..]);
      assert Run(Step(w, es[0]), es[1..]) == Run(w2, es[2..]) && es[2..] == tail;
      LeavingTail(w2, call, job, tokenOk);
    }
  }

  /** A call that has given up does nothing more than delete its entry. */
  lemma LeavingTail(w: State, call: CallId, job: JobId, tokenOk: bool)
    requires At(w, call, Leaving) && w.calls[call].job == job
    ensures var w' := Run(w, [Receive(call, tokenOk), StartJob(call), Return(call)]);
            At(w', call, Returned) && w'.availability == w.availability - {job} && w'.running == w.running
  {
    var es := [Receive(call, tokenOk), StartJob(call), Return(call)];
    Suffixes(es);
    assert Run(w, es[0..]) == Run(w, es[1..]);
    assert Run(w, es[1..]) == Run(w, es[2..]);
    assert Run(w, es[2..]) == Run(Step(w, es[2]), es[3..]);
  }

  // ---------- which step changes what ----------

  /** A job runs from when a call that accepted it starts it until it is reported as ended. */
  lemma RunningChangesExactly(w: State, e: Event, j: JobId)
    ensures var w' := Step(w, e);
            var starts := e.StartJob? && At(w, e.call, Accepted) && w.calls[e.call].job == j;
            var reported := e.Update? && e.job == j;
            && (j in w'.running <==> starts || (j in w.running && !(reported && (e.status == SUCCESS || e.status == FAILED))))
            && (j in w'.running ==>
                  w'.running[j] == if starts then RUNNING else if reported then e.status else w.running[j])
  {
  }

  /** A call is listed for its job from its beginning until a response for the job or a cleanup for the job. */
  lemma ListingChangesExactly(w: State, e: Event, j: JobId, k: CallId)
    requires Inv(w)
    ensures var w' := Step(w, e);
            (j in w'.availability && w'.availability[j] == k) <==>
              || (e == Assign(k, j) && k !in w.calls && j !in w.availability)
              || (&& j in w.availability && w.availability[j] == k && !(e.Respond? && e.job == j)
                  && !(e.Return? && At(w, e.call, Leaving) && w.calls[e.call].job == j))
  {
    if j in w.availability {
      assert ListedInv(w, j) && CallInv(w, w.availability[j]);
    }
  }

  /**
   * How one call goes on. It waits if it is the only one listed for its job and is refused otherwise; a
   * response reaches it if it is the one listed; it accepts exactly a response that is available and no
   * termination when the token is built; and only its own events move it otherwise.
   */
  lemma CallMovesExactly(w: State, e: Event, k: CallId)
    requires Inv(w) && k in Step(w, e).calls
    ensures var c' := Step(w, e).calls[k];
            if k !in w.calls then
              && e.Assign? && e.call == k && c'.job == e.job && c'.slot.None? && c'.sent == 0
              && c'.point == if e.job in w.availability then Returned else Waiting
            else
              var c := w.calls[k];
              && c'.job == c.job
              && c'.point == (match e
                   case Receive(call, tokenOk) =>
                     if call != k || c.point != Waiting || c.slot.None? then c.point
                     else if c.slot.value.available && !c.slot.value.terminate && tokenOk then Accepted else Leaving
                   case GiveUp(call) => if call == k && c.point == Waiting then Leaving else c.point
                   case StartJob(call) => if call == k && c.point == Accepted then Leaving else c.point
                   case Return(call) => if call == k && c.point == Leaving then Returned else c.point
                   case _ => c.point)
              && c'.slot == (match e
                   case Respond(job, r) =>
                     if job in w.availability && w.availability[job] == k then Some(r) else c.slot
                   case Receive(call, _) => if call == k && c.point == Waiting then None else c.slot
                   case _ => c.slot)
  {
    assert k in w.calls ==> CallInv(w, k);
    if e.Respond? && e.job in w.availability {
      assert ListedInv(w, e.job) && CallInv(w, w.availability[e.job]);
    }
  }

  lemma ResponseArrives(w: State, call: CallId, job: JobId, r: Response)
    requires Inv(w) && call !in w.calls && job !in w.availability
    ensures Step(Step(w, Assign(call, job)), Respond(job, r)) ==
            w.(calls := w.calls[call := Call(job, Some(r), 1, Waiting)])
  {
    assert w.availability[job := call] - {job} == w.availability;
  }

  lemma ResponseIsHandled(w: State, call: CallId, job: JobId, r: Response, tokenOk: bool)
    requires call in w.calls && w.calls[call] == Call(job, Some(r), 1, Waiting) && job !in w.availability
    ensures var w' := Step(Step(Step(w, Receive(call, tokenOk)), StartJob(call)), Return(call));
            && At(w', call, Returned) && w'.availability == w.availability
            && w'.running == if r.available && !r.terminate && tokenOk then w.running[job := RUNNING] else w.running
  {
    assert w.availability - {job} == w.availability;
  }

  // ---------- can every waiting call still be answered? ----------

  /** Every call that waits with an empty channel is the one the map lists for its job. */
  ghost predicate AllListed(w: State) {
    forall k | At(w, k, Waiting) && w.calls[k].slot.None? ::
      w.calls[k].job in w.availability && w.availability[w.calls[k].job] == k
  }

  /**
   * A step cuts a waiting call off from its response exactly when a call runs its deferred cleanup while
   * the map lists a different, waiting call for the same job.
   */
  lemma CallsAreOrphanedExactly(w: State, e: Event)
    requires Inv(w) && AllListed(w)
    ensures AllListed(Step(w, e)) <==>
            !(&& e.Return? && At(w, e.call, Leaving)
              && var j := w.calls[e.call].job;
                 j in w.availability && w.availability[j] != e.call && At(w, w.availability[j], Waiting))
  {
    if e.Return? {
      ReturnOrphansExactly(w, e.call);
    } else {
      OthersOrphanNobody(w, e);
    }
  }

  lemma ReturnOrphansExactly(w: State, call: CallId)
    requires Inv(w) && AllListed(w)
    ensures AllListed(Step(w, Return(call))) <==>
            !(&& At(w, call, Leaving)
              && var j := w.calls[call].job;
                 j in w.availability && w.availability[j] != call && At(w, w.availability[j], Waiting))
  {
    if At(w, call, Leaving) {
      var j := w.calls[call].job;
      if j in w.availability && w.availability[j] != call && At(w, w.availability[j], Waiting) {
        assert ListedInv(w, j) && CallInv(w, w.availability[j]);
        var w' := Step(w, Return(call));
        assert At(w', w.availability[j], Waiting) && w'.calls[w.availability[j]].slot.None?;
      }
    }
  }

  lemma OthersOrphanNobody(w: State, e: Event)
    requires Inv(w) && AllListed(w) && !e.Return?
    ensures AllListed(Step(w, e))
  {
    if e.Respond? && e.job in w.availability {
      assert ListedInv(w, e.job) && CallInv(w, w.availability[e.job]);
    }
    if e.Receive? && At(w, e.call, Waiting) {
      assert CallInv(w, e.call);
    }
  }

  /** It does happen: the job is reassigned between the first call's response and its cleanup. */
  lemma ReassignedCallIsOrphaned()
    ensures var es := [Assign(1, "j"), Respond("j", Response(false, false)), Assign(2, "j"), Receive(1, true), Return(1)];
            var w := Run(FRESH, es);
            At(w, 2, Waiting) && w.calls[2].slot.None? && "j" !in w.availability
  {
    var es := [Assign(1, "j"), Respond("j", Response(false, false)), Assign(2, "j"), Receive(1, true), Return(1)];
    Suffixes(es);
    var w1 := Step(FRESH, es[0]);
    assert Run(FRESH, es[0..]) == Run(w1, es[1..]);
    var w2 := Step(w1, es[1]);
    assert Run(w1, es[1..]) == Run(w2, es[2..]);
    assert w2.availability == map[];
    var w3 := Step(w2, es[2]);
    assert Run(w2, es[2..]) == Run(w3, es[3..]);
    assert w3.availability == map["j" := 2];
    var w4 := Step(w3, es[3]);
    assert Run(w3, es[3..]) == Run(w4, es[4..]);
    assert At(w4, 1, Leaving);
    var w5 := Step(w4, es[4]);
    assert Run(w4, es[4..]) == Run(w5, es[5..]);
  }

  // ---------- the source's object ----------

  /** `calls` stands for the stacks and channels of the AssignJob calls in progress. */
  class Worker {
    var availability: map<JobId, CallId>
    var calls: map<CallId, Call>
    var running: map<JobId, Status>
    ghost var accepted: set<JobId>
    ghost var ended: set<JobId>

    ghost function Abs(): State reads this {
      State(availability, calls, running, accepted, ended, false)
    }

    constructor ()
      ensures Abs() == FRESH
    {
      availability, calls, running, accepted, ended := map[], map[], map[], {}, {};
    }

    /** The first critical section of AssignJob. */
    method BeginAssign(call: CallId, job: JobId) returns (ok: bool)
      requires call !in calls
      modifies this
      ensures ok == (job !in old(availability))
      ensures Abs() == Step(old(Abs()), Assign(call, job))
    {
      if job in availability {
        calls := calls[call := Call(job, None, 0, Returned)];
        return false;
      }
      availability := availability[job := call];
      calls := calls[call := Call(job, None, 0, Waiting)];
      return true;
    }

    /** The send needs no waiting: the invariant leaves the listed channel empty. */
    method HandleAvailability(job: JobId, r: Response)
      requires Inv(Abs())
      modifies this
      ensures Inv(Abs()) && Abs() == Step(old(Abs()), Respond(job, r))
    {
      StepKeepsInv(Abs(), Respond(job, r));
      if job !in availability {
        return;
      }
      var call := availability[job];
      assert ListedInv(Abs(), job) && CallInv(Abs(), call);
      calls := calls[call := calls[call].(slot := Some(r), sent := calls[call].sent + 1)];
      availability := availability - {job};
    }

    /** The select of AssignJob when it takes the response. */
    method TakeResponse(call: CallId, tokenOk: bool)
      requires At(Abs(), call, Waiting) && calls[call].slot.Some?
      modifies this
      ensures Abs() == Step(old(Abs()), Receive(call, tokenOk))
    {
      var c := calls[call];
      var r := c.slot.value;
      if r.terminate || !r.available || !tokenOk {
        calls := calls[call := c.(slot := None, point := Leaving)];
        return;
      }
      calls := calls[call := c.(slot := None, point := Accepted)];
      accepted, ended := accepted + {c.job}, ended - {c.job};
    }

    method AddRunning(call: CallId)
      requires At(Abs(), call, Accepted)
      modifies this
      ensures Abs() == Step(old(Abs()), StartJob(call))
    {
      running := running[calls[call].job := RUNNING];
      calls := calls[call := calls[call].(point := Leaving)];
    }

    /** The deferred cleanup deletes by job, whichever call the entry belongs to. */
    method EndAssign(call: CallId)
      requires At(Abs(), call, Leaving)
      modifies this
      ensures Abs() == Step(old(Abs()), Return(call))
    {
      availability := availability - {calls[call].job};
      calls := calls[call := calls[call].(point := Returned)];
    }

    method UpdateJobStatus(job: JobId, status: Status) returns (found: bool)
      modifies this
      ensures found == (job in old(running))
      ensures Abs() == Step(old(Abs()), Update(job, status))
    {
      if Ended(status) {
        ended := ended + {job};
      }
      if job !in running {
        return false;
      }
      running := running[job := status];
      if Ended(status) {
        running := running - {job};
        assert running == old(running) - {job};
      }
      return true;
    }
  }
}
