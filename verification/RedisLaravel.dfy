/**
  The Laravel-compatible Redis layout: a ready list, a `:delayed` and a `:reserved` sorted
  set and a `:notify` wake-up list per queue. A reservation is the sorted-set member the pop
  script stores, which is the job with its attempts advanced (or the job itself when it does
  not decode), so equal members collapse and every claim is made by job identity.
*/
module RedisLaravel {
  import opened Helpers
  import opened SortedSet

  // What the scripts know about job bytes: the member POP reserves a job under, and the
  // identity of the job some bytes belong to.
  datatype Jobs = Jobs(reserved: string -> string, id: string -> string)

  // Advancing a job's attempts does not change which job it is.
  ghost predicate KeepsIdentity(jobs: Jobs) {
    forall j :: jobs.id(jobs.reserved(j)) == jobs.id(j)
  }

  datatype Queue = Queue(
    ready: seq<string>, delayed: ZSet, reserved: ZSet, notify: nat,
    published: set<string>,  // history: identities published to the queue
    ended: set<string>)      // history: identities an effective ack or dead-letter removed

  const Empty := Queue([], [], [], 0, {}, {})

  function IdOf(jobs: Jobs): Entry -> string {
    (e: Entry) => jobs.id(e.member)
  }

  // How often each job identity is held, over all three structures.
  ghost function Custody(jobs: Jobs, q: Queue): multiset<string> {
    multiset(Project(q.ready, jobs.id)) + multiset(Project(q.delayed, IdOf(jobs)))
    + multiset(Project(q.reserved, IdOf(jobs)))
  }

  // ---- The scripts -----------------------------------------------------------------

  function Push(jobs: Jobs, q: Queue, job: string): Queue {
    q.(ready := q.ready + [job], notify := q.notify + 1, published := q.published + {jobs.id(job)})
  }

  function PushDelayed(jobs: Jobs, q: Queue, job: string, at: int): Queue {
    q.(delayed := Add(q.delayed, At(at), job), published := q.published + {jobs.id(job)})
  }

  // POP: the head is reserved and one wake-up token is taken if there is one.
  function Pop(jobs: Jobs, q: Queue, until: Score): Queue {
    if q.ready == [] then q
    else q.(ready := q.ready[1..],
            reserved := Add(q.reserved, until, jobs.reserved(q.ready[0])),
            notify := if q.notify > 0 then q.notify - 1 else 0)
  }

  // A blocked worker woken by the wake-up list takes a token and no job.
  function Wake(q: Queue): Queue {
    if q.notify > 0 then q.(notify := q.notify - 1) else q
  }

  // An ack, and the source side of the gated dead-letter script.
  function End(jobs: Jobs, q: Queue, handle: string): Queue {
    if Has(q.reserved, handle) then
      q.(reserved := Remove(q.reserved, handle), ended := q.ended + {jobs.id(handle)})
    else q
  }

  // RELEASE is not gated.
  function Release(q: Queue, handle: string, body: string, at: int): Queue {
    q.(reserved := Remove(q.reserved, handle), delayed := Add(q.delayed, At(at), body))
  }

  function MigrateDelayed(q: Queue, now: int, batch: int): Queue {
    var n := RangeCount(q.delayed, now, batch);
    q.(delayed := q.delayed[n..], ready := q.ready + Members(q.delayed[..n]), notify := q.notify + n)
  }

  function MigrateReserved(q: Queue, now: int, batch: int): Queue {
    var n := RangeCount(q.reserved, now, batch);
    q.(reserved := q.reserved[n..], ready := q.ready + Members(q.reserved[..n]), notify := q.notify + n)
  }

  // ---- Custody, script by script -----------------------------------------------------

  function One(present: bool, id: string): multiset<string> {
    if present then multiset{id} else multiset{}
  }

  lemma AddCustody(jobs: Jobs, z: ZSet, score: Score, member: string)
    ensures multiset(Project(Add(z, score, member), IdOf(jobs))) ==
      multiset(Project(z, IdOf(jobs))) + One(!Has(z, member), jobs.id(member))
  {
    ProjectInsert(Remove(z, member), IdOf(jobs), Entry(score, member));
    RemoveCustody(jobs, z, member);
  }

  lemma RemoveCustody(jobs: Jobs, z: ZSet, member: string)
    ensures multiset(Project(z, IdOf(jobs))) ==
      multiset(Project(Remove(z, member), IdOf(jobs))) + One(Has(z, member), jobs.id(member))
  {
    if Has(z, member) { ProjectRemove(z, IdOf(jobs), member); }
  }

  lemma {:induction false} MembersCustody(jobs: Jobs, z: ZSet)
    ensures Project(Members(z), jobs.id) == Project(z, IdOf(jobs))
  {
    if z != [] {
      assert Members(z)[1..] == Members(z[1..]);
      MembersCustody(jobs, z[1..]);
    }
  }

  // Moving the first n members of a sorted set to the end of the ready list moves their
  // identities and nothing else.
  lemma MigrateCustody(jobs: Jobs, ready: seq<string>, z: ZSet, n: nat)
    requires n <= |z|
    ensures multiset(Project(ready + Members(z[..n]), jobs.id)) + multiset(Project(z[n..], IdOf(jobs))) ==
      multiset(Project(ready, jobs.id)) + multiset(Project(z, IdOf(jobs)))
  {
    var moved, left := Project(z[..n], IdOf(jobs)), Project(z[n..], IdOf(jobs));
    ProjectConcat(ready, Members(z[..n]), jobs.id);
    MembersCustody(jobs, z[..n]);
    assert z == z[..n] + z[n..];
    ProjectConcat(z[..n], z[n..], IdOf(jobs));
    assert Project(z, IdOf(jobs)) == moved + left;
  }

  // How custody changes: one copy of `id` may go and one may come, nothing else moves.
  ghost predicate Moves(c: multiset<string>, d: multiset<string>, goes: bool, comes: bool, id: string) {
    d + One(goes, id) == c + One(comes, id)
  }

  lemma MovesAt(c: multiset<string>, d: multiset<string>, goes: bool, comes: bool, id: string)
    requires Moves(c, d, goes, comes, id)
    ensures forall x :: x != id ==> d[x] == c[x]
    ensures d[id] + (if goes then 1 else 0) == c[id] + (if comes then 1 else 0)
    ensures d == c <==> (goes <==> comes)
  {
    assert (d + One(goes, id))[id] == (c + One(comes, id))[id];
    forall x | x != id ensures d[x] == c[x] {
      assert (d + One(goes, id))[x] == (c + One(comes, id))[x];
    }
    if goes == comes { assert forall x :: d[x] == c[x]; }
  }

  lemma Regroup(a: multiset<string>, b: multiset<string>, c: multiset<string>)
    ensures a + b + c == a + c + b
  {
  }

  lemma MigrateDelayedCustody(jobs: Jobs, q: Queue, now: int, batch: int)
    ensures Custody(jobs, MigrateDelayed(q, now, batch)) == Custody(jobs, q)
  {
    MigrateCustody(jobs, q.ready, q.delayed, RangeCount(q.delayed, now, batch));
  }

  lemma MigrateReservedCustody(jobs: Jobs, q: Queue, now: int, batch: int)
    ensures Custody(jobs, MigrateReserved(q, now, batch)) == Custody(jobs, q)
  {
    var t := MigrateReserved(q, now, batch);
    MigrateCustody(jobs, q.ready, q.reserved, RangeCount(q.reserved, now, batch));
    Regroup(multiset(Project(q.ready, jobs.id)), multiset(Project(q.delayed, IdOf(jobs))),
            multiset(Project(q.reserved, IdOf(jobs))));
    Regroup(multiset(Project(t.ready, jobs.id)), multiset(Project(t.delayed, IdOf(jobs))),
            multiset(Project(t.reserved, IdOf(jobs))));
  }

  lemma PushCustody(jobs: Jobs, q: Queue, job: string)
    ensures Moves(Custody(jobs, q), Custody(jobs, Push(jobs, q, job)), false, true, jobs.id(job))
  {
    ProjectConcat(q.ready, [job], jobs.id);
    assert Project([job], jobs.id) == [jobs.id(job)];
  }

  lemma PushDelayedCustody(jobs: Jobs, q: Queue, job: string, at: int)
    ensures Moves(Custody(jobs, q), Custody(jobs, PushDelayed(jobs, q, job, at)), false, !Has(q.delayed, job),
                  jobs.id(job))
  {
    AddCustody(jobs, q.delayed, At(at), job);
  }

  lemma PopCustody(jobs: Jobs, q: Queue, until: Score)
    requires KeepsIdentity(jobs) && q.ready != []
    ensures Moves(Custody(jobs, q), Custody(jobs, Pop(jobs, q, until)),
                  Has(q.reserved, jobs.reserved(q.ready[0])), false, jobs.id(q.ready[0]))
  {
    AddCustody(jobs, q.reserved, until, jobs.reserved(q.ready[0]));
    assert multiset(Project(q.ready, jobs.id)) ==
      multiset{jobs.id(q.ready[0])} + multiset(Project(q.ready[1..], jobs.id));
  }

  lemma EndCustody(jobs: Jobs, q: Queue, handle: string)
    ensures Moves(Custody(jobs, q), Custody(jobs, End(jobs, q, handle)), Has(q.reserved, handle), false,
                  jobs.id(handle))
  {
    RemoveCustody(jobs, q.reserved, handle);
  }

  lemma ReleaseMoves(jobs: Jobs, q: Queue, handle: string, body: string, at: int)
    requires jobs.id(body) == jobs.id(handle)
    ensures Moves(Custody(jobs, q), Custody(jobs, Release(q, handle, body, at)),
                  Has(q.reserved, handle), !Has(q.delayed, body), jobs.id(handle))
  {
    RemoveCustody(jobs, q.reserved, handle);
    AddCustody(jobs, q.delayed, At(at), body);
  }

  // A release neither adds nor loses a copy of its job exactly when the reservation is still
  // held and the body is new to the delayed set, or neither: a stale release of a new body
  // makes a second copy, a release of bytes already delayed drops one.
  lemma ReleaseCustody(jobs: Jobs, q: Queue, handle: string, body: string, at: int)
    requires jobs.id(body) == jobs.id(handle)
    ensures Custody(jobs, Release(q, handle, body, at)) == Custody(jobs, q) <==>
      (Has(q.reserved, handle) <==> !Has(q.delayed, body))
  {
    ReleaseMoves(jobs, q, handle, body, at);
    MovesAt(Custody(jobs, q), Custody(jobs, Release(q, handle, body, at)),
            Has(q.reserved, handle), !Has(q.delayed, body), jobs.id(handle));
  }

  // The identity of an added member is held in the set.
  lemma AddedIsHeld(jobs: Jobs, z: ZSet, score: Score, member: string)
    ensures jobs.id(member) in multiset(Project(Add(z, score, member), IdOf(jobs)))
  {
    ProjectInsert(Remove(z, member), IdOf(jobs), Entry(score, member));
  }

  // The identity of a member is held in the set.
  lemma MemberIsHeld(jobs: Jobs, z: ZSet, member: string)
    requires Has(z, member)
    ensures jobs.id(member) in multiset(Project(z, IdOf(jobs)))
  {
    RemoveCustody(jobs, z, member);
  }

  // ---- Whole runs ----------------------------------------------------------------------

  datatype Step =
    | Pushed(job: string)
    | PushedDelayed(job: string, at: int)
    | Popped(until: Score)
    | Woken
    | Ended(handle: string)
    | Released(handle: string, body: string, at: int)
    | MigratedDelayed(now: int, batch: int)
    | MigratedReserved(now: int, batch: int)

  function Apply(jobs: Jobs, q: Queue, step: Step): Queue {
    match step
    case Pushed(job) => Push(jobs, q, job)
    case PushedDelayed(job, at) => PushDelayed(jobs, q, job, at)
    case Popped(until) => Pop(jobs, q, until)
    case Woken => Wake(q)
    case Ended(handle) => End(jobs, q, handle)
    case Released(handle, body, at) => Release(q, handle, body, at)
    case MigratedDelayed(now, batch) => MigrateDelayed(q, now, batch)
    case MigratedReserved(now, batch) => MigrateReserved(q, now, batch)
  }

  // A release hands back bytes of the job it holds a handle of.
  ghost predicate Enabled(jobs: Jobs, step: Step) {
    step.Released? ==> jobs.id(step.body) == jobs.id(step.handle)
  }

  ghost predicate Runnable(jobs: Jobs, steps: seq<Step>) {
    forall i :: 0 <= i < |steps| ==> Enabled(jobs, steps[i])
  }

  function Run(jobs: Jobs, q: Queue, steps: seq<Step>): Queue
    decreases |steps|
  {
    if steps == [] then q else Run(jobs, Apply(jobs, q, steps[0]), steps[1..])
  }

  // The one identity a step may touch, and whether a copy of it goes and comes.
  function Touched(jobs: Jobs, q: Queue, step: Step): string {
    match step
    case Pushed(job) => jobs.id(job)
    case PushedDelayed(job, _) => jobs.id(job)
    case Popped(_) => if q.ready == [] then "" else jobs.id(q.ready[0])
    case Ended(handle) => jobs.id(handle)
    case Released(handle, _, _) => jobs.id(handle)
    case _ => ""
  }

  predicate Goes(jobs: Jobs, q: Queue, step: Step) {
    match step
    case Popped(_) => q.ready != [] && Has(q.reserved, jobs.reserved(q.ready[0]))
    case Ended(handle) => Has(q.reserved, handle)
    case Released(handle, _, _) => Has(q.reserved, handle)
    case _ => false
  }

  predicate Comes(q: Queue, step: Step) {
    match step
    case Pushed(_) => true
    case PushedDelayed(job, _) => !Has(q.delayed, job)
    case Released(_, body, _) => !Has(q.delayed, body)
    case _ => false
  }

  ghost predicate StepAccounted(jobs: Jobs, q: Queue, step: Step) {
    Moves(Custody(jobs, q), Custody(jobs, Apply(jobs, q, step)), Goes(jobs, q, step), Comes(q, step),
          Touched(jobs, q, step))
  }

  lemma PushedMoves(jobs: Jobs, q: Queue, step: Step)
    requires step.Pushed?
    ensures StepAccounted(jobs, q, step)
  {
    assert Apply(jobs, q, step) == Push(jobs, q, step.job);
    assert Goes(jobs, q, step) == false && Comes(q, step) == true;
    assert Touched(jobs, q, step) == jobs.id(step.job);
    PushCustody(jobs, q, step.job);
  }

  lemma PushedDelayedMoves(jobs: Jobs, q: Queue, step: Step)
    requires step.PushedDelayed?
    ensures StepAccounted(jobs, q, step)
  {
    assert Apply(jobs, q, step) == PushDelayed(jobs, q, step.job, step.at);
    assert Goes(jobs, q, step) == false && Comes(q, step) == !Has(q.delayed, step.job);
    assert Touched(jobs, q, step) == jobs.id(step.job);
    PushDelayedCustody(jobs, q, step.job, step.at);
  }

  lemma PoppedMoves(jobs: Jobs, q: Queue, step: Step)
    requires step.Popped? && KeepsIdentity(jobs) && q.ready != []
    ensures StepAccounted(jobs, q, step)
  {
    assert Apply(jobs, q, step) == Pop(jobs, q, step.until);
    assert Goes(jobs, q, step) == Has(q.reserved, jobs.reserved(q.ready[0])) && Comes(q, step) == false;
    assert Touched(jobs, q, step) == jobs.id(q.ready[0]);
    PopCustody(jobs, q, step.until);
  }

  lemma EndedMoves(jobs: Jobs, q: Queue, step: Step)
    requires step.Ended?
    ensures StepAccounted(jobs, q, step)
  {
    assert Apply(jobs, q, step) == End(jobs, q, step.handle);
    assert Goes(jobs, q, step) == Has(q.reserved, step.handle) && Comes(q, step) == false;
    assert Touched(jobs, q, step) == jobs.id(step.handle);
    EndCustody(jobs, q, step.handle);
  }

  lemma ReleasedMoves(jobs: Jobs, q: Queue, step: Step)
    requires step.Released? && Enabled(jobs, step)
    ensures StepAccounted(jobs, q, step)
  {
    assert Apply(jobs, q, step) == Release(q, step.handle, step.body, step.at);
    assert Goes(jobs, q, step) == Has(q.reserved, step.handle) && Comes(q, step) == !Has(q.delayed, step.body);
    assert Touched(jobs, q, step) == jobs.id(step.handle);
    ReleaseMoves(jobs, q, step.handle, step.body, step.at);
  }

  lemma NothingMoves(jobs: Jobs, q: Queue, step: Step)
    requires Custody(jobs, Apply(jobs, q, step)) == Custody(jobs, q) && !Goes(jobs, q, step) && !Comes(q, step)
    ensures StepAccounted(jobs, q, step)
  {
  }

  lemma MigratedDelayedMoves(jobs: Jobs, q: Queue, step: Step)
    requires step.MigratedDelayed?
    ensures StepAccounted(jobs, q, step)
  {
    assert Apply(jobs, q, step) == MigrateDelayed(q, step.now, step.batch);
    MigrateDelayedCustody(jobs, q, step.now, step.batch);
    NothingMoves(jobs, q, step);
  }

  lemma MigratedReservedMoves(jobs: Jobs, q: Queue, step: Step)
    requires step.MigratedReserved?
    ensures StepAccounted(jobs, q, step)
  {
    assert Apply(jobs, q, step) == MigrateReserved(q, step.now, step.batch);
    MigrateReservedCustody(jobs, q, step.now, step.batch);
    NothingMoves(jobs, q, step);
  }

  lemma StepMoves(jobs: Jobs, q: Queue, step: Step)
    requires KeepsIdentity(jobs) && Enabled(jobs, step)
    ensures StepAccounted(jobs, q, step)
  {
    if step.Pushed? {
      PushedMoves(jobs, q, step);
    } else if step.PushedDelayed? {
      PushedDelayedMoves(jobs, q, step);
    } else if step.Popped? && q.ready != [] {
      PoppedMoves(jobs, q, step);
    } else if step.Ended? {
      EndedMoves(jobs, q, step);
    } else if step.Released? {
      ReleasedMoves(jobs, q, step);
    } else if step.MigratedDelayed? {
      MigratedDelayedMoves(jobs, q, step);
    } else if step.MigratedReserved? {
      MigratedReservedMoves(jobs, q, step);
    } else {
      NothingMoves(jobs, q, step);
    }
  }

  lemma StepMovesAt(jobs: Jobs, q: Queue, step: Step)
    requires KeepsIdentity(jobs) && Enabled(jobs, step)
    ensures var c, d, x := Custody(jobs, q), Custody(jobs, Apply(jobs, q, step)), Touched(jobs, q, step);
      && (forall id :: id != x ==> d[id] == c[id])
      && d[x] + (if Goes(jobs, q, step) then 1 else 0) == c[x] + (if Comes(q, step) then 1 else 0)
  {
    StepMoves(jobs, q, step);
    MovesAt(Custody(jobs, q), Custody(jobs, Apply(jobs, q, step)), Goes(jobs, q, step), Comes(q, step),
            Touched(jobs, q, step));
  }

  // A job a step touches without ending it is held afterwards.
  lemma TouchedIsHeld(jobs: Jobs, q: Queue, step: Step)
    requires KeepsIdentity(jobs) && Enabled(jobs, step)
    requires step.PushedDelayed? || step.Released? || (step.Popped? && q.ready != [])
    ensures Touched(jobs, q, step) in Custody(jobs, Apply(jobs, q, step))
  {
    match step
    case PushedDelayed(job, at) => AddedIsHeld(jobs, q.delayed, At(at), job);
    case Released(handle, body, at) => AddedIsHeld(jobs, q.delayed, At(at), body);
    case Popped(until) => AddedIsHeld(jobs, q.reserved, until, jobs.reserved(q.ready[0]));
    case _ =>
  }

  ghost predicate NothingLost(jobs: Jobs, q: Queue) {
    forall id :: id in q.published && id !in q.ended ==> id in Custody(jobs, q)
  }

  lemma StepLosesNothing(jobs: Jobs, q: Queue, step: Step)
    requires KeepsIdentity(jobs) && Enabled(jobs, step) && NothingLost(jobs, q)
    ensures NothingLost(jobs, Apply(jobs, q, step))
  {
    var t := Apply(jobs, q, step);
    var x := Touched(jobs, q, step);
    StepMovesAt(jobs, q, step);
    if step.PushedDelayed? || step.Released? || (step.Popped? && q.ready != []) { TouchedIsHeld(jobs, q, step); }
    HistoryOf(jobs, q, step);
  }

  // What a step adds to the history.
  lemma HistoryOf(jobs: Jobs, q: Queue, step: Step)
    ensures var t, x := Apply(jobs, q, step), Touched(jobs, q, step);
      && t.published == q.published + (if step.Pushed? || step.PushedDelayed? then {x} else {})
      && t.ended == q.ended + (if step.Ended? && Has(q.reserved, step.handle) then {x} else {})
  {
  }

  // Every job identity published to the queue is ready, delayed or reserved until an
  // effective ack or dead-letter write, in any run, whatever stale handles are used.
  lemma {:induction false} RunLosesNothing(jobs: Jobs, q: Queue, steps: seq<Step>)
    requires KeepsIdentity(jobs) && Runnable(jobs, steps) && NothingLost(jobs, q)
    ensures NothingLost(jobs, Run(jobs, q, steps))
    decreases |steps|
  {
    if steps != [] {
      assert Enabled(jobs, steps[0]);
      StepLosesNothing(jobs, q, steps[0]);
      assert forall i :: 0 <= i < |steps[1..]| ==> steps[1..][i] == steps[i + 1];
      RunLosesNothing(jobs, Apply(jobs, q, steps[0]), steps[1..]);
    }
  }

  // Each job is published once and released only while its reservation is held.
  ghost predicate Orderly(jobs: Jobs, q: Queue, steps: seq<Step>)
    decreases |steps|
  {
    steps == [] || (
      && (steps[0].Pushed? || steps[0].PushedDelayed? ==> jobs.id(steps[0].job) !in q.published)
      && (steps[0].Released? ==> Has(q.reserved, steps[0].handle))
      && Orderly(jobs, Apply(jobs, q, steps[0]), steps[1..]))
  }

  ghost predicate ExactlyOnce(jobs: Jobs, q: Queue) {
    forall id :: Custody(jobs, q)[id] == if id in q.published && id !in q.ended then 1 else 0
  }

  // A job at the head of the ready list that is also reserved is held twice.
  lemma ReadyAndReserved(jobs: Jobs, q: Queue)
    requires KeepsIdentity(jobs) && q.ready != []
    ensures Has(q.reserved, jobs.reserved(q.ready[0])) ==> Custody(jobs, q)[jobs.id(q.ready[0])] >= 2
  {
    var id := jobs.id(q.ready[0]);
    ProjectAt(q.ready, jobs.id, 0);
    assert Project(q.ready, jobs.id)[0] in multiset(Project(q.ready, jobs.id));
    if Has(q.reserved, jobs.reserved(q.ready[0])) {
      MemberIsHeld(jobs, q.reserved, jobs.reserved(q.ready[0]));
      assert multiset(Project(q.reserved, IdOf(jobs)))[id] >= 1;
    }
    assert multiset(Project(q.ready, jobs.id))[id] >= 1;
  }

  // Reserved and delayed at once is held twice.
  lemma ReservedAndDelayed(jobs: Jobs, q: Queue, handle: string, body: string)
    requires Has(q.reserved, handle) && jobs.id(body) == jobs.id(handle)
    ensures Custody(jobs, q)[jobs.id(handle)] >= 1
    ensures Has(q.delayed, body) ==> Custody(jobs, q)[jobs.id(handle)] >= 2
  {
    MemberIsHeld(jobs, q.reserved, handle);
    if Has(q.delayed, body) { MemberIsHeld(jobs, q.delayed, body); }
  }

  lemma UnpublishedIsNotDelayed(jobs: Jobs, q: Queue, job: string)
    requires ExactlyOnce(jobs, q) && jobs.id(job) !in q.published
    ensures !Has(q.delayed, job)
  {
    assert Custody(jobs, q)[jobs.id(job)] == 0;
    if Has(q.delayed, job) { MemberIsHeld(jobs, q.delayed, job); }
  }

  lemma HeadIsNotReserved(jobs: Jobs, q: Queue)
    requires KeepsIdentity(jobs) && ExactlyOnce(jobs, q) && q.ready != []
    ensures !Has(q.reserved, jobs.reserved(q.ready[0]))
  {
    assert Custody(jobs, q)[jobs.id(q.ready[0])] <= 1;
    ReadyAndReserved(jobs, q);
  }

  lemma ReservedIsNotDelayed(jobs: Jobs, q: Queue, handle: string, body: string)
    requires ExactlyOnce(jobs, q) && Has(q.reserved, handle) && jobs.id(body) == jobs.id(handle)
    ensures !Has(q.delayed, body)
  {
    assert Custody(jobs, q)[jobs.id(handle)] <= 1;
    ReservedAndDelayed(jobs, q, handle, body);
  }

  // In an orderly run only an effective end and a release take a copy, and only a publication
  // and a release add one.
  lemma OrderlyAccount(jobs: Jobs, q: Queue, step: Step)
    requires KeepsIdentity(jobs) && Enabled(jobs, step) && ExactlyOnce(jobs, q)
    requires step.Pushed? || step.PushedDelayed? ==> jobs.id(step.job) !in q.published
    requires step.Released? ==> Has(q.reserved, step.handle)
    ensures Goes(jobs, q, step) <==> (step.Ended? && Has(q.reserved, step.handle)) || step.Released?
    ensures Comes(q, step) <==> step.Pushed? || step.PushedDelayed? || step.Released?
  {
    match step
    case PushedDelayed(job, at) => UnpublishedIsNotDelayed(jobs, q, job);
    case Popped(until) => if q.ready != [] { HeadIsNotReserved(jobs, q); }
    case Released(handle, body, at) => ReservedIsNotDelayed(jobs, q, handle, body);
    case _ =>
  }

  lemma ReservedIsHeldOnce(jobs: Jobs, q: Queue, handle: string)
    requires ExactlyOnce(jobs, q) && Has(q.reserved, handle)
    ensures Custody(jobs, q)[jobs.id(handle)] == 1
  {
    MemberIsHeld(jobs, q.reserved, handle);
  }

  lemma StepKeepsOne(jobs: Jobs, q: Queue, step: Step)
    requires KeepsIdentity(jobs) && Enabled(jobs, step) && ExactlyOnce(jobs, q) && q.ended <= q.published
    requires step.Pushed? || step.PushedDelayed? ==> jobs.id(step.job) !in q.published
    requires step.Released? ==> Has(q.reserved, step.handle)
    ensures ExactlyOnce(jobs, Apply(jobs, q, step)) && Apply(jobs, q, step).ended <= Apply(jobs, q, step).published
  {
    var t := Apply(jobs, q, step);
    var x := Touched(jobs, q, step);
    StepMovesAt(jobs, q, step);
    OrderlyAccount(jobs, q, step);
    if step.Ended? && Has(q.reserved, step.handle) { ReservedIsHeldOnce(jobs, q, step.handle); }
    HistoryOf(jobs, q, step);
  }

  // In an orderly run each job that has not ended is in exactly one place, once.
  lemma {:induction false} OrderlyRunKeepsOne(jobs: Jobs, q: Queue, steps: seq<Step>)
    requires KeepsIdentity(jobs) && Runnable(jobs, steps) && Orderly(jobs, q, steps)
    requires ExactlyOnce(jobs, q) && q.ended <= q.published
    ensures ExactlyOnce(jobs, Run(jobs, q, steps))
    decreases |steps|
  {
    if steps != [] {
      assert Enabled(jobs, steps[0]);
      StepKeepsOne(jobs, q, steps[0]);
      assert forall i :: 0 <= i < |steps[1..]| ==> steps[1..][i] == steps[i + 1];
      OrderlyRunKeepsOne(jobs, Apply(jobs, q, steps[0]), steps[1..]);
    }
  }

  // ---- Ranks and wake-ups -----------------------------------------------------------------

  ghost predicate Shaped(q: Queue) {
    Ranked(q.delayed) && Ranked(q.reserved) && q.notify <= |q.ready|
  }

  lemma RankedRest(z: ZSet, n: nat)
    requires Ranked(z) && n <= |z|
    ensures Ranked(z[n..])
  {
  }

  // Both sorted sets stay ranked, and there is never a wake-up token without a ready job.
  lemma {:induction false} RunKeepsShape(jobs: Jobs, q: Queue, steps: seq<Step>)
    requires Shaped(q)
    ensures Shaped(Run(jobs, q, steps))
    decreases |steps|
  {
    if steps != [] {
      StepKeepsShape(jobs, q, steps[0]);
      RunKeepsShape(jobs, Apply(jobs, q, steps[0]), steps[1..]);
    }
  }

  lemma MigrationKeepsShape(q: Queue, now: int, batch: int)
    requires Shaped(q)
    ensures Shaped(MigrateDelayed(q, now, batch)) && Shaped(MigrateReserved(q, now, batch))
  {
    var n, m := RangeCount(q.delayed, now, batch), RangeCount(q.reserved, now, batch);
    RankedRest(q.delayed, n);
    RankedRest(q.reserved, m);
    MembersAre(q.delayed[..n]);
    MembersAre(q.reserved[..m]);
  }

  lemma AddStaysRanked(z: ZSet, score: Score, member: string)
    requires Ranked(z)
    ensures Ranked(Add(z, score, member))
  {
    AddKeepsRank(z, score, member);
  }

  lemma RemoveStaysRanked(z: ZSet, member: string)
    requires Ranked(z)
    ensures Ranked(Remove(z, member))
  {
    RemoveKeepsRank(z, member);
  }

  lemma PopKeepsShape(jobs: Jobs, q: Queue, until: Score)
    requires Shaped(q)
    ensures Shaped(Apply(jobs, q, Popped(until)))
  {
    if q.ready != [] { AddStaysRanked(q.reserved, until, jobs.reserved(q.ready[0])); }
  }

  lemma ReleaseKeepsShape(jobs: Jobs, q: Queue, handle: string, body: string, at: int)
    requires Shaped(q)
    ensures Shaped(Apply(jobs, q, Released(handle, body, at)))
  {
    RemoveStaysRanked(q.reserved, handle);
    AddStaysRanked(q.delayed, At(at), body);
  }

  lemma StepKeepsShape(jobs: Jobs, q: Queue, step: Step)
    requires Shaped(q)
    ensures Shaped(Apply(jobs, q, step))
  {
    match step
    case PushedDelayed(job, at) => AddStaysRanked(q.delayed, At(at), job);
    case Popped(until) => PopKeepsShape(jobs, q, until);
    case Ended(handle) => RemoveStaysRanked(q.reserved, handle);
    case Released(handle, body, at) => ReleaseKeepsShape(jobs, q, handle, body, at);
    case MigratedDelayed(now, batch) => MigrationKeepsShape(q, now, batch);
    case MigratedReserved(now, batch) => MigrationKeepsShape(q, now, batch);
    case _ =>
  }

  // What a migration selects by score is what it removes by rank: the k-th member moves
  // exactly when it is due and the batch reaches it.
  lemma MigrateTakesTheDue(z: ZSet, now: int, batch: int, k: nat)
    requires Ranked(z) && k < |z| && (batch == -1 || batch >= 1)
    ensures k < RangeCount(z, now, batch) <==> Due(z[k].score, now) && (batch == -1 || k < batch)
  {
    var n := RangeCount(z, now, batch);
    RangeCountIs(z, now, batch);
    if n <= k && (batch == -1 || n < batch) { RangeIsComplete(z, now, batch, k); }
  }

  // ---- The transport -------------------------------------------------------------------------

  const CHUNK := 100

  function QueueOf(queues: map<string, Queue>, key: string): Queue {
    if key in queues then queues[key] else Empty
  }

  // The handler is given the raw job; the handle is the member it was reserved under.
  datatype Delivery = Delivery(job: string, handle: string)

  function Delivered(jobs: Jobs, q: Queue): Option<Delivery> {
    if q.ready == [] then None else Some(Delivery(q.ready[0], jobs.reserved(q.ready[0])))
  }

  // The loop of the migration script: the range is pushed in chunks of 100, and one token is
  // pushed for each member of a chunk.
  method PushChunks(ready: seq<string>, notify: nat, val: seq<string>) returns (pushed: seq<string>, tokens: nat)
    ensures pushed == ready + val && tokens == notify + |val|
  {
    pushed, tokens := ready, notify;
    var i := 0;
    while i < |val|
      invariant 0 <= i <= |val|
      invariant pushed == ready + val[..i] && tokens == notify + i
    {
      var end := if i + CHUNK < |val| then i + CHUNK else |val|;
      pushed := pushed + val[i..end];
      assert val[..end] == val[..i] + val[i..end];
      for j := i to end
        invariant tokens == notify + j
      {
        tokens := tokens + 1;
      }
      i := end;
    }
    assert val[..|val|] == val;
  }

  // `val` selected by score, the same number of members removed by rank, `val` pushed.
  method MigrateScript(from: ZSet, ready: seq<string>, notify: nat, now: int, batch: int)
    returns (kept: ZSet, pushed: seq<string>, tokens: nat)
    ensures var n := RangeCount(from, now, batch);
      kept == from[n..] && pushed == ready + Members(from[..n]) && tokens == notify + n
  {
    var val := Members(from[..RangeCount(from, now, batch)]);
    MembersAre(from[..RangeCount(from, now, batch)]);
    kept, pushed, tokens := from, ready, notify;
    if val != [] {
      kept := from[|val|..];
      pushed, tokens := PushChunks(ready, notify, val);
    }
  }

  // `_migrate`: due delayed jobs, then, with recovery on, lapsed reservations.
  function Migrated(q: Queue, now: int, retryAfter: Option<nat>, batch: int): Queue {
    var delayed := MigrateDelayed(q, now, batch);
    if retryAfter.Some? then MigrateReserved(delayed, now, batch) else delayed
  }

  // The k-th in rank is due, and the batch reaches it.
  predicate Reached(z: ZSet, k: nat, now: int, batch: int)
    requires k < |z|
  {
    Due(z[k].score, now) && (batch == -1 || k < batch)
  }

  // Exactly the entries that are due and reached are gone from the set, and they are in that list.
  ghost predicate TakesTheDue(was: ZSet, left: ZSet, now: int, batch: int, ready: seq<string>) {
    && (forall e :: e in left ==> e in was)
    && (forall k :: 0 <= k < |was| ==> (was[k] in left <==> !Reached(was, k, now, batch)))
    && (forall k :: 0 <= k < |was| && Reached(was, k, now, batch) ==> was[k].member in ready)
  }

  lemma RangeTakesTheDue(z: ZSet, now: int, batch: int, ready: seq<string>)
    requires Ranked(z) && (batch == -1 || batch >= 1)
    requires forall m :: m in Members(z[..RangeCount(z, now, batch)]) ==> m in ready
    ensures TakesTheDue(z, z[RangeCount(z, now, batch)..], now, batch, ready)
  {
    var n := RangeCount(z, now, batch);
    MembersAre(z[..n]);
    forall k | 0 <= k < |z|
      ensures z[k] in z[n..] <==> !Reached(z, k, now, batch)
      ensures Reached(z, k, now, batch) ==> z[k].member in ready
    {
      MigrateTakesTheDue(z, now, batch, k);
      if k < n { assert Members(z[..n])[k] == z[k].member; } else { assert z[n..][k - n] == z[k]; }
    }
  }

  // A pop on a queue, by clock and retry-after: no delayed job that is due and in reach of the
  // batch stays behind, with recovery on no lapsed reservation does either, and with it off no
  // reservation is touched; all those are ready, or the job just delivered, and the job delivered
  // is reserved until the clock has gone on by the retry-after.
  ghost predicate PopsTheDue(jobs: Jobs, q: Queue, t: Queue, now: int, retryAfter: Option<nat>, batch: int,
                             delivery: Option<Delivery>) {
    var handed := if delivery.Some? then [delivery.value.job] else [];
    && TakesTheDue(q.delayed, t.delayed, now, batch, handed + t.ready)
    && (forall e :: e in t.reserved ==>
        e in q.reserved || (delivery.Some? && e.member == delivery.value.handle))
    && (forall k :: 0 <= k < |q.reserved| && !(delivery.Some? && q.reserved[k].member == delivery.value.handle) ==>
        (q.reserved[k] in t.reserved <==> retryAfter == None || !Reached(q.reserved, k, now, batch)))
    && (forall k :: 0 <= k < |q.reserved| && retryAfter.Some? && Reached(q.reserved, k, now, batch) ==>
        q.reserved[k].member in handed + t.ready)
    && (delivery.Some? ==>
        && delivery.value.handle == jobs.reserved(delivery.value.job)
        && ReservedUntil(t, delivery.value.handle, retryAfter, now))
    && (delivery == None ==> t.ready == [])
  }

  // Reserved: not due while the clock is less than the retry-after on, due from then on, and with
  // recovery off never.
  ghost predicate ReservedUntil(t: Queue, handle: string, retryAfter: Option<nat>, since: int) {
    exists score :: Entry(score, handle) in t.reserved
      && forall clock :: Due(score, clock) <==> retryAfter.Some? && clock >= since + retryAfter.value
  }

  lemma MigrationTakesTheDue(q: Queue, now: int, retryAfter: Option<nat>, batch: int)
    requires Shaped(q) && (batch == -1 || batch >= 1)
    ensures var t := Migrated(q, now, retryAfter, batch);
      && TakesTheDue(q.delayed, t.delayed, now, batch, t.ready) && q.ready <= t.ready && Ranked(t.reserved)
      && (if retryAfter == None then t.reserved == q.reserved
          else TakesTheDue(q.reserved, t.reserved, now, batch, t.ready))
  {
    var d := MigrateDelayed(q, now, batch);
    var t := Migrated(q, now, retryAfter, batch);
    MigrationKeepsShape(q, now, batch);
    RangeTakesTheDue(q.delayed, now, batch, t.ready);
    if retryAfter.Some? {
      MigrationKeepsShape(d, now, batch);
      RangeTakesTheDue(q.reserved, now, batch, t.ready);
    }
  }

  lemma PopTakesTheDue(jobs: Jobs, q: Queue, now: int, retryAfter: Option<nat>, batch: int)
    requires Shaped(q) && (batch == -1 || batch >= 1)
    ensures var m := Migrated(q, now, retryAfter, batch);
      PopsTheDue(jobs, q, Pop(jobs, m, Deadline(retryAfter, now)), now, retryAfter, batch, Delivered(jobs, m))
  {
    var m := Migrated(q, now, retryAfter, batch);
    MigrationTakesTheDue(q, now, retryAfter, batch);
    if m.ready != [] {
      assert [m.ready[0]] + m.ready[1..] == m.ready;
      AddKeepsRank(m.reserved, Deadline(retryAfter, now), jobs.reserved(m.ready[0]));
    }
  }

  class LaravelTransport {
    var queues: map<string, Queue>
    const jobs: Jobs
    const retryAfter: Option<nat>
    const batch: int

    constructor (jobs: Jobs, retryAfter: Option<nat>, batch: int)
      ensures queues == map[] && this.jobs == jobs && this.retryAfter == retryAfter && this.batch == batch
    {
      queues := map[];
      this.jobs, this.retryAfter, this.batch := jobs, retryAfter, batch;
    }

    ghost function View(key: string): Queue
      reads this
    {
      QueueOf(queues, key)
    }

    method Publish(key: string, job: string)
      modifies this
      ensures View(key) == Push(jobs, old(View(key)), job)
      ensures forall k :: k != key ==> View(k) == old(View(k))
    {
      queues := queues[key := Push(jobs, QueueOf(queues, key), job)];
    }

    // `delay` is the whole number of seconds the caller asked for, rounded up; a negative one is 0.
    method PublishDelayed(key: string, job: string, now: int, delay: int)
      modifies this
      ensures View(key) == PushDelayed(jobs, old(View(key)), job, now + if delay < 0 then 0 else delay)
      ensures Entry(At(now + if delay < 0 then 0 else delay), job) in View(key).delayed
      ensures forall k :: k != key ==> View(k) == old(View(k))
    {
      InsertAddsOne(Remove(View(key).delayed, job), Entry(At(now + if delay < 0 then 0 else delay), job));
      queues := queues[key := PushDelayed(jobs, QueueOf(queues, key), job, now + if delay < 0 then 0 else delay)];
    }

    method Migrate(key: string, now: int)
      modifies this
      ensures View(key) == Migrated(old(View(key)), now, retryAfter, batch)
      ensures forall k :: k != key ==> View(k) == old(View(k))
    {
      var q := QueueOf(queues, key);
      var kept, pushed, tokens := MigrateScript(q.delayed, q.ready, q.notify, now, batch);
      q := q.(delayed := kept, ready := pushed, notify := tokens);
      if retryAfter.Some? {
        kept, pushed, tokens := MigrateScript(q.reserved, q.ready, q.notify, now, batch);
        q := q.(reserved := kept, ready := pushed, notify := tokens);
      }
      queues := queues[key := q];
    }

    method PopScript(key: string, until: Score) returns (delivery: Option<Delivery>)
      modifies this
      ensures View(key) == Pop(jobs, old(View(key)), until)
      ensures forall k :: k != key ==> View(k) == old(View(k))
      ensures delivery == Delivered(jobs, old(View(key)))
    {
      var q := QueueOf(queues, key);
      delivery := Delivered(jobs, q);
      q := Pop(jobs, q, until);
      queues := queues[key := q];
    }

    /** One turn of `pop`: migrate, then reserve the head. */
    method PopOne(key: string, now: int) returns (delivery: Option<Delivery>)
      modifies this
      ensures View(key) == Pop(jobs, Migrated(old(View(key)), now, retryAfter, batch), Deadline(retryAfter, now))
      ensures forall k :: k != key ==> View(k) == old(View(k))
      ensures delivery == Delivered(jobs, Migrated(old(View(key)), now, retryAfter, batch))
      ensures Shaped(old(View(key))) && (batch == -1 || batch >= 1) ==>
        PopsTheDue(jobs, old(View(key)), View(key), now, retryAfter, batch, delivery)
    {
      if Shaped(View(key)) && (batch == -1 || batch >= 1) {
        PopTakesTheDue(jobs, View(key), now, retryAfter, batch);
      }
      Migrate(key, now);
      delivery := PopScript(key, Deadline(retryAfter, now));
    }

    /** `ack`; a message without a handle is ignored. */
    method Ack(key: string, handle: Option<string>)
      modifies this
      ensures View(key) == if handle.None? then old(View(key)) else End(jobs, old(View(key)), handle.value)
      ensures forall k :: k != key ==> View(k) == old(View(k))
    {
      if handle.None? { return; }
      queues := queues[key := End(jobs, QueueOf(queues, key), handle.value)];
    }

    /** `redeliver`; a message without a handle is ignored. */
    method Redeliver(key: string, handle: Option<string>, body: string, now: int, delay: int)
      modifies this
      ensures View(key) == if handle.None? then old(View(key))
        else Release(old(View(key)), handle.value, body, now + if delay < 0 then 0 else delay)
      ensures handle.Some? ==> Entry(At(now + if delay < 0 then 0 else delay), body) in View(key).delayed
      ensures handle.Some? && Shaped(old(View(key))) ==> !Has(View(key).reserved, handle.value)
      ensures forall k :: k != key ==> View(k) == old(View(k))
    {
      if handle.None? { return; }
      InsertAddsOne(Remove(View(key).delayed, body), Entry(At(now + if delay < 0 then 0 else delay), body));
      if Shaped(View(key)) { RemoveKeepsRank(View(key).reserved, handle.value); }
      queues := queues[key := Release(QueueOf(queues, key), handle.value, body, now + if delay < 0 then 0 else delay)];
    }

    /** `dead_letter`: gated, so the record is written exactly when the reservation was removed; a
        message without a handle has no reservation and is written outright. */
    method DeadLetter(key: string, handle: Option<string>, dlq: string, body: string) returns (written: bool)
      modifies this
      ensures written <==> handle.None? || Has(old(View(key)).reserved, handle.value)
      ensures forall k :: View(k) == AfterDeadLetter(jobs, old(View(k)), k, key, handle, written, dlq, body)
      ensures View(dlq).ready == old(View(dlq)).ready + (if written then [body] else [])
      ensures handle.Some? ==> View(key).reserved == Remove(old(View(key)).reserved, handle.value)
    {
      if handle.None? {
        Publish(dlq, body);
        return true;
      }
      written := Has(QueueOf(queues, key).reserved, handle.value);
      if written {
        Ack(key, handle);
        Publish(dlq, body);
      }
    }
  }

  // A queue after a dead-letter call: the source loses the reservation, the target gets the record.
  function AfterDeadLetter(jobs: Jobs, q: Queue, k: string, key: string, handle: Option<string>, written: bool,
                           dlq: string, body: string): Queue {
    var ended := if k == key && handle.Some? then End(jobs, q, handle.value) else q;
    if k == dlq && written then Push(jobs, ended, body) else ended
  }
}
