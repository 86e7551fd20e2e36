/**
 * The write protocol of the shared task store: every host keeps a cache, an operation
 * prepares its writes under its host's mutex, and each write is revalidated against the
 * disk and committed under the lock of its task file. Hosts, tasks and operations are
 * unbounded; the merge of a delta into the disk record is an arbitrary partial function.
 */
module TaskStore {
  import opened Wrappers

  type Host = nat
  type TaskId = nat
  type OpId = nat
  type Record = map<string, string>
  type Records = map<TaskId, Record>

  datatype Built = Built(task: TaskId, record: Record)

  datatype Write = Write(task: TaskId, incoming: Record, delta: Record)

  datatype Spec = Spec(
    host: Host,
    externalSnapshot: bool,
    allowRefreshAfterRead: bool,
    publishCacheAtEnd: bool,
    isEnabled: Records -> bool,
    buildWrites: Records -> seq<Built>,
    rebase: (Option<Record>, Record) -> Record)

  /** The operations and the two functions the store is given; merge answers None to reject a delta. */
  datatype System = System(
    specs: map<OpId, Spec>,
    computeDelta: (Record, Record) -> Record,
    merge: (Option<Record>, Record, Record) -> Option<Record>)

  datatype Phase = Idle | Read | Prepared | Revalidated | Done | Rejected | Failed

  datatype Operation =
    Operation(phase: Phase, snapshot: Records, writes: seq<Write>, index: nat, candidate: Option<Record>)

  datatype CommitEntry = CommitEntry(op: OpId, write: Write, previous: Option<Record>, next: Record)

  datatype State = State(
    disk: Records,
    caches: map<Host, Records>,
    mutexes: map<Host, OpId>,
    locks: map<TaskId, OpId>,
    ops: map<OpId, Operation>,
    commits: seq<CommitEntry>)

  function Get<K, V>(m: map<K, V>, k: K): Option<V> {
    if k in m then Some(m[k]) else None
  }

  /** Every operation runs on a known host and writes at least one record. */
  ghost predicate WellFormed(sys: System, hosts: set<Host>) {
    forall op :: op in sys.specs ==> sys.specs[op].host in hosts && forall r :: |sys.specs[op].buildWrites(r)| > 0
  }

  function Initial(sys: System, hosts: set<Host>, disk: Records): State {
    State(disk, map h | h in hosts :: disk, map[], map[],
          map op | op in sys.specs :: Operation(Idle, map[], [], 0, None), [])
  }

  // ---------------------------------------------------------------- steps

  datatype Step =
    | DoRead(op: OpId)
    | DoPrepare(op: OpId)
    | DoRevalidate(op: OpId)
    | DoCommit(op: OpId)
    | DoFail(op: OpId)
    | DoRefresh(host: Host)

  /** The shape every state has: one cache per host, one entry per operation. */
  predicate Shaped(sys: System, s: State) {
    && s.ops.Keys == sys.specs.Keys
    && (forall op :: op in sys.specs ==> sys.specs[op].host in s.caches)
    && (forall op :: op in s.ops && s.ops[op].phase in {Prepared, Revalidated} ==> s.ops[op].index < |s.ops[op].writes|)
  }

  function Target(o: Operation): TaskId
    requires o.index < |o.writes|
  {
    o.writes[o.index].task
  }

  /** The checks whose failure makes the script throw. */
  predicate CommitChecksPass(s: State, op: OpId)
    requires op in s.ops && s.ops[op].index < |s.ops[op].writes|
  {
    Get(s.locks, Target(s.ops[op])) == Some(op) && s.ops[op].candidate.Some?
  }

  predicate HostHasPreparedWork(sys: System, s: State, host: Host)
    requires Shaped(sys, s)
  {
    || host in s.mutexes
    || exists op :: op in sys.specs && sys.specs[op].host == host
         && (s.ops[op].phase in {Prepared, Revalidated}
             || (s.ops[op].phase.Read? && !sys.specs[op].allowRefreshAfterRead))
  }

  predicate Enabled(sys: System, s: State, step: Step)
    requires Shaped(sys, s)
  {
    match step
    case DoRead(op) =>
      op in s.ops && s.ops[op].phase.Idle? && sys.specs[op].host !in s.mutexes
      && sys.specs[op].isEnabled(s.caches[sys.specs[op].host])
    case DoPrepare(op) =>
      op in s.ops && s.ops[op].phase.Read?
      && (if sys.specs[op].externalSnapshot then sys.specs[op].host !in s.mutexes
          else Get(s.mutexes, sys.specs[op].host) == Some(op))
    case DoRevalidate(op) =>
      op in s.ops && s.ops[op].phase.Prepared? && Target(s.ops[op]) !in s.locks
    case DoCommit(op) =>
      op in s.ops && s.ops[op].phase.Revalidated? && CommitChecksPass(s, op)
    case DoFail(op) =>
      op in s.ops && s.ops[op].phase.Revalidated? && sys.specs[op].publishCacheAtEnd && s.ops[op].index > 0
      && CommitChecksPass(s, op)
    case DoRefresh(host) =>
      host in s.caches && !HostHasPreparedWork(sys, s, host) && s.caches[host] != s.disk
  }

  function PrepareWrites(sys: System, spec: Spec, o: Operation, cache: Records): seq<Write> {
    var built := spec.buildWrites(o.snapshot);
    seq(|built|, i requires 0 <= i < |built| =>
      var cached := Get(cache, built[i].task);
      var incoming := spec.rebase(cached, built[i].record);
      Write(built[i].task, incoming,
            if cached.Some? then sys.computeDelta(cached.value, incoming) else incoming))
  }

  function Publish(cache: Records, commits: seq<CommitEntry>, op: OpId): Records {
    if commits == [] then cache
    else
      var c := commits[|commits| - 1];
      var before := Publish(cache, commits[..|commits| - 1], op);
      if c.op == op then before[c.write.task := c.next] else before
  }

  function Next(sys: System, s: State, step: Step): State
    requires Shaped(sys, s) && Enabled(sys, s, step)
  {
    match step
    case DoRead(op) => ReadStep(sys, s, op)
    case DoPrepare(op) => PrepareStep(sys, s, op)
    case DoRevalidate(op) => RevalidateStep(sys, s, op)
    case DoCommit(op) => CommitStep(sys, s, op)
    case DoFail(op) => FailStep(sys, s, op)
    case DoRefresh(host) => s.(caches := s.caches[host := s.disk])
  }

  function ReadStep(sys: System, s: State, op: OpId): State
    requires Shaped(sys, s) && Enabled(sys, s, DoRead(op))
  {
    var spec := sys.specs[op];
    s.(mutexes := if spec.externalSnapshot then s.mutexes else s.mutexes[spec.host := op],
       ops := s.ops[op := s.ops[op].(phase := Read, snapshot := s.caches[spec.host])])
  }

  function PrepareStep(sys: System, s: State, op: OpId): State
    requires Shaped(sys, s) && Enabled(sys, s, DoPrepare(op))
  {
    var spec := sys.specs[op];
    s.(mutexes := s.mutexes[spec.host := op],
       ops := s.ops[op := s.ops[op].(phase := Prepared,
                                     writes := PrepareWrites(sys, spec, s.ops[op], s.caches[spec.host]))])
  }

  function RevalidateStep(sys: System, s: State, op: OpId): State
    requires Shaped(sys, s) && Enabled(sys, s, DoRevalidate(op))
  {
    var o := s.ops[op];
    var w := o.writes[o.index];
    var candidate := sys.merge(Get(s.disk, w.task), w.incoming, w.delta);
    if candidate.Some? then
      s.(locks := s.locks[w.task := op], ops := s.ops[op := o.(phase := Revalidated, candidate := candidate)])
    else
      s.(mutexes := s.mutexes - {sys.specs[op].host}, ops := s.ops[op := o.(phase := Rejected)])
  }

  function CommitStep(sys: System, s: State, op: OpId): State
    requires Shaped(sys, s) && Enabled(sys, s, DoCommit(op))
  {
    var spec, o := sys.specs[op], s.ops[op];
    var w := o.writes[o.index];
    var candidate := o.candidate.value;
    var commits := s.commits + [CommitEntry(op, w, Get(s.disk, w.task), candidate)];
    var finished := o.index + 1 == |o.writes|;
    var cache := s.caches[spec.host];
    s.(disk := s.disk[w.task := candidate],
       caches := s.caches[spec.host :=
         if !spec.publishCacheAtEnd then cache[w.task := candidate]
         else if finished then Publish(cache, commits, op) else cache],
       commits := commits,
       locks := s.locks - {w.task},
       mutexes := if finished then s.mutexes - {spec.host} else s.mutexes,
       ops := s.ops[op := o.(candidate := None, index := o.index + 1, phase := if finished then Done else Prepared)])
  }

  function FailStep(sys: System, s: State, op: OpId): State
    requires Shaped(sys, s) && Enabled(sys, s, DoFail(op))
  {
    var spec, o := sys.specs[op], s.ops[op];
    s.(caches := s.caches[spec.host := Publish(s.caches[spec.host], s.commits, op)],
       locks := s.locks - {Target(o)},
       mutexes := s.mutexes - {spec.host},
       ops := s.ops[op := o.(candidate := None, phase := Failed)])
  }

  // ---------------------------------------------------------------- the invariant

  predicate HoldsMutex(spec: Spec, o: Operation) {
    o.phase in {Prepared, Revalidated} || (o.phase.Read? && !spec.externalSnapshot)
  }

  /** A host mutex is held by exactly the operation of that host that is in its write phase. */
  ghost predicate MutexesExact(specs: map<OpId, Spec>, ops: map<OpId, Operation>, mutexes: map<Host, OpId>)
    requires ops.Keys == specs.Keys
  {
    && (forall h :: h in mutexes ==>
          mutexes[h] in ops && specs[mutexes[h]].host == h && HoldsMutex(specs[mutexes[h]], ops[mutexes[h]]))
    && (forall op :: op in ops && HoldsMutex(specs[op], ops[op]) ==> Get(mutexes, specs[op].host) == Some(op))
  }

  predicate HoldsLock(o: Operation) {
    o.phase.Revalidated? && o.index < |o.writes|
  }

  /** A file lock is held by exactly the operation whose revalidated write targets that file. */
  ghost predicate LocksExact(ops: map<OpId, Operation>, locks: map<TaskId, OpId>) {
    && (forall t :: t in locks ==> locks[t] in ops && HoldsLock(ops[locks[t]]) && Target(ops[locks[t]]) == t)
    && (forall op :: op in ops && HoldsLock(ops[op]) ==> Get(locks, Target(ops[op])) == Some(op))
  }

  predicate CandidateFresh(merge: (Option<Record>, Record, Record) -> Option<Record>, disk: Records, o: Operation) {
    HoldsLock(o) ==>
      var w := o.writes[o.index];
      o.candidate.Some? && o.candidate == merge(Get(disk, w.task), w.incoming, w.delta)
  }

  /** A revalidated candidate is the merge of its write into the disk record as it is now. */
  ghost predicate CandidatesFresh(merge: (Option<Record>, Record, Record) -> Option<Record>, disk: Records,
                                  ops: map<OpId, Operation>) {
    forall op :: op in ops ==> CandidateFresh(merge, disk, ops[op])
  }

  /** The commits of one operation, in order. */
  function CommittedBy(commits: seq<CommitEntry>, op: OpId): seq<Write> {
    if commits == [] then []
    else
      var before := CommittedBy(commits[..|commits| - 1], op);
      var c := commits[|commits| - 1];
      if c.op == op then before + [c.write] else before
  }

  /** The operation has committed exactly a prefix of its writes, in its own order. */
  predicate PrefixCommitted(commits: seq<CommitEntry>, op: OpId, o: Operation) {
    && o.index <= |o.writes|
    && CommittedBy(commits, op) == o.writes[..o.index]
    && (o.phase in {Idle, Read} ==> o.writes == [])
    && (o.phase in {Prepared, Revalidated} ==> o.index < |o.writes|)
    && (o.phase.Done? ==> o.index == |o.writes|)
  }

  ghost predicate PrefixesCommitted(commits: seq<CommitEntry>, ops: map<OpId, Operation>) {
    forall op :: op in ops ==> PrefixCommitted(commits, op, ops[op])
  }

  /** The store that applies each write at once: the specification the protocol refines. */
  function Replay(merge: (Option<Record>, Record, Record) -> Option<Record>, disk: Records,
                  commits: seq<CommitEntry>): Option<Records> {
    if commits == [] then Some(disk)
    else
      var before := Replay(merge, disk, commits[..|commits| - 1]);
      var w := commits[|commits| - 1].write;
      if before.None? then None
      else
        var merged := merge(Get(before.value, w.task), w.incoming, w.delta);
        if merged.None? then None else Some(before.value[w.task := merged.value])
  }

  /** Every commit entry tells truly what it replaced and what it wrote. */
  ghost predicate EntriesTrue(merge: (Option<Record>, Record, Record) -> Option<Record>, disk: Records,
                              commits: seq<CommitEntry>) {
    commits != [] ==>
      var init, c := commits[..|commits| - 1], commits[|commits| - 1];
      && EntriesTrue(merge, disk, init)
      && Replay(merge, disk, init).Some?
      && c.previous == Get(Replay(merge, disk, init).value, c.write.task)
      && merge(c.previous, c.write.incoming, c.write.delta) == Some(c.next)
  }

  /** The disk is what the atomic store would hold after the same writes. */
  ghost predicate DiskIsReplay(merge: (Option<Record>, Record, Record) -> Option<Record>, start: Records, s: State) {
    Replay(merge, start, s.commits) == Some(s.disk) && EntriesTrue(merge, start, s.commits)
  }

  ghost predicate Inv(sys: System, start: Records, s: State) {
    && Shaped(sys, s)
    && MutexesExact(sys.specs, s.ops, s.mutexes)
    && LocksExact(s.ops, s.locks)
    && CandidatesFresh(sys.merge, s.disk, s.ops)
    && PrefixesCommitted(s.commits, s.ops)
    && DiskIsReplay(sys.merge, start, s)
  }

  lemma InitialInv(sys: System, hosts: set<Host>, disk: Records)
    requires WellFormed(sys, hosts)
    ensures Inv(sys, disk, Initial(sys, hosts, disk))
  {
  }

  // ---------------------------------------------------------------- one operation moves

  lemma GrantMutex(specs: map<OpId, Spec>, ops: map<OpId, Operation>, mutexes: map<Host, OpId>, op: OpId, o: Operation)
    requires ops.Keys == specs.Keys && MutexesExact(specs, ops, mutexes) && op in ops && HoldsMutex(specs[op], o)
    requires specs[op].host !in mutexes || mutexes[specs[op].host] == op
    ensures ops[op := o].Keys == specs.Keys
    ensures MutexesExact(specs, ops[op := o], mutexes[specs[op].host := op])
  {
  }

  lemma WithoutMutex(specs: map<OpId, Spec>, ops: map<OpId, Operation>, mutexes: map<Host, OpId>, op: OpId,
                     o: Operation)
    requires ops.Keys == specs.Keys && MutexesExact(specs, ops, mutexes) && op in ops && !HoldsMutex(specs[op], o)
    ensures ops[op := o].Keys == specs.Keys
    ensures HoldsMutex(specs[op], ops[op]) ==> MutexesExact(specs, ops[op := o], mutexes - {specs[op].host})
    ensures !HoldsMutex(specs[op], ops[op]) ==> MutexesExact(specs, ops[op := o], mutexes)
  {
  }

  lemma TakeLock(ops: map<OpId, Operation>, locks: map<TaskId, OpId>, op: OpId, o: Operation)
    requires LocksExact(ops, locks) && op in ops && !HoldsLock(ops[op]) && HoldsLock(o) && Target(o) !in locks
    ensures LocksExact(ops[op := o], locks[Target(o) := op])
  {
  }

  lemma WithoutLock(ops: map<OpId, Operation>, locks: map<TaskId, OpId>, op: OpId, o: Operation)
    requires LocksExact(ops, locks) && op in ops && !HoldsLock(o)
    ensures HoldsLock(ops[op]) ==> LocksExact(ops[op := o], locks - {Target(ops[op])})
    ensures !HoldsLock(ops[op]) ==> LocksExact(ops[op := o], locks)
  {
  }

  /** Nobody else holds a candidate for the file that is being committed. */
  lemma CommitKeepsOthersFresh(
      merge: (Option<Record>, Record, Record) -> Option<Record>, disk: Records, ops: map<OpId, Operation>,
      locks: map<TaskId, OpId>, op: OpId, o: Operation, next: Record)
    requires CandidatesFresh(merge, disk, ops) && LocksExact(ops, locks)
    requires op in ops && HoldsLock(ops[op]) && !HoldsLock(o)
    ensures CandidatesFresh(merge, disk[Target(ops[op]) := next], ops[op := o])
  {
    var t := Target(ops[op]);
    var after := ops[op := o];
    forall p | p in after
      ensures CandidateFresh(merge, disk[t := next], after[p])
    {
      if p != op && HoldsLock(ops[p]) {
        assert Get(locks, Target(ops[p])) == Some(p) && Get(locks, t) == Some(op);
        assert CandidateFresh(merge, disk, ops[p]);
      }
    }
  }

  lemma AppendCommit(commits: seq<CommitEntry>, c: CommitEntry, op: OpId)
    ensures CommittedBy(commits + [c], op) == CommittedBy(commits, op) + if c.op == op then [c.write] else []
  {
    assert (commits + [c])[..|commits|] == commits;
  }

  lemma CommitKeepsPrefixes(commits: seq<CommitEntry>, ops: map<OpId, Operation>, op: OpId, o: Operation,
                            c: CommitEntry)
    requires PrefixesCommitted(commits, ops) && op in ops && HoldsLock(ops[op])
    requires c.op == op && c.write == ops[op].writes[ops[op].index]
    requires o.writes == ops[op].writes && o.index == ops[op].index + 1
    requires o.phase == if o.index == |o.writes| then Done else Prepared
    ensures PrefixesCommitted(commits + [c], ops[op := o])
  {
    var after := ops[op := o];
    forall p | p in after
      ensures PrefixCommitted(commits + [c], p, after[p])
    {
      AppendCommit(commits, c, p);
      assert PrefixCommitted(commits, p, ops[p]);
    }
  }

  lemma CommitExtendsReplay(merge: (Option<Record>, Record, Record) -> Option<Record>, start: Records, disk: Records,
                            commits: seq<CommitEntry>, c: CommitEntry)
    requires Replay(merge, start, commits) == Some(disk) && EntriesTrue(merge, start, commits)
    requires c.previous == Get(disk, c.write.task)
    requires merge(c.previous, c.write.incoming, c.write.delta) == Some(c.next)
    ensures Replay(merge, start, commits + [c]) == Some(disk[c.write.task := c.next])
    ensures EntriesTrue(merge, start, commits + [c])
  {
    assert (commits + [c])[..|commits|] == commits;
  }

  /** What one operation's move must satisfy when the disk and the commits stay. */
  lemma MoveKeepsRest(merge: (Option<Record>, Record, Record) -> Option<Record>, disk: Records,
                      commits: seq<CommitEntry>, ops: map<OpId, Operation>, op: OpId, o: Operation)
    requires CandidatesFresh(merge, disk, ops) && PrefixesCommitted(commits, ops) && op in ops
    requires CandidateFresh(merge, disk, o) && PrefixCommitted(commits, op, o)
    ensures CandidatesFresh(merge, disk, ops[op := o]) && PrefixesCommitted(commits, ops[op := o])
  {
  }

  lemma MoveKeepsShape(sys: System, s: State, t: State, op: OpId, o: Operation)
    requires Shaped(sys, s) && op in s.ops && t.ops == s.ops[op := o] && t.caches.Keys == s.caches.Keys
    requires o.phase in {Prepared, Revalidated} ==> o.index < |o.writes|
    ensures Shaped(sys, t)
  {
  }

  // ---------------------------------------------------------------- the steps

  lemma ReadKeeps(sys: System, start: Records, s: State, op: OpId)
    requires Inv(sys, start, s) && Enabled(sys, s, DoRead(op))
    ensures Inv(sys, start, ReadStep(sys, s, op))
  {
    var t := ReadStep(sys, s, op);
    var o := t.ops[op];
    assert PrefixCommitted(s.commits, op, s.ops[op]);
    MoveKeepsShape(sys, s, t, op, o);
    if sys.specs[op].externalSnapshot {
      WithoutMutex(sys.specs, s.ops, s.mutexes, op, o);
    } else {
      GrantMutex(sys.specs, s.ops, s.mutexes, op, o);
    }
    WithoutLock(s.ops, s.locks, op, o);
    MoveKeepsRest(sys.merge, s.disk, s.commits, s.ops, op, o);
  }

  lemma PrepareKeeps(sys: System, hosts: set<Host>, start: Records, s: State, op: OpId)
    requires WellFormed(sys, hosts) && Inv(sys, start, s) && Enabled(sys, s, DoPrepare(op))
    ensures Inv(sys, start, PrepareStep(sys, s, op))
  {
    var t := PrepareStep(sys, s, op);
    var o := t.ops[op];
    assert PrefixCommitted(s.commits, op, s.ops[op]);
    assert s.ops[op].index == 0 && CommittedBy(s.commits, op) == [];
    MoveKeepsShape(sys, s, t, op, o);
    GrantMutex(sys.specs, s.ops, s.mutexes, op, o);
    WithoutLock(s.ops, s.locks, op, o);
    MoveKeepsRest(sys.merge, s.disk, s.commits, s.ops, op, o);
  }

  lemma RevalidateMutexes(sys: System, s: State, op: OpId)
    requires Shaped(sys, s) && Enabled(sys, s, DoRevalidate(op)) && MutexesExact(sys.specs, s.ops, s.mutexes)
    ensures
      var t := RevalidateStep(sys, s, op);
      t.ops.Keys == sys.specs.Keys && MutexesExact(sys.specs, t.ops, t.mutexes)
  {
    var t := RevalidateStep(sys, s, op);
    if t.ops[op].phase.Revalidated? {
      assert t.mutexes == s.mutexes[sys.specs[op].host := op];
      GrantMutex(sys.specs, s.ops, s.mutexes, op, t.ops[op]);
    } else {
      WithoutMutex(sys.specs, s.ops, s.mutexes, op, t.ops[op]);
    }
  }

  lemma RevalidateLocks(sys: System, s: State, op: OpId)
    requires Shaped(sys, s) && Enabled(sys, s, DoRevalidate(op)) && LocksExact(s.ops, s.locks)
    ensures LocksExact(RevalidateStep(sys, s, op).ops, RevalidateStep(sys, s, op).locks)
  {
    var t := RevalidateStep(sys, s, op);
    if t.ops[op].phase.Revalidated? {
      TakeLock(s.ops, s.locks, op, t.ops[op]);
    } else {
      WithoutLock(s.ops, s.locks, op, t.ops[op]);
    }
  }

  lemma RevalidateLocal(sys: System, s: State, op: OpId)
    requires Shaped(sys, s) && Enabled(sys, s, DoRevalidate(op)) && PrefixCommitted(s.commits, op, s.ops[op])
    ensures
      var t := RevalidateStep(sys, s, op);
      && t.ops == s.ops[op := t.ops[op]]
      && CandidateFresh(sys.merge, s.disk, t.ops[op]) && PrefixCommitted(s.commits, op, t.ops[op])
  {
  }

  lemma RevalidateRest(sys: System, s: State, op: OpId)
    requires Shaped(sys, s) && Enabled(sys, s, DoRevalidate(op))
    requires CandidatesFresh(sys.merge, s.disk, s.ops) && PrefixesCommitted(s.commits, s.ops)
    ensures
      var t := RevalidateStep(sys, s, op);
      Shaped(sys, t) && CandidatesFresh(sys.merge, t.disk, t.ops) && PrefixesCommitted(t.commits, t.ops)
  {
    var t := RevalidateStep(sys, s, op);
    RevalidateLocal(sys, s, op);
    MoveKeepsShape(sys, s, t, op, t.ops[op]);
    MoveKeepsRest(sys.merge, s.disk, s.commits, s.ops, op, t.ops[op]);
  }

  lemma RevalidateKeeps(sys: System, start: Records, s: State, op: OpId)
    requires Inv(sys, start, s) && Enabled(sys, s, DoRevalidate(op))
    ensures Inv(sys, start, RevalidateStep(sys, s, op))
  {
    RevalidateMutexes(sys, s, op);
    RevalidateLocks(sys, s, op);
    RevalidateRest(sys, s, op);
  }

  lemma FailRest(sys: System, s: State, op: OpId)
    requires Shaped(sys, s) && Enabled(sys, s, DoFail(op))
    requires CandidatesFresh(sys.merge, s.disk, s.ops) && PrefixesCommitted(s.commits, s.ops)
    ensures
      var t := FailStep(sys, s, op);
      Shaped(sys, t) && CandidatesFresh(sys.merge, t.disk, t.ops) && PrefixesCommitted(t.commits, t.ops)
  {
    var t := FailStep(sys, s, op);
    assert PrefixCommitted(s.commits, op, s.ops[op]);
    MoveKeepsShape(sys, s, t, op, t.ops[op]);
    MoveKeepsRest(sys.merge, s.disk, s.commits, s.ops, op, t.ops[op]);
  }

  lemma FailReleases(sys: System, s: State, op: OpId)
    requires Shaped(sys, s) && Enabled(sys, s, DoFail(op))
    requires MutexesExact(sys.specs, s.ops, s.mutexes) && LocksExact(s.ops, s.locks)
    ensures
      var t := FailStep(sys, s, op);
      t.ops.Keys == sys.specs.Keys && MutexesExact(sys.specs, t.ops, t.mutexes) && LocksExact(t.ops, t.locks)
  {
    hide MutexesExact, LocksExact;
    var o := FailStep(sys, s, op).ops[op];
    WithoutMutex(sys.specs, s.ops, s.mutexes, op, o);
    WithoutLock(s.ops, s.locks, op, o);
  }

  lemma FailKeeps(sys: System, start: Records, s: State, op: OpId)
    requires Inv(sys, start, s) && Enabled(sys, s, DoFail(op))
    ensures Inv(sys, start, FailStep(sys, s, op))
  {
    FailReleases(sys, s, op);
    FailRest(sys, s, op);
  }

  lemma CommitMutexes(sys: System, s: State, op: OpId)
    requires Shaped(sys, s) && Enabled(sys, s, DoCommit(op)) && MutexesExact(sys.specs, s.ops, s.mutexes)
    ensures
      var t := CommitStep(sys, s, op);
      t.ops.Keys == sys.specs.Keys && MutexesExact(sys.specs, t.ops, t.mutexes)
  {
    var t := CommitStep(sys, s, op);
    if t.ops[op].phase.Done? {
      WithoutMutex(sys.specs, s.ops, s.mutexes, op, t.ops[op]);
    } else {
      assert t.mutexes == s.mutexes[sys.specs[op].host := op];
      GrantMutex(sys.specs, s.ops, s.mutexes, op, t.ops[op]);
    }
  }

  lemma CommitLocks(sys: System, s: State, op: OpId)
    requires Shaped(sys, s) && Enabled(sys, s, DoCommit(op)) && LocksExact(s.ops, s.locks)
    requires CandidatesFresh(sys.merge, s.disk, s.ops)
    ensures
      var t := CommitStep(sys, s, op);
      LocksExact(t.ops, t.locks) && CandidatesFresh(sys.merge, t.disk, t.ops)
  {
    var o := CommitStep(sys, s, op).ops[op];
    WithoutLock(s.ops, s.locks, op, o);
    CommitKeepsOthersFresh(sys.merge, s.disk, s.ops, s.locks, op, o, s.ops[op].candidate.value);
  }

  lemma CommitPrefixes(sys: System, s: State, op: OpId)
    requires Shaped(sys, s) && Enabled(sys, s, DoCommit(op)) && PrefixesCommitted(s.commits, s.ops)
    ensures
      var t := CommitStep(sys, s, op);
      Shaped(sys, t) && PrefixesCommitted(t.commits, t.ops)
  {
    var t := CommitStep(sys, s, op);
    MoveKeepsShape(sys, s, t, op, t.ops[op]);
    CommitKeepsPrefixes(s.commits, s.ops, op, t.ops[op], t.commits[|s.commits|]);
  }

  lemma CommitReplay(sys: System, start: Records, s: State, op: OpId)
    requires Shaped(sys, s) && Enabled(sys, s, DoCommit(op))
    requires CandidateFresh(sys.merge, s.disk, s.ops[op]) && DiskIsReplay(sys.merge, start, s)
    ensures DiskIsReplay(sys.merge, start, CommitStep(sys, s, op))
  {
    CommitExtendsReplay(sys.merge, start, s.disk, s.commits, CommitStep(sys, s, op).commits[|s.commits|]);
  }

  lemma CommitKeeps(sys: System, start: Records, s: State, op: OpId)
    requires Inv(sys, start, s) && Enabled(sys, s, DoCommit(op))
    ensures Inv(sys, start, CommitStep(sys, s, op))
  {
    CommitMutexes(sys, s, op);
    CommitLocks(sys, s, op);
    CommitPrefixes(sys, s, op);
    CommitReplay(sys, start, s, op);
  }

  lemma RefreshKeeps(sys: System, start: Records, s: State, host: Host)
    requires Inv(sys, start, s) && Enabled(sys, s, DoRefresh(host))
    ensures Inv(sys, start, Next(sys, s, DoRefresh(host)))
  {
  }

  lemma StepKeepsInv(sys: System, hosts: set<Host>, start: Records, s: State, step: Step)
    requires WellFormed(sys, hosts) && Inv(sys, start, s) && Enabled(sys, s, step)
    ensures Inv(sys, start, Next(sys, s, step))
  {
    hide Inv, Enabled, ReadStep, PrepareStep, RevalidateStep, CommitStep, FailStep;
    match step {
      case DoRead(op) => ReadKeeps(sys, start, s, op);
      case DoPrepare(op) => PrepareKeeps(sys, hosts, start, s, op);
      case DoRevalidate(op) => RevalidateKeeps(sys, start, s, op);
      case DoCommit(op) => CommitKeeps(sys, start, s, op);
      case DoFail(op) => FailKeeps(sys, start, s, op);
      case DoRefresh(host) => RefreshKeeps(sys, start, s, host);
    }
  }

  // ---------------------------------------------------------------- whole runs

  function Run(sys: System, s: State, steps: seq<Step>): Option<State>
    requires Shaped(sys, s)
    decreases |steps|
  {
    if steps == [] then Some(s)
    else if !Enabled(sys, s, steps[0]) then None
    else
      var t := Next(sys, s, steps[0]);
      if Shaped(sys, t) then Run(sys, t, steps[1..]) else None
  }

  /** A well-formed system never loses its shape, so a run stops only at a disabled step. */
  lemma {:induction false} RunKeepsInv(sys: System, hosts: set<Host>, start: Records, s: State, steps: seq<Step>)
    requires WellFormed(sys, hosts) && Inv(sys, start, s)
    ensures Run(sys, s, steps).Some? ==> Inv(sys, start, Run(sys, s, steps).value)
    decreases |steps|
  {
    if steps != [] && Enabled(sys, s, steps[0]) {
      StepKeepsInv(sys, hosts, start, s, steps[0]);
      RunKeepsInv(sys, hosts, start, Next(sys, s, steps[0]), steps[1..]);
    }
  }

  ghost predicate Reachable(sys: System, hosts: set<Host>, start: Records, s: State) {
    && WellFormed(sys, hosts)
    && Shaped(sys, Initial(sys, hosts, start))
    && exists steps :: Run(sys, Initial(sys, hosts, start), steps) == Some(s)
  }

  lemma ReachableInv(sys: System, hosts: set<Host>, start: Records, s: State)
    requires Reachable(sys, hosts, start, s)
    ensures Inv(sys, start, s)
  {
    InitialInv(sys, hosts, start);
    var steps :| Run(sys, Initial(sys, hosts, start), steps) == Some(s);
    RunKeepsInv(sys, hosts, start, Initial(sys, hosts, start), steps);
  }

  /**
   * Concurrent writes are serializable: the disk is what a store would hold that merged each
   * committed write at once, in commit order, and no merge of that store is refused.
   */
  lemma DiskIsSerial(sys: System, hosts: set<Host>, start: Records, s: State)
    requires Reachable(sys, hosts, start, s)
    ensures Replay(sys.merge, start, s.commits) == Some(s.disk)
  {
    ReachableInv(sys, hosts, start, s);
  }

  lemma {:induction false} EntryIsTrue(merge: (Option<Record>, Record, Record) -> Option<Record>, start: Records,
                                       commits: seq<CommitEntry>, i: nat)
    requires EntriesTrue(merge, start, commits) && i < |commits|
    ensures Replay(merge, start, commits[..i]).Some? && Replay(merge, start, commits[..i + 1]).Some?
    ensures
      var c := commits[i];
      var before := Replay(merge, start, commits[..i]).value;
      && c.previous == Get(before, c.write.task)
      && merge(c.previous, c.write.incoming, c.write.delta) == Some(c.next)
      && Replay(merge, start, commits[..i + 1]).value == before[c.write.task := c.next]
    decreases |commits|
  {
    var init := commits[..|commits| - 1];
    assert commits[..i + 1][..i] == commits[..i];
    if i < |init| {
      EntryIsTrue(merge, start, init, i);
      assert init[..i] == commits[..i] && init[..i + 1] == commits[..i + 1];
    } else {
      assert commits[..i] == init;
    }
  }

  /** A revalidated write can always commit: the checks that would throw never fail. */
  lemma ChecksNeverThrow(sys: System, hosts: set<Host>, start: Records, s: State, op: OpId)
    requires Reachable(sys, hosts, start, s) && op in s.ops && s.ops[op].phase.Revalidated?
    ensures Shaped(sys, s) && Enabled(sys, s, DoCommit(op))
    ensures
      var w := s.ops[op].writes[s.ops[op].index];
      s.ops[op].candidate == sys.merge(Get(s.disk, w.task), w.incoming, w.delta)
  {
    ReachableInv(sys, hosts, start, s);
    assert PrefixCommitted(s.commits, op, s.ops[op]);
    assert CandidateFresh(sys.merge, s.disk, s.ops[op]);
  }

  function Mover(step: Step): Option<OpId> {
    match step
    case DoRead(op) => Some(op)
    case DoPrepare(op) => Some(op)
    case DoRevalidate(op) => Some(op)
    case DoCommit(op) => Some(op)
    case DoFail(op) => Some(op)
    case DoRefresh(_) => None
  }

  /** The step that brings an operation in its write phase on: its own next one, or the commit it waits for. */
  function StepFor(s: State, op: OpId): Step
    requires op in s.ops && (s.ops[op].phase.Prepared? ==> s.ops[op].index < |s.ops[op].writes|)
  {
    var o := s.ops[op];
    match o.phase
    case Prepared => if Target(o) in s.locks then DoCommit(s.locks[Target(o)]) else DoRevalidate(op)
    case Revalidated => DoCommit(op)
    case _ => DoPrepare(op)
  }

  lemma RevalidatedCanCommit(sys: System, start: Records, s: State, op: OpId)
    requires Inv(sys, start, s) && op in s.ops && s.ops[op].phase.Revalidated?
    ensures Enabled(sys, s, DoCommit(op))
  {
    assert PrefixCommitted(s.commits, op, s.ops[op]);
    assert CandidateFresh(sys.merge, s.disk, s.ops[op]);
  }

  lemma ReaderCanPrepare(sys: System, start: Records, s: State, op: OpId)
    requires Inv(sys, start, s) && op in s.ops && HoldsMutex(sys.specs[op], s.ops[op]) && s.ops[op].phase.Read?
    ensures Enabled(sys, s, DoPrepare(op))
  {
  }

  lemma LockHolderWrites(sys: System, start: Records, s: State, t: TaskId)
    requires Inv(sys, start, s) && t in s.locks
    ensures s.locks[t] in s.ops && s.ops[s.locks[t]].phase.Revalidated?
  {
  }

  lemma FreeWriteCanRevalidate(sys: System, start: Records, s: State, op: OpId)
    requires Inv(sys, start, s) && op in s.ops && s.ops[op].phase.Prepared? && s.ops[op].index < |s.ops[op].writes|
    requires Target(s.ops[op]) !in s.locks
    ensures Enabled(sys, s, DoRevalidate(op))
  {
  }

  lemma InvIsShaped(sys: System, start: Records, s: State)
    requires Inv(sys, start, s)
    ensures Shaped(sys, s)
  {
  }

  lemma HolderCanMove(sys: System, start: Records, s: State, op: OpId)
    requires Inv(sys, start, s) && op in s.ops && HoldsMutex(sys.specs[op], s.ops[op])
    requires s.ops[op].phase.Prepared? ==> s.ops[op].index < |s.ops[op].writes|
    ensures Shaped(sys, s) && Enabled(sys, s, StepFor(s, op))
    ensures
      var p := Mover(StepFor(s, op));
      && p.Some? && p.value in s.ops
      && (p != Some(op) ==> s.ops[op].phase.Prepared? && Target(s.ops[op]) in s.locks
                            && p == Some(s.locks[Target(s.ops[op])]) && StepFor(s, op) == DoCommit(p.value))
  {
    hide Inv, Shaped, Enabled;
    InvIsShaped(sys, start, s);
    if s.ops[op].phase.Read? {
      ReaderCanPrepare(sys, start, s, op);
    } else if s.ops[op].phase.Revalidated? {
      RevalidatedCanCommit(sys, start, s, op);
    } else if Target(s.ops[op]) in s.locks {
      LockHolderWrites(sys, start, s, Target(s.ops[op]));
      RevalidatedCanCommit(sys, start, s, s.locks[Target(s.ops[op])]);
    } else {
      FreeWriteCanRevalidate(sys, start, s, op);
    }
  }

  /** What the invariant says of the holder of a mutex. */
  lemma HolderOf(sys: System, start: Records, s: State, h: Host)
    requires Inv(sys, start, s) && h in s.mutexes
    ensures
      var op := s.mutexes[h];
      && Shaped(sys, s) && op in s.ops && op in sys.specs
      && sys.specs[op].host == h && HoldsMutex(sys.specs[op], s.ops[op])
      && (s.ops[op].phase.Prepared? ==> s.ops[op].index < |s.ops[op].writes|)
  {
  }

  /**
   * No deadlock: while a host mutex is held, an operation that is writing, the holder or the one it
   * waits for, can go on.
   */
  lemma HeldMutexMakesProgress(sys: System, hosts: set<Host>, start: Records, s: State, h: Host)
    requires Reachable(sys, hosts, start, s) && h in s.mutexes
    ensures Shaped(sys, s) && s.mutexes[h] in s.ops
    ensures
      var op := s.mutexes[h];
      var step := StepFor(s, op);
      && Enabled(sys, s, step)
      && (Mover(step) == Some(op)
          || (s.ops[op].phase.Prepared? && step == DoCommit(s.locks[Target(s.ops[op])])))
  {
    ReachableInv(sys, hosts, start, s);
    HolderOf(sys, start, s, h);
    HolderCanMove(sys, start, s, s.mutexes[h]);
  }

  function Remaining(o: Operation): nat {
    if o.index <= |o.writes| then |o.writes| - o.index else 0
  }

  /** Prepared behind a lock, prepared, revalidated. */
  function Distance(s: State, o: Operation): nat {
    if !o.phase.Prepared? then 0 else if o.index < |o.writes| && Target(o) in s.locks then 2 else 1
  }

  /** The step lets the holder finish, or brings it closer to it. */
  predicate Closer(s: State, t: State, op: OpId, h: Host)
    requires op in s.ops
  {
    && op in t.ops
    && (if h in t.mutexes then
          var o, p := s.ops[op], t.ops[op];
          && t.mutexes[h] == op
          && (|| (o.phase.Read? && !p.phase.Read?)
              || (!o.phase.Read? && !p.phase.Read? && Remaining(p) < Remaining(o))
              || (!o.phase.Read? && !p.phase.Read? && Remaining(p) == Remaining(o) && Distance(t, p) < Distance(s, o)))
        else t.ops[op].phase in {Done, Rejected})
  }

  lemma PrepareIsCloser(sys: System, hosts: set<Host>, s: State, op: OpId)
    requires WellFormed(sys, hosts) && Shaped(sys, s) && op in s.ops && Enabled(sys, s, DoPrepare(op))
    ensures Closer(s, PrepareStep(sys, s, op), op, sys.specs[op].host)
  {
  }

  lemma RevalidateIsCloser(sys: System, s: State, op: OpId)
    requires Shaped(sys, s) && op in s.ops && Get(s.mutexes, sys.specs[op].host) == Some(op)
    requires Enabled(sys, s, DoRevalidate(op))
    ensures Closer(s, RevalidateStep(sys, s, op), op, sys.specs[op].host)
  {
  }

  lemma CommitIsCloser(sys: System, s: State, op: OpId)
    requires Shaped(sys, s) && op in s.ops && Get(s.mutexes, sys.specs[op].host) == Some(op)
    requires Enabled(sys, s, DoCommit(op))
    ensures Closer(s, CommitStep(sys, s, op), op, sys.specs[op].host)
  {
  }

  lemma OwnStepIsCloser(sys: System, hosts: set<Host>, s: State, op: OpId)
    requires WellFormed(sys, hosts) && Shaped(sys, s) && op in s.ops && HoldsMutex(sys.specs[op], s.ops[op])
    requires Get(s.mutexes, sys.specs[op].host) == Some(op)
    requires Enabled(sys, s, StepFor(s, op)) && Mover(StepFor(s, op)) == Some(op)
    ensures Closer(s, Next(sys, s, StepFor(s, op)), op, sys.specs[op].host)
  {
    var step := StepFor(s, op);
    hide WellFormed, Shaped, Enabled, PrepareStep, RevalidateStep, CommitStep, Closer;
    match step {
      case DoPrepare(_) => PrepareIsCloser(sys, hosts, s, op);
      case DoRevalidate(_) => RevalidateIsCloser(sys, s, op);
      case DoCommit(_) => CommitIsCloser(sys, s, op);
    }
  }

  lemma CommitLeavesOthers(sys: System, s: State, p: OpId)
    requires Shaped(sys, s) && Enabled(sys, s, DoCommit(p))
    ensures
      var t := CommitStep(sys, s, p);
      && t.ops.Keys == s.ops.Keys && (forall op :: op in s.ops && op != p ==> t.ops[op] == s.ops[op])
      && t.locks == s.locks - {Target(s.ops[p])}
      && (t.mutexes == s.mutexes || t.mutexes == s.mutexes - {sys.specs[p].host})
  {
  }

  lemma LockHolderIsElsewhere(sys: System, start: Records, s: State, op: OpId, t: TaskId)
    requires Inv(sys, start, s) && op in s.ops && s.ops[op].phase.Prepared? && t in s.locks
    ensures
      var p := s.locks[t];
      && p != op && p in s.ops && s.ops[p].index < |s.ops[p].writes| && Target(s.ops[p]) == t
      && sys.specs[p].host != sys.specs[op].host
  {
    assert HoldsMutex(sys.specs[s.locks[t]], s.ops[s.locks[t]]) && HoldsMutex(sys.specs[op], s.ops[op]);
  }

  lemma AwaitedStepIsCloser(sys: System, start: Records, s: State, op: OpId, p: OpId)
    requires Inv(sys, start, s) && Shaped(sys, s) && op in s.ops && Get(s.mutexes, sys.specs[op].host) == Some(op)
    requires s.ops[op].phase.Prepared? && s.ops[op].index < |s.ops[op].writes|
    requires Get(s.locks, Target(s.ops[op])) == Some(p) && Enabled(sys, s, DoCommit(p))
    ensures Closer(s, CommitStep(sys, s, p), op, sys.specs[op].host)
  {
    hide Inv, Shaped, Enabled, CommitStep;
    LockHolderIsElsewhere(sys, start, s, op, Target(s.ops[op]));
    CommitLeavesOthers(sys, s, p);
  }

  lemma HolderGetsCloser(sys: System, hosts: set<Host>, start: Records, s: State, h: Host)
    requires WellFormed(sys, hosts) && Inv(sys, start, s) && h in s.mutexes
    ensures
      var op := s.mutexes[h];
      && Shaped(sys, s) && op in s.ops
      && (s.ops[op].phase.Prepared? ==> s.ops[op].index < |s.ops[op].writes|)
      && Mover(StepFor(s, op)).Some? && Enabled(sys, s, StepFor(s, op))
      && Closer(s, Next(sys, s, StepFor(s, op)), op, h)
  {
    hide Inv, Enabled, Closer, CommitStep, PrepareStep, RevalidateStep;
    HolderOf(sys, start, s, h);
    var op := s.mutexes[h];
    HolderCanMove(sys, start, s, op);
    if Mover(StepFor(s, op)) == Some(op) {
      OwnStepIsCloser(sys, hosts, s, op);
    } else {
      AwaitedStepIsCloser(sys, start, s, op, s.locks[Target(s.ops[op])]);
    }
  }

  lemma {:induction false} HolderFinishes(sys: System, hosts: set<Host>, start: Records, s: State, h: Host, op: OpId)
    returns (steps: seq<Step>)
    requires WellFormed(sys, hosts) && Inv(sys, start, s) && Shaped(sys, s)
    requires Get(s.mutexes, h) == Some(op) && op in s.ops
    ensures forall step :: step in steps ==> Mover(step).Some?
    ensures Run(sys, s, steps).Some?
    ensures
      var t := Run(sys, s, steps).value;
      h !in t.mutexes && op in t.ops && t.ops[op].phase in {Done, Rejected}
    decreases s.ops[op].phase.Read?, Remaining(s.ops[op]), Distance(s, s.ops[op])
  {
    hide Inv, Enabled, Shaped, Next, StepFor, WellFormed, Remaining, Distance;
    HolderGetsCloser(sys, hosts, start, s, h);
    var step := StepFor(s, op);
    var t := Next(sys, s, step);
    StepKeepsInv(sys, hosts, start, s, step);
    InvIsShaped(sys, start, t);
    var rest := [];
    if h in t.mutexes {
      rest := HolderFinishes(sys, hosts, start, t, h, op);
    }
    steps := [step] + rest;
    assert steps[1..] == rest;
  }

  /**
   * From every reachable state with a held mutex, steps of operations alone lead to its release,
   * its holder done or rejected.
   */
  lemma HeldMutexIsReleased(sys: System, hosts: set<Host>, start: Records, s: State, h: Host) returns (steps: seq<Step>)
    requires Reachable(sys, hosts, start, s) && h in s.mutexes
    ensures forall step :: step in steps ==> Mover(step).Some?
    ensures Shaped(sys, s) && Run(sys, s, steps).Some?
    ensures
      var t := Run(sys, s, steps).value;
      h !in t.mutexes && s.mutexes[h] in t.ops && t.ops[s.mutexes[h]].phase in {Done, Rejected}
  {
    ReachableInv(sys, hosts, start, s);
    HolderOf(sys, start, s, h);
    steps := HolderFinishes(sys, hosts, start, s, h, s.mutexes[h]);
  }

  lemma ExactOwners(specs: map<OpId, Spec>, ops: map<OpId, Operation>, mutexes: map<Host, OpId>,
                    locks: map<TaskId, OpId>, op: OpId)
    requires ops.Keys == specs.Keys && MutexesExact(specs, ops, mutexes) && LocksExact(ops, locks) && op in ops
    ensures forall h :: Get(mutexes, h) == Some(op) <==> h == specs[op].host && HoldsMutex(specs[op], ops[op])
    ensures forall t :: Get(locks, t) == Some(op) <==> HoldsLock(ops[op]) && t == Target(ops[op])
  {
  }

  /**
   * The script's own invariants: mutex and lock owners are exactly the operations in the
   * matching phase, and an operation has committed a prefix of its writes in its order.
   */
  lemma OwnersAreExact(sys: System, hosts: set<Host>, start: Records, s: State, op: OpId)
    requires Reachable(sys, hosts, start, s) && op in s.ops
    ensures op in sys.specs
    ensures forall h :: Get(s.mutexes, h) == Some(op) <==>
              h == sys.specs[op].host && HoldsMutex(sys.specs[op], s.ops[op])
    ensures forall t :: Get(s.locks, t) == Some(op) <==> HoldsLock(s.ops[op]) && t == Target(s.ops[op])
    ensures PrefixCommitted(s.commits, op, s.ops[op])
  {
    ReachableInv(sys, hosts, start, s);
    ExactOwners(sys.specs, s.ops, s.mutexes, s.locks, op);
  }

  // ---------------------------------------------------------------- no lost update

  lemma {:induction false} RunConcat(sys: System, s: State, first: seq<Step>, second: seq<Step>)
    requires Shaped(sys, s) && Run(sys, s, first).Some? && Shaped(sys, Run(sys, s, first).value)
    ensures Run(sys, s, first + second) == Run(sys, Run(sys, s, first).value, second)
    decreases |first|
  {
    hide Shaped, Enabled, Next;
    if first == [] {
      assert first + second == second;
    } else {
      RunConcat(sys, Next(sys, s, first[0]), first[1..], second);
      assert (first + second)[1..] == first[1..] + second;
    }
  }

  lemma ReachableRun(sys: System, hosts: set<Host>, start: Records, s: State, steps: seq<Step>)
    requires Reachable(sys, hosts, start, s) && Shaped(sys, s) && Run(sys, s, steps).Some?
    ensures Reachable(sys, hosts, start, Run(sys, s, steps).value)
  {
    var first :| Run(sys, Initial(sys, hosts, start), first) == Some(s);
    RunConcat(sys, Initial(sys, hosts, start), first, steps);
  }

  lemma StepExtendsCommits(sys: System, s: State, step: Step)
    requires Shaped(sys, s) && Enabled(sys, s, step)
    ensures s.commits <= Next(sys, s, step).commits
  {
  }

  lemma {:induction false} RunExtendsCommits(sys: System, s: State, steps: seq<Step>)
    requires Shaped(sys, s) && Run(sys, s, steps).Some?
    ensures s.commits <= Run(sys, s, steps).value.commits
    decreases |steps|
  {
    if steps != [] {
      StepExtendsCommits(sys, s, steps[0]);
      RunExtendsCommits(sys, Next(sys, s, steps[0]), steps[1..]);
    }
  }

  /** The merge keeps every disk field that the delta does not name. */
  ghost predicate KeepsFields(merge: (Option<Record>, Record, Record) -> Option<Record>) {
    forall p: Record, incoming: Record, delta: Record :: merge(Some(p), incoming, delta).Some? ==>
      forall k :: k in p && k !in delta ==> Get(merge(Some(p), incoming, delta).value, k) == Some(p[k])
  }

  /** A field on disk survives every commit, of any host, whose delta does not name it. */
  lemma {:induction false} FieldSurvives(
      merge: (Option<Record>, Record, Record) -> Option<Record>, start: Records, commits: seq<CommitEntry>,
      i: nat, t: TaskId, k: string)
    requires KeepsFields(merge) && EntriesTrue(merge, start, commits) && i <= |commits|
    requires Replay(merge, start, commits[..i]).Some?
    requires t in Replay(merge, start, commits[..i]).value && k in Replay(merge, start, commits[..i]).value[t]
    requires forall j :: i <= j < |commits| && commits[j].write.task == t ==> k !in commits[j].write.delta
    ensures Replay(merge, start, commits).Some? && t in Replay(merge, start, commits).value
    ensures Get(Replay(merge, start, commits).value[t], k) == Some(Replay(merge, start, commits[..i]).value[t][k])
    decreases |commits|
  {
    if i == |commits| {
      assert commits[..i] == commits;
    } else {
      var init := commits[..|commits| - 1];
      assert init[..i] == commits[..i];
      FieldSurvives(merge, start, init, i, t, k);
      EntryIsTrue(merge, start, commits, |commits| - 1);
      assert commits[..|commits|] == commits;
    }
  }

  /** The merge unites a set-valued field, such as the child ids, of disk record and delta. */
  ghost predicate Unites(merge: (Option<Record>, Record, Record) -> Option<Record>, part: Record -> set<string>) {
    forall p: Record, incoming: Record, delta: Record :: merge(Some(p), incoming, delta).Some? ==>
      part(p) + part(delta) <= part(merge(Some(p), incoming, delta).value)
  }

  /** Whatever a commit added to a united field is on disk for good. */
  lemma {:induction false} UnionSurvives(
      merge: (Option<Record>, Record, Record) -> Option<Record>, part: Record -> set<string>,
      start: Records, commits: seq<CommitEntry>, i: nat)
    requires Unites(merge, part) && EntriesTrue(merge, start, commits) && i < |commits| && commits[i].previous.Some?
    ensures Replay(merge, start, commits).Some? && commits[i].write.task in Replay(merge, start, commits).value
    ensures part(commits[i].write.delta) + part(commits[i].previous.value)
            <= part(Replay(merge, start, commits).value[commits[i].write.task])
    decreases |commits|
  {
    var init := commits[..|commits| - 1];
    EntryIsTrue(merge, start, commits, |commits| - 1);
    assert commits[..|commits|] == commits;
    if i < |init| {
      UnionSurvives(merge, part, start, init, i);
    }
  }

  /**
   * No lost field: from any reachable state on, through any steps of any hosts, a field stays
   * on disk as it is unless a delta committed in between names it.
   */
  lemma FieldStaysOnDisk(sys: System, hosts: set<Host>, start: Records, s: State, steps: seq<Step>, t: TaskId,
                         k: string)
    requires KeepsFields(sys.merge) && Reachable(sys, hosts, start, s) && Shaped(sys, s) && Run(sys, s, steps).Some?
    requires t in s.disk && k in s.disk[t]
    requires
      var later := Run(sys, s, steps).value.commits;
      forall j :: |s.commits| <= j < |later| && later[j].write.task == t ==> k !in later[j].write.delta
    ensures
      var disk := Run(sys, s, steps).value.disk;
      t in disk && Get(disk[t], k) == Some(s.disk[t][k])
  {
    var u := Run(sys, s, steps).value;
    ReachableRun(sys, hosts, start, s, steps);
    ReachableInv(sys, hosts, start, u);
    DiskIsSerial(sys, hosts, start, s);
    DiskIsSerial(sys, hosts, start, u);
    RunExtendsCommits(sys, s, steps);
    assert u.commits[..|s.commits|] == s.commits;
    FieldSurvives(sys.merge, start, u.commits, |s.commits|, t, k);
  }

  /** No lost child: in every reachable state the disk holds whatever any commit so far added to a united field. */
  lemma UnionStaysOnDisk(sys: System, hosts: set<Host>, start: Records, s: State, part: Record -> set<string>, i: nat)
    requires Unites(sys.merge, part) && Reachable(sys, hosts, start, s)
    requires i < |s.commits| && s.commits[i].previous.Some?
    ensures s.commits[i].write.task in s.disk
    ensures part(s.commits[i].write.delta) + part(s.commits[i].previous.value) <= part(s.disk[s.commits[i].write.task])
  {
    ReachableInv(sys, hosts, start, s);
    DiskIsSerial(sys, hosts, start, s);
    UnionSurvives(sys.merge, part, start, s.commits, i);
  }

  // ---------------------------------------------------------------- what an operation writes

  /**
   * Every write is one of those built from the snapshot, rebased on what the host has cached; its
   * delta is the difference to the cached record, or everything if there is none.
   */
  ghost predicate PreparedFrom(sys: System, spec: Spec, o: Operation, cache: Records) {
    var built := spec.buildWrites(o.snapshot);
    && |o.writes| == |built|
    && forall i :: 0 <= i < |built| ==>
         var w := o.writes[i];
         && w.task == built[i].task
         && w.incoming == spec.rebase(Get(cache, w.task), built[i].record)
         && w.delta == if w.task in cache then sys.computeDelta(cache[w.task], w.incoming) else w.incoming
  }

  lemma PreparesItsWrites(sys: System, s: State, op: OpId)
    requires Shaped(sys, s) && Enabled(sys, s, DoPrepare(op))
    ensures PreparedFrom(sys, sys.specs[op], PrepareStep(sys, s, op).ops[op], s.caches[sys.specs[op].host])
  {
  }

  /** The steps lead from s to t by way of a step that is taken in u. */
  ghost predicate Via(sys: System, s: State, before: seq<Step>, u: State, step: Step, after: seq<Step>, t: State)
    requires Shaped(sys, s)
  {
    && Run(sys, s, before) == Some(u) && Shaped(sys, u) && Enabled(sys, u, step)
    && Shaped(sys, Next(sys, u, step)) && Run(sys, Next(sys, u, step), after) == Some(t)
  }

  lemma ViaOneMore(sys: System, s: State, first: Step, before: seq<Step>, u: State, step: Step, after: seq<Step>,
                   t: State)
    requires Shaped(sys, s) && Enabled(sys, s, first) && Shaped(sys, Next(sys, s, first))
    requires Via(sys, Next(sys, s, first), before, u, step, after, t)
    ensures Via(sys, s, [first] + before, u, step, after, t)
  {
    hide Shaped, Enabled, Next;
    assert ([first] + before)[1..] == before;
  }

  lemma OthersStay(sys: System, s: State, step: Step, op: OpId)
    requires Shaped(sys, s) && Enabled(sys, s, step) && op in s.ops && Mover(step) != Some(op)
    ensures op in Next(sys, s, step).ops && Next(sys, s, step).ops[op] == s.ops[op]
  {
    hide Shaped, PrepareWrites, Publish;
  }

  /** How an operation may change in one step: phases only go forward, and only preparing sets its writes. */
  predicate MovesOn(o: Operation, p: Operation, step: Step) {
    && (o.phase !in {Idle, Read} ==> p.phase !in {Idle, Read} && p.writes == o.writes && p.snapshot == o.snapshot)
    && (o.phase.Read? ==> !p.phase.Idle? && p.snapshot == o.snapshot)
    && (!step.DoPrepare? ==> p.writes == o.writes)
    && (step.DoPrepare? ==> o.phase.Read? && p.phase.Prepared?)
  }

  lemma ReadMovesOn(sys: System, s: State, op: OpId)
    requires Shaped(sys, s) && Enabled(sys, s, DoRead(op))
    ensures op in s.ops && op in ReadStep(sys, s, op).ops
    ensures MovesOn(s.ops[op], ReadStep(sys, s, op).ops[op], DoRead(op))
  {
  }

  lemma PrepareMovesOn(sys: System, s: State, op: OpId)
    requires Shaped(sys, s) && Enabled(sys, s, DoPrepare(op))
    ensures op in s.ops && op in PrepareStep(sys, s, op).ops
    ensures MovesOn(s.ops[op], PrepareStep(sys, s, op).ops[op], DoPrepare(op))
  {
  }

  lemma RevalidateMovesOn(sys: System, s: State, op: OpId)
    requires Shaped(sys, s) && Enabled(sys, s, DoRevalidate(op))
    ensures op in s.ops && op in RevalidateStep(sys, s, op).ops
    ensures MovesOn(s.ops[op], RevalidateStep(sys, s, op).ops[op], DoRevalidate(op))
  {
  }

  lemma CommitMovesOn(sys: System, s: State, op: OpId)
    requires Shaped(sys, s) && Enabled(sys, s, DoCommit(op))
    ensures op in s.ops && op in CommitStep(sys, s, op).ops
    ensures MovesOn(s.ops[op], CommitStep(sys, s, op).ops[op], DoCommit(op))
  {
  }

  lemma FailMovesOn(sys: System, s: State, op: OpId)
    requires Shaped(sys, s) && Enabled(sys, s, DoFail(op))
    ensures op in s.ops && op in FailStep(sys, s, op).ops
    ensures MovesOn(s.ops[op], FailStep(sys, s, op).ops[op], DoFail(op))
  {
  }

  lemma OpMovesOn(sys: System, s: State, step: Step, op: OpId)
    requires Shaped(sys, s) && Enabled(sys, s, step) && op in s.ops && Mover(step) == Some(op)
    ensures op in Next(sys, s, step).ops && MovesOn(s.ops[op], Next(sys, s, step).ops[op], step)
  {
    hide Shaped, Enabled, ReadStep, PrepareStep, RevalidateStep, CommitStep, FailStep, MovesOn;
    match step {
      case DoRead(_) => ReadMovesOn(sys, s, op);
      case DoPrepare(_) => PrepareMovesOn(sys, s, op);
      case DoRevalidate(_) => RevalidateMovesOn(sys, s, op);
      case DoCommit(_) => CommitMovesOn(sys, s, op);
      case DoFail(_) => FailMovesOn(sys, s, op);
    }
  }

  lemma StepKeepsWrites(sys: System, s: State, step: Step, op: OpId)
    requires Shaped(sys, s) && Enabled(sys, s, step) && op in s.ops
    ensures op in Next(sys, s, step).ops
    ensures step == DoPrepare(op) ==> s.ops[op].phase.Read? && Next(sys, s, step).ops[op].phase.Prepared?
    ensures
      var o, p := s.ops[op], Next(sys, s, step).ops[op];
      && (step != DoPrepare(op) ==> p.writes == o.writes)
      && (!o.phase.Idle? ==> !p.phase.Idle? && p.snapshot == o.snapshot)
      && (o.phase !in {Idle, Read} ==> p.phase !in {Idle, Read} && p.writes == o.writes)
  {
    hide Shaped, Enabled, Next;
    if Mover(step) == Some(op) {
      OpMovesOn(sys, s, step, op);
    } else {
      OthersStay(sys, s, step, op);
    }
  }

  /** An operation's snapshot does not change once it has left its first phase. */
  lemma {:induction false} SnapshotStays(sys: System, s: State, steps: seq<Step>, op: OpId)
    requires Shaped(sys, s) && op in s.ops && !s.ops[op].phase.Idle? && Run(sys, s, steps).Some?
    ensures
      var t := Run(sys, s, steps).value;
      op in t.ops && !t.ops[op].phase.Idle? && t.ops[op].snapshot == s.ops[op].snapshot
    decreases |steps|
  {
    if steps != [] {
      StepKeepsWrites(sys, s, steps[0], op);
      SnapshotStays(sys, Next(sys, s, steps[0]), steps[1..], op);
    }
  }

  /** The writes an operation has were prepared at one step of the run. */
  lemma {:induction false} WritesCameFrom(sys: System, hosts: set<Host>, start: Records, s: State, steps: seq<Step>,
                                          op: OpId)
    returns (before: seq<Step>, u: State, after: seq<Step>)
    requires WellFormed(sys, hosts) && Inv(sys, start, s) && Shaped(sys, s) && op in s.ops && s.ops[op].writes == []
    requires Run(sys, s, steps).Some? && op in Run(sys, s, steps).value.ops &&
              Run(sys, s, steps).value.ops[op].writes != []
    ensures Via(sys, s, before, u, DoPrepare(op), after, Run(sys, s, steps).value)
    ensures op in PrepareStep(sys, u, op).ops
    ensures
      var o, p := PrepareStep(sys, u, op).ops[op], Run(sys, s, steps).value.ops[op];
      p.writes == o.writes && p.snapshot == o.snapshot
    decreases |steps|
  {
    var t := Next(sys, s, steps[0]);
    StepKeepsInv(sys, hosts, start, s, steps[0]);
    InvIsShaped(sys, start, t);
    StepKeepsWrites(sys, s, steps[0], op);
    if steps[0] == DoPrepare(op) {
      before, u, after := [], s, steps[1..];
      WritesStay(sys, t, after, op);
    } else {
      before, u, after := WritesCameFrom(sys, hosts, start, t, steps[1..], op);
      ViaOneMore(sys, s, steps[0], before, u, DoPrepare(op), after, Run(sys, s, steps).value);
      before := [steps[0]] + before;
    }
  }

  /** Once prepared, the writes and the snapshot they were built from stay. */
  lemma {:induction false} WritesStay(sys: System, s: State, steps: seq<Step>, op: OpId)
    requires Shaped(sys, s) && op in s.ops && s.ops[op].phase !in {Idle, Read} && Run(sys, s, steps).Some?
    ensures
      var t := Run(sys, s, steps).value;
      && op in t.ops && t.ops[op].phase !in {Idle, Read}
      && t.ops[op].writes == s.ops[op].writes && t.ops[op].snapshot == s.ops[op].snapshot
    decreases |steps|
  {
    if steps != [] {
      StepKeepsWrites(sys, s, steps[0], op);
      WritesStay(sys, Next(sys, s, steps[0]), steps[1..], op);
    }
  }

  lemma ReachedBy(sys: System, hosts: set<Host>, start: Records, s: State) returns (steps: seq<Step>)
    requires Reachable(sys, hosts, start, s)
    ensures WellFormed(sys, hosts) && Shaped(sys, Initial(sys, hosts, start))
    ensures Run(sys, Initial(sys, hosts, start), steps) == Some(s)
  {
    steps :| Run(sys, Initial(sys, hosts, start), steps) == Some(s);
  }

  lemma InitiallyIdle(sys: System, hosts: set<Host>, start: Records, op: OpId)
    requires op in sys.specs
    ensures
      var s := Initial(sys, hosts, start);
      op in s.ops && s.ops[op].phase.Idle? && s.ops[op].writes == []
  {
  }

  /**
   * In every reachable state the writes of an operation are those it prepared at one step of a
   * run that led there: built from its snapshot, with the differences to what its host had cached at that step.
   */
  lemma WritesWerePrepared(sys: System, hosts: set<Host>, start: Records, s: State, op: OpId)
    returns (before: seq<Step>, u: State, after: seq<Step>)
    requires Reachable(sys, hosts, start, s) && op in s.ops && s.ops[op].writes != []
    ensures Shaped(sys, Initial(sys, hosts, start)) && op in sys.specs
    ensures Via(sys, Initial(sys, hosts, start), before, u, DoPrepare(op), after, s)
    ensures sys.specs[op].host in u.caches
    ensures PreparedFrom(sys, sys.specs[op], s.ops[op], u.caches[sys.specs[op].host])
  {
    hide Inv, Reachable, WellFormed, Run, PreparedFrom, Next;
    ReachableInv(sys, hosts, start, s);
    InvIsShaped(sys, start, s);
    var steps := ReachedBy(sys, hosts, start, s);
    InitialInv(sys, hosts, start);
    InitiallyIdle(sys, hosts, start, op);
    before, u, after := WritesCameFrom(sys, hosts, start, Initial(sys, hosts, start), steps, op);
    PreparesItsWrites(sys, u, op);
    SamePrepared(sys, sys.specs[op], PrepareStep(sys, u, op).ops[op], s.ops[op], u.caches[sys.specs[op].host]);
  }

  lemma SamePrepared(sys: System, spec: Spec, o: Operation, p: Operation, cache: Records)
    requires PreparedFrom(sys, spec, o, cache) && p.writes == o.writes && p.snapshot == o.snapshot
    ensures PreparedFrom(sys, spec, p, cache)
  {
  }

  /** The snapshot is what the host had cached when the operation read, and the operation was enabled on it. */
  lemma SnapshotIsTheCache(sys: System, hosts: set<Host>, start: Records, s: State, steps: seq<Step>, op: OpId)
    requires WellFormed(sys, hosts) && Inv(sys, start, s) && Shaped(sys, s) && Enabled(sys, s, DoRead(op))
    requires Shaped(sys, Next(sys, s, DoRead(op))) && Run(sys, Next(sys, s, DoRead(op)), steps).Some?
    ensures
      var t := Run(sys, Next(sys, s, DoRead(op)), steps).value;
      op in t.ops && t.ops[op].snapshot == s.caches[sys.specs[op].host] && sys.specs[op].isEnabled(t.ops[op].snapshot)
  {
    SnapshotStays(sys, Next(sys, s, DoRead(op)), steps, op);
  }

  /** The delta names no field in which the two records agree. */
  ghost predicate NamesOnlyDifferences(computeDelta: (Record, Record) -> Record) {
    forall a: Record, b: Record, k: string :: k in computeDelta(a, b) ==> Get(a, k) != Get(b, k)
  }

  lemma {:induction false} CommitsOwnWrites(commits: seq<CommitEntry>, op: OpId, j: nat)
    requires j < |commits| && commits[j].op == op
    ensures commits[j].write in CommittedBy(commits, op)
  {
    var init := commits[..|commits| - 1];
    if j < |init| {
      CommitsOwnWrites(init, op, j);
    }
  }

  /**
   * No lost update: what an operation leaves as its host had it cached, its commits leave as they
   * find it on disk, whatever other hosts have written there since.
   */
  lemma UntouchedFieldsStay(sys: System, hosts: set<Host>, start: Records, s: State, op: OpId, cache: Records, j: nat,
                            k: string)
    requires NamesOnlyDifferences(sys.computeDelta) && KeepsFields(sys.merge) && Reachable(sys, hosts, start, s)
    requires op in s.ops && op in sys.specs && PreparedFrom(sys, sys.specs[op], s.ops[op], cache)
    requires j < |s.commits| && s.commits[j].op == op && s.commits[j].write.task in cache
    requires Get(s.commits[j].write.incoming, k) == Get(cache[s.commits[j].write.task], k)
    requires s.commits[j].previous.Some? && k in s.commits[j].previous.value
    ensures Get(s.commits[j].next, k) == Some(s.commits[j].previous.value[k])
  {
    var o, c := s.ops[op], s.commits[j];
    var i := CommitOfAWrite(sys, hosts, start, s, op, j);
    hide Reachable;
    assert c.write.delta == sys.computeDelta(cache[c.write.task], c.write.incoming);
    assert k !in c.write.delta;
  }

  lemma CommitOfAWrite(sys: System, hosts: set<Host>, start: Records, s: State, op: OpId, j: nat) returns (i: nat)
    requires Reachable(sys, hosts, start, s) && op in s.ops && j < |s.commits| && s.commits[j].op == op
    ensures i < |s.ops[op].writes| && s.ops[op].writes[i] == s.commits[j].write
    ensures
      var c := s.commits[j];
      sys.merge(c.previous, c.write.incoming, c.write.delta) == Some(c.next)
  {
    ReachableInv(sys, hosts, start, s);
    assert PrefixCommitted(s.commits, op, s.ops[op]);
    CommitsOwnWrites(s.commits, op, j);
    i :| 0 <= i < s.ops[op].index && s.ops[op].writes[i] == s.commits[j].write;
    EntryIsTrue(sys.merge, start, s.commits, j);
  }

  // ---------------------------------------------------------------- what a host sees

  /** The last record an operation has committed for a task. */
  function LastCommitted(commits: seq<CommitEntry>, op: OpId, t: TaskId): Option<Record> {
    if commits == [] then None
    else
      var c := commits[|commits| - 1];
      if c.op == op && c.write.task == t then Some(c.next) else LastCommitted(commits[..|commits| - 1], op, t)
  }

  lemma {:induction false} PublishShowsTheLast(cache: Records, commits: seq<CommitEntry>, op: OpId, t: TaskId)
    ensures Get(Publish(cache, commits, op), t) ==
              if LastCommitted(commits, op, t).Some? then LastCommitted(commits, op, t) else Get(cache, t)
  {
    if commits != [] {
      PublishShowsTheLast(cache, commits[..|commits| - 1], op, t);
    }
  }

  /** A commit shows in its host's own cache: at once, or once the operation has finished or failed; in no other. */
  lemma CommitsShowInTheCache(sys: System, s: State, step: Step, op: OpId, t: TaskId)
    requires Shaped(sys, s) && Enabled(sys, s, step) && (step == DoCommit(op) || step == DoFail(op))
    ensures
      var u, spec := Next(sys, s, step), sys.specs[op];
      && u.caches.Keys == s.caches.Keys
      && (forall h :: h in s.caches && h != spec.host ==> u.caches[h] == s.caches[h])
      && (var cache, seen := s.caches[spec.host], Get(u.caches[spec.host], t);
          if !spec.publishCacheAtEnd then
            seen == if t == Target(s.ops[op]) then Get(u.disk, t) else Get(cache, t)
          else if u.ops[op].phase in {Done, Failed} && LastCommitted(u.commits, op, t).Some? then
            seen == LastCommitted(u.commits, op, t)
          else seen == Get(cache, t))
  {
    var cache := s.caches[sys.specs[op].host];
    PublishShowsTheLast(cache, Next(sys, s, step).commits, op, t);
  }

  lemma MutexHeldExactly(specs: map<OpId, Spec>, ops: map<OpId, Operation>, mutexes: map<Host, OpId>, h: Host)
    requires ops.Keys == specs.Keys && MutexesExact(specs, ops, mutexes)
    ensures h in mutexes <==> exists op :: op in specs && specs[op].host == h && HoldsMutex(specs[op], ops[op])
  {
    if h in mutexes {
      assert mutexes[h] in specs && specs[mutexes[h]].host == h;
    }
  }

  /** None of the host's operations is writing, and those that have read allow it to refresh. */
  ghost predicate MayMoveOn(specs: map<OpId, Spec>, ops: map<OpId, Operation>, h: Host)
    requires ops.Keys == specs.Keys
  {
    forall op :: op in specs && specs[op].host == h ==>
      && ops[op].phase !in {Prepared, Revalidated}
      && (ops[op].phase.Read? ==> specs[op].externalSnapshot && specs[op].allowRefreshAfterRead)
  }

  lemma PreparedWorkExactly(sys: System, s: State, h: Host)
    requires Shaped(sys, s) && MutexesExact(sys.specs, s.ops, s.mutexes)
    ensures !HostHasPreparedWork(sys, s, h) <==> MayMoveOn(sys.specs, s.ops, h)
  {
    MutexHeldExactly(sys.specs, s.ops, s.mutexes, h);
    hide MutexesExact;
    if HostHasPreparedWork(sys, s, h) && h in s.mutexes {
      var op :| op in sys.specs && sys.specs[op].host == h && HoldsMutex(sys.specs[op], s.ops[op]);
      assert !MayMoveOn(sys.specs, s.ops, h);
    }
  }

  lemma RefreshEnabled(sys: System, s: State, h: Host)
    requires Shaped(sys, s)
    ensures Enabled(sys, s, DoRefresh(h)) <==> h in s.caches && !HostHasPreparedWork(sys, s, h) && s.caches[h] != s.disk
  {
    hide HostHasPreparedWork;
  }

  lemma InvHasExactMutexes(sys: System, start: Records, s: State)
    requires Inv(sys, start, s)
    ensures Shaped(sys, s) && MutexesExact(sys.specs, s.ops, s.mutexes)
  {
  }

  /** An operation may fail exactly between two writes of which the cache shows neither before the end. */
  lemma FailsExactly(sys: System, hosts: set<Host>, start: Records, s: State, op: OpId)
    requires Reachable(sys, hosts, start, s) && op in s.ops && op in sys.specs
    ensures Shaped(sys, s)
    ensures Enabled(sys, s, DoFail(op)) <==>
              s.ops[op].phase.Revalidated? && s.ops[op].index > 0 && sys.specs[op].publishCacheAtEnd
  {
    hide Reachable, MutexesExact, PrefixesCommitted, DiskIsReplay;
    ReachableInv(sys, hosts, start, s);
  }

  /** A host may refresh exactly if it is stale and nothing of its own is under way that forbids it. */
  lemma RefreshesExactly(sys: System, hosts: set<Host>, start: Records, s: State, h: Host)
    requires Reachable(sys, hosts, start, s) && h in s.caches
    ensures Shaped(sys, s)
    ensures Enabled(sys, s, DoRefresh(h)) <==> s.caches[h] != s.disk && MayMoveOn(sys.specs, s.ops, h)
  {
    hide Reachable, Inv, Enabled, MayMoveOn, HostHasPreparedWork, MutexesExact;
    ReachableInv(sys, hosts, start, s);
    InvHasExactMutexes(sys, start, s);
    PreparedWorkExactly(sys, s, h);
    RefreshEnabled(sys, s, h);
  }
}
