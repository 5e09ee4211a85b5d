/**
 The authority object (crates/core/src/edit_coordination.rs): maps and sets
 changed in place, proved to follow EditProtocol. Workspace revalidation, the
 operating system's writer lease and the journal file either succeed or fail as
 the caller's arguments say. A refused registration changes nothing, and
 a refused commit gives its paths back and writes nothing.
 */
module EditAuthority {
  import opened Prelude
  import opened EditProtocol

  lemma AssignedStep<V>(m: map<Resource, V>, rs: seq<Resource>, i: nat, v: V)
    requires i < |rs|
    ensures Assigned(m, rs[..i + 1], v) == Assigned(m, rs[..i], v)[rs[i] := v]
  {
  }

  lemma WithoutStep<V>(m: map<Resource, V>, rs: seq<Resource>, i: nat)
    requires i < |rs|
    ensures Without(m, rs[..i + 1]) == Without(m, rs[..i]) - {rs[i]}
  {
  }

  lemma AssignedNothing<V>(m: map<Resource, V>, v: V)
    ensures Assigned(m, [], v) == m
  {
  }

  lemma WithoutNothing<V>(m: map<Resource, V>)
    ensures Without(m, []) == m
  {
  }

  class Authority {
    var sequence: nat
    var active: map<Resource, AttemptKey>
    var activeAttempts: set<AttemptKey>
    var prepared: set<AttemptKey>
    var committed: set<AttemptKey>
    var generations: map<Resource, nat>
    /** The lines of the journal file, when there is one. */
    var journal: seq<AppliedEdit>
    const durable: bool
    const epoch: string

    /** The value of the mutex-protected fields. */
    ghost function Abs(): State
      reads this
    {
      State(sequence, active, activeAttempts, prepared, committed, generations)
    }

    function CurrentGeneration(r: Resource): (n: nat)
      reads this
      ensures n == Generation(Abs(), r)
    {
      if r in generations then generations[r] else 0
    }

    constructor InProcess(epoch: string)
      ensures Abs() == EMPTY && journal == [] && !durable && this.epoch == epoch
    {
      sequence, active, generations := 0, map[], map[];
      activeAttempts, prepared, committed := {}, {}, {};
      journal, durable, this.epoch := [], false, epoch;
    }

    /** Open on an existing journal. */
    constructor WithJournal(records: seq<AppliedEdit>, epoch: string)
      ensures Abs() == Replay(records) && journal == records && durable && this.epoch == epoch
    {
      sequence, active, generations := 0, map[], map[];
      activeAttempts, prepared, committed := {}, {}, {};
      journal, durable, this.epoch := records, true, epoch;
      new;
      for i := 0 to |records|
        invariant Abs() == Replay(records[..i])
        invariant journal == records
      {
        assert records[..i + 1][..i] == records[..i];
        ReplayRecord(records[i]);
      }
      assert records[..|records|] == records;
    }

    method ReplayRecord(record: AppliedEdit)
      modifies this
      ensures Abs() == Replayed(old(Abs()), record)
      ensures journal == old(journal)
    {
      sequence := Max(sequence, record.sequence);
      committed := committed + {AttemptKey(record.epoch, record.id)};
      var rs := ResourcesOf(record.workspace, record.paths);
      var gens := record.generations;
      ghost var before := generations;
      for i := 0 to Min(|rs|, |gens|)
        invariant Stamp(generations, rs[i..], gens[i..]) == Stamp(before, rs, gens)
        invariant Abs() == old(Abs()).(sequence := sequence, committed := committed, generations := generations)
        invariant journal == old(journal)
        invariant sequence == Max(old(sequence), record.sequence)
        invariant committed == old(committed) + {AttemptKey(record.epoch, record.id)}
      {
        assert rs[i..][1..] == rs[i + 1..];
        assert gens[i..][1..] == gens[i + 1..];
        generations := generations[rs[i] := gens[i]];
      }
    }

    method Prepare(attempt: Attempt, workspaceOk: bool) returns (r: Result<Guard, EditError>)
      modifies this
      ensures journal == old(journal)
      ensures var key := AttemptKey(epoch, attempt.id);
              var e := PrepareError(old(Abs()), key);
              if !workspaceOk then r == Err(WorkspaceChanged) && Abs() == old(Abs())
              else if e.Some? then r == Err(e.value) && Abs() == old(Abs())
              else r == Ok(Guard(attempt, key, old(sequence))) && Abs() == Prepared(old(Abs()), key)
    {
      if !workspaceOk {
        return Err(WorkspaceChanged);
      }
      var key := AttemptKey(epoch, attempt.id);
      if key in committed {
        return Err(AlreadyCommitted(attempt.id));
      }
      if key in activeAttempts || key in prepared {
        return Err(AlreadyActive(attempt.id));
      }
      prepared := prepared + {key};
      r := Ok(Guard(attempt, key, sequence));
    }

    /**
     One attempt to reserve every path. A refusal reserves nothing; a refused
     writer lease gives everything back.
     */
    method TryAcquire(guard: Guard, workspaceOk: bool, writerLeaseOk: bool) returns (r: Result<Lease, EditError>)
      modifies this
      ensures journal == old(journal)
      ensures var s := old(Abs());
              var rs := Resources(guard.attempt);
              var e := AcquireError(s, guard.key, guard.begin, rs);
              if !workspaceOk then r == Err(WorkspaceChanged) && Abs() == s
              else if e.Some? then r == Err(e.value) && Abs() == s
              else if durable && !writerLeaseOk then
                r == Err(WriterLeaseRefused) && Abs() == Released(Reserved(s, guard.key, rs), guard.key, rs)
              else r == Ok(Lease(guard.attempt, guard.key, guard.begin)) && Abs() == Reserved(s, guard.key, rs)
    {
      if !workspaceOk {
        return Err(WorkspaceChanged);
      }
      var rs := Resources(guard.attempt);
      var refusal := FirstObstacle(guard.key, guard.begin, rs);
      if refusal.Some? {
        return Err(refusal.value);
      }
      Reserve(guard.key, rs);
      if durable && !writerLeaseOk {
        Release(guard.key, rs);
        return Err(WriterLeaseRefused);
      }
      r := Ok(Lease(guard.attempt, guard.key, guard.begin));
    }

    method FirstObstacle(key: AttemptKey, begin: nat, rs: seq<Resource>) returns (e: Option<EditError>)
      ensures e == AcquireError(Abs(), key, begin, rs)
    {
      for i := 0 to |rs|
        invariant AcquireError(Abs(), key, begin, rs) == AcquireError(Abs(), key, begin, rs[i..])
      {
        var resource := rs[i];
        assert rs[i..][1..] == rs[i + 1..];
        if CurrentGeneration(resource) > begin {
          return Some(StaleGeneration(resource.path));
        }
        if resource in active {
          if active[resource].id == key.id {
            return Some(AlreadyActive(key.id));
          }
          return Some(Conflict(resource.path, active[resource].id));
        }
      }
      e := None;
    }

    method Reserve(key: AttemptKey, rs: seq<Resource>)
      modifies this
      ensures Abs() == Reserved(old(Abs()), key, rs) && journal == old(journal)
    {
      for i := 0 to |rs|
        invariant active == Assigned(old(active), rs[..i], key)
        invariant Abs() == old(Abs()).(active := active) && journal == old(journal)
      {
        AssignedStep(old(active), rs, i, key);
        active := active[rs[i] := key];
      }
      assert rs[..|rs|] == rs;
      activeAttempts := activeAttempts + {key};
      prepared := prepared - {key};
    }

    method DropGuard(guard: Guard)
      modifies this
      ensures Abs() == Unprepared(old(Abs()), guard.key) && journal == old(journal)
    {
      prepared := prepared - {guard.key};
    }

    method Release(key: AttemptKey, rs: seq<Resource>)
      modifies this
      ensures Abs() == Released(old(Abs()), key, rs) && journal == old(journal)
    {
      for i := 0 to |rs|
        invariant active == map x | x in old(active) && !(x in rs[..i] && old(active)[x] == key) :: old(active)[x]
        invariant Abs() == old(Abs()).(active := active) && journal == old(journal)
      {
        if rs[i] in active && active[rs[i]] == key {
          active := map x | x in active && x != rs[i] :: active[x];
        }
      }
      assert rs[..|rs|] == rs;
      activeAttempts := activeAttempts - {key};
    }

    method Revalidate(lease: Lease, workspaceOk: bool) returns (e: Option<EditError>)
      ensures e == if workspaceOk then CommitError(Abs(), lease.key, lease.begin, Resources(lease.attempt))
                   else Some(WorkspaceChanged)
    {
      if !workspaceOk {
        return Some(WorkspaceChanged);
      }
      var rs := Resources(lease.attempt);
      for i := 0 to |rs|
        invariant CommitError(Abs(), lease.key, lease.begin, rs) == CommitError(Abs(), lease.key, lease.begin, rs[i..])
      {
        assert rs[i..][1..] == rs[i + 1..];
        if CurrentGeneration(rs[i]) > lease.begin || rs[i] !in active || active[rs[i]] != lease.key {
          return Some(StaleGeneration(rs[i].path));
        }
      }
      e := None;
    }

    /** Commit and consume the lease: on any refusal its paths are released. */
    method Commit(lease: Lease, workspaceOk: bool, journalOk: bool) returns (r: Result<AppliedEdit, EditError>)
      modifies this
      ensures var s := old(Abs());
              var rs := Resources(lease.attempt);
              var e := CommitError(s, lease.key, lease.begin, rs);
              if !workspaceOk then
                r == Err(WorkspaceChanged) && Abs() == Released(s, lease.key, rs) && journal == old(journal)
              else if e.Some? then
                r == Err(e.value) && Abs() == Released(s, lease.key, rs) && journal == old(journal)
              else if durable && !journalOk then
                r == Err(JournalFailed) && Abs() == Released(s, lease.key, rs) && journal == old(journal)
              else
                && r == Ok(AppliedBy(s, lease))
                && Abs() == Committed(s, lease)
                && journal == old(journal) + (if durable then [AppliedBy(s, lease)] else [])
    {
      var rs := Resources(lease.attempt);
      var stale := Revalidate(lease, workspaceOk);
      if stale.Some? {
        Release(lease.key, rs);
        return Err(stale.value);
      }
      var n := SaturatingInc(sequence);
      var applied := AppliedEdit(lease.key.epoch, n, lease.attempt.id, lease.attempt.workspace, lease.attempt.paths,
                                 seq(|lease.attempt.paths|, _ => n));
      assert applied == AppliedBy(Abs(), lease);
      if durable {
        if !journalOk {
          Release(lease.key, rs);
          return Err(JournalFailed);
        }
        journal := journal + [applied];
      }
      Install(lease, n);
      r := Ok(applied);
    }

    /** Make the winner visible: one new generation for all its paths, none of them held. */
    method Install(lease: Lease, n: nat)
      requires n == SaturatingInc(sequence)
      modifies this
      ensures Abs() == Committed(old(Abs()), lease) && journal == old(journal)
    {
      hide Assigned, Without;
      var rs := Resources(lease.attempt);
      sequence := n;
      assert rs[..0] == [];
      AssignedNothing(generations, n);
      WithoutNothing(active);
      for i := 0 to |rs|
        invariant generations == Assigned(old(generations), rs[..i], n)
        invariant active == Without(old(active), rs[..i])
        invariant Abs() == old(Abs()).(sequence := n, generations := generations, active := active)
        invariant journal == old(journal)
      {
        AssignedStep(old(generations), rs, i, n);
        WithoutStep(old(active), rs, i);
        generations := generations[rs[i] := n];
        active := active - {rs[i]};
      }
      assert rs[..|rs|] == rs;
      activeAttempts := activeAttempts - {lease.key};
      committed := committed + {lease.key};
    }

    method DropLease(lease: Lease)
      modifies this
      ensures Abs() == Released(old(Abs()), lease.key, Resources(lease.attempt)) && journal == old(journal)
    {
      Release(lease.key, Resources(lease.attempt));
    }

    method HeldCount() returns (n: nat)
      ensures n == |Abs().activeAttempts|
    {
      n := |activeAttempts|;
    }
  }
}
