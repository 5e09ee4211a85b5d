/**
 The optimistic edit protocol of crates/core/src/edit_coordination.rs as
 functions on the authority's state, and the system of clients around it:
 guards and leases held by attempts, the journal, and restarts.
 */
module EditProtocol {
  import opened Prelude

  datatype AttemptId = AttemptId(session: string, agent: string, attempt: string)

  datatype AttemptKey = AttemptKey(epoch: string, id: AttemptId)

  datatype Resource = Resource(workspace: string, path: string)

  datatype Attempt = Attempt(id: AttemptId, workspace: string, paths: seq<string>)

  datatype EditError =
    | Cancelled
    | AlreadyActive(id: AttemptId)
    | AlreadyCommitted(id: AttemptId)
    | Conflict(path: string, holder: AttemptId)
    | StaleGeneration(path: string)
    | JournalFailed
    | WorkspaceChanged
    | WriterLeaseRefused

  /** One line of the journal. */
  datatype AppliedEdit = AppliedEdit(
    epoch: string, sequence: nat, id: AttemptId, workspace: string, paths: seq<string>, generations: seq<nat>)

  /** A registered attempt that has reserved nothing yet. */
  datatype Guard = Guard(attempt: Attempt, key: AttemptKey, begin: nat)

  /** A reservation of every path of an attempt. */
  datatype Lease = Lease(attempt: Attempt, key: AttemptKey, begin: nat)

  datatype State = State(
    sequence: nat,
    active: map<Resource, AttemptKey>,
    activeAttempts: set<AttemptKey>,
    prepared: set<AttemptKey>,
    committed: set<AttemptKey>,
    generations: map<Resource, nat>)

  const EMPTY := State(0, map[], {}, {}, {}, map[])

  function ResourcesOf(workspace: string, paths: seq<string>): (rs: seq<Resource>)
    ensures |rs| == |paths|
    ensures forall i :: 0 <= i < |paths| ==> rs[i] == Resource(workspace, paths[i])
  {
    seq(|paths|, i requires 0 <= i < |paths| => Resource(workspace, paths[i]))
  }

  function Resources(a: Attempt): seq<Resource> {
    ResourcesOf(a.workspace, a.paths)
  }

  /** The sequence of the last commit that touched `r`, as the authority knows it. */
  function Generation(s: State, r: Resource): nat {
    if r in s.generations then s.generations[r] else 0
  }

  /** `m` with every resource of `rs` set to `v`. */
  function Assigned<V>(m: map<Resource, V>, rs: seq<Resource>, v: V): map<Resource, V> {
    m + (map r | r in rs :: v)
  }

  /** `m` without the resources of `rs`. */
  function Without<V>(m: map<Resource, V>, rs: seq<Resource>): map<Resource, V> {
    map r | r in m && r !in rs :: m[r]
  }

  // ---- The authority's operations ----

  /** Why an attempt cannot be registered, if it cannot. */
  function PrepareError(s: State, key: AttemptKey): Option<EditError> {
    if key in s.committed then Some(AlreadyCommitted(key.id))
    else if key in s.activeAttempts || key in s.prepared then Some(AlreadyActive(key.id))
    else None
  }

  function Prepared(s: State, key: AttemptKey): State {
    s.(prepared := s.prepared + {key})
  }

  /** The first resource, in order, that stops a reservation. */
  function AcquireError(s: State, key: AttemptKey, begin: nat, rs: seq<Resource>): (e: Option<EditError>)
    ensures e.None? <==> forall i :: 0 <= i < |rs| ==> Generation(s, rs[i]) <= begin && rs[i] !in s.active
  {
    if rs == [] then None
    else
      var r := rs[0];
      if Generation(s, r) > begin then Some(StaleGeneration(r.path))
      else if r in s.active then
        if s.active[r].id == key.id then Some(AlreadyActive(key.id))
        else Some(Conflict(r.path, s.active[r].id))
      else
        var e := AcquireError(s, key, begin, rs[1..]);
        assert e.None? ==> forall i :: 0 <= i < |rs| ==> Generation(s, rs[i]) <= begin && rs[i] !in s.active by {
          assert forall i :: 1 <= i < |rs| ==> rs[i] == rs[1..][i - 1];
        }
        assert e.Some? ==> exists i :: 0 <= i < |rs| && !(Generation(s, rs[i]) <= begin && rs[i] !in s.active) by {
          if e.Some? {
            var i :| 0 <= i < |rs[1..]| && !(Generation(s, rs[1..][i]) <= begin && rs[1..][i] !in s.active);
            assert rs[i + 1] == rs[1..][i];
          }
        }
        e
  }

  function Reserved(s: State, key: AttemptKey, rs: seq<Resource>): State {
    s.(active := Assigned(s.active, rs, key),
       activeAttempts := s.activeAttempts + {key},
       prepared := s.prepared - {key})
  }

  function Released(s: State, key: AttemptKey, rs: seq<Resource>): State {
    s.(active := map r | r in s.active && !(r in rs && s.active[r] == key) :: s.active[r],
       activeAttempts := s.activeAttempts - {key})
  }

  function Unprepared(s: State, key: AttemptKey): State {
    s.(prepared := s.prepared - {key})
  }

  predicate Current(s: State, key: AttemptKey, begin: nat, r: Resource) {
    Generation(s, r) <= begin && r in s.active && s.active[r] == key
  }

  /** The compare-and-swap before a commit: the first resource whose generation or holder changed. */
  function CommitError(s: State, key: AttemptKey, begin: nat, rs: seq<Resource>): (e: Option<EditError>)
    ensures e.None? <==> forall i :: 0 <= i < |rs| ==> Current(s, key, begin, rs[i])
  {
    if rs == [] then None
    else if !Current(s, key, begin, rs[0]) then Some(StaleGeneration(rs[0].path))
    else
      var e := CommitError(s, key, begin, rs[1..]);
      assert e.None? ==> forall i :: 0 <= i < |rs| ==> Current(s, key, begin, rs[i]) by {
        assert forall i :: 1 <= i < |rs| ==> rs[i] == rs[1..][i - 1];
      }
      assert e.Some? ==> exists i :: 0 <= i < |rs| && !Current(s, key, begin, rs[i]) by {
        if e.Some? {
          var i :| 0 <= i < |rs[1..]| && !Current(s, key, begin, rs[1..][i]);
          assert rs[i + 1] == rs[1..][i];
        }
      }
      e
  }

  function AppliedBy(s: State, l: Lease): AppliedEdit {
    var n := SaturatingInc(s.sequence);
    AppliedEdit(l.key.epoch, n, l.attempt.id, l.attempt.workspace, l.attempt.paths,
                seq(|l.attempt.paths|, _ => n))
  }

  function Committed(s: State, l: Lease): State {
    var n := SaturatingInc(s.sequence);
    var rs := Resources(l.attempt);
    s.(sequence := n,
       generations := Assigned(s.generations, rs, n),
       active := Without(s.active, rs),
       activeAttempts := s.activeAttempts - {l.key},
       committed := s.committed + {l.key})
  }

  // ---- Reading the journal back ----

  function Stamp(gens: map<Resource, nat>, rs: seq<Resource>, values: seq<nat>): map<Resource, nat>
    decreases |rs|
  {
    if rs == [] || values == [] then gens
    else Stamp(gens[rs[0] := values[0]], rs[1..], values[1..])
  }

  function Replayed(s: State, e: AppliedEdit): State {
    s.(sequence := Max(s.sequence, e.sequence),
       committed := s.committed + {AttemptKey(e.epoch, e.id)},
       generations := Stamp(s.generations, ResourcesOf(e.workspace, e.paths), e.generations))
  }

  function Replay(journal: seq<AppliedEdit>): State {
    if journal == [] then EMPTY
    else Replayed(Replay(journal[..|journal| - 1]), journal[|journal| - 1])
  }
}
