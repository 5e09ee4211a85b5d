/**
 Every interleaving of attempts around one authority, with restarts from its
 journal: no update is lost, no path has two holders, and a restart forgets
 nothing that matters.
 */
module EditSystem {
  import opened Prelude
  import opened EditProtocol

  /** A commit that took effect. */
  datatype Win = Win(key: AttemptKey, begin: nat, sequence: nat, resources: seq<Resource>)

  /**
   The authority, its journal, the clients' guards and leases, and the history
   of wins. A guard whose reservation was taken back, because the writer lease
   was refused, is `spent`: it is registered no longer and still to be dropped.
   */
  datatype System = System(
    epoch: string,
    state: State,
    journal: seq<AppliedEdit>,
    guards: map<AttemptKey, Guard>,
    leases: map<AttemptKey, Lease>,
    spent: set<AttemptKey>,
    wins: seq<Win>)

  datatype Event =
    | Begin(attempt: Attempt)
    | Acquire(key: AttemptKey)
    | RefuseWriter(key: AttemptKey)
    | DropGuard(key: AttemptKey)
    | Commit(key: AttemptKey, journalOk: bool)
    | DropLease(key: AttemptKey)
    | Restart(epoch: string)

  function Start(epoch: string): System {
    System(epoch, EMPTY, [], map[], map[], {}, [])
  }

  function WithoutGuard(s: System, k: AttemptKey): System {
    s.(state := Unprepared(s.state, k), guards := s.guards - {k})
  }

  function WithoutLease(s: System, k: AttemptKey): System
    requires k in s.leases
  {
    s.(state := Released(s.state, k, Resources(s.leases[k].attempt)), leases := s.leases - {k})
  }

  /** A refusal leaves the guard to its owner, who waits or drops it. */
  function AcquireStep(s: System, k: AttemptKey): System
    requires k in s.guards
  {
    var g := s.guards[k];
    var rs := Resources(g.attempt);
    if AcquireError(s.state, k, g.begin, rs).Some? then s
    else
      s.(state := Reserved(s.state, k, rs),
         guards := s.guards - {k},
         leases := s.leases[k := Lease(g.attempt, k, g.begin)])
  }

  function CommitStep(s: System, k: AttemptKey, journalOk: bool): System
    requires k in s.leases
  {
    var l := s.leases[k];
    var rs := Resources(l.attempt);
    if CommitError(s.state, k, l.begin, rs).Some? || !journalOk then WithoutLease(s, k)
    else
      s.(state := Committed(s.state, l),
         journal := s.journal + [AppliedBy(s.state, l)],
         leases := s.leases - {k},
         wins := s.wins + [Win(k, l.begin, SaturatingInc(s.state.sequence), rs)])
  }

  function Step(s: System, e: Event): System {
    match e
    case Begin(a) =>
      var k := AttemptKey(s.epoch, a.id);
      if k in s.spent || PrepareError(s.state, k).Some? then s   // ids are not reused while a guard lives
      else s.(state := Prepared(s.state, k), guards := s.guards[k := Guard(a, k, s.state.sequence)])
    case Acquire(k) => if k in s.guards then AcquireStep(s, k) else s
    case RefuseWriter(k) => if k in s.leases then WithoutLease(s, k).(spent := s.spent + {k}) else s
    case DropGuard(k) =>
      if k in s.guards then WithoutGuard(s, k)
      else if k in s.spent then s.(state := Unprepared(s.state, k), spent := s.spent - {k})
      else s
    case Commit(k, ok) => if k in s.leases then CommitStep(s, k, ok) else s
    case DropLease(k) => if k in s.leases then WithoutLease(s, k) else s
    case Restart(epoch) => System(epoch, Replay(s.journal), s.journal, map[], map[], {}, s.wins)
  }

  function Run(s: System, events: seq<Event>): System {
    if events == [] then s
    else Step(Run(s, events[..|events| - 1]), events[|events| - 1])
  }

  /** The sequence of the last win that touched `r`. */
  function LastWrite(wins: seq<Win>, r: Resource): nat {
    if wins == [] then 0
    else
      var w := wins[|wins| - 1];
      if r in w.resources then w.sequence else LastWrite(wins[..|wins| - 1], r)
  }

  // ---- The invariant ----

  ghost predicate Registered(s: System) {
    && s.guards.Keys == s.state.prepared
    && s.leases.Keys == s.state.activeAttempts
    && s.state.prepared !! s.state.activeAttempts
    && s.state.prepared !! s.spent
    && s.state.prepared !! s.state.committed
    && s.state.activeAttempts !! s.state.committed
    && (forall k :: k in s.guards ==> s.guards[k].key == k && s.guards[k].begin <= s.state.sequence)
    && (forall k :: k in s.leases ==>
          s.leases[k].key == k && s.leases[k].attempt.id == k.id && s.leases[k].begin <= s.state.sequence)
    && (forall k :: k in s.guards ==> s.guards[k].attempt.id == k.id)
  }

  /** A path is held exactly by the lease it belongs to: each lease holds all its paths and nothing else is held. */
  ghost predicate Held(s: System) {
    && (forall r :: r in s.state.active ==>
          s.state.active[r] in s.leases && r in Resources(s.leases[s.state.active[r]].attempt))
    && (forall k, r :: k in s.leases && r in Resources(s.leases[k].attempt) ==>
          r in s.state.active && s.state.active[r] == k)
  }

  ghost predicate GenerationsKnown(s: System) {
    forall r :: Generation(s.state, r) == LastWrite(s.wins, r) && (r in s.state.generations <==> LastWrite(s.wins, r) > 0)
  }

  ghost predicate LeasesFresh(s: System) {
    forall k, r :: k in s.leases && r in Resources(s.leases[k].attempt) ==> Generation(s.state, r) <= s.leases[k].begin
  }

  /** Wins are numbered from 1, and each saw every one of its paths unchanged since it began. */
  ghost predicate WinsOrdered(wins: seq<Win>) {
    forall i :: 0 <= i < |wins| ==>
      && wins[i].sequence == i + 1
      && wins[i].begin <= i
      && forall r :: r in wins[i].resources ==> LastWrite(wins[..i], r) <= wins[i].begin
  }

  function KeysOf(wins: seq<Win>): (ks: set<AttemptKey>) {
    set i | 0 <= i < |wins| :: wins[i].key
  }

  predicate Records(e: AppliedEdit, w: Win) {
    && AttemptKey(e.epoch, e.id) == w.key
    && e.sequence == w.sequence
    && ResourcesOf(e.workspace, e.paths) == w.resources
    && e.generations == seq(|e.paths|, _ => w.sequence)
  }

  ghost predicate Journaled(journal: seq<AppliedEdit>, wins: seq<Win>) {
    && |journal| == |wins|
    && forall i :: 0 <= i < |journal| ==> Records(journal[i], wins[i])
  }

  ghost predicate Inv(s: System) {
    && Registered(s)
    && Held(s)
    && GenerationsKnown(s)
    && LeasesFresh(s)
    && WinsOrdered(s.wins)
    && s.state.sequence == |s.wins|
    && s.state.committed == KeysOf(s.wins)
    && Journaled(s.journal, s.wins)
  }

  lemma StartInv(epoch: string)
    ensures Inv(Start(epoch))
  {
  }

  // ---- Steps keep the invariant ----

  lemma BeginInv(s: System, a: Attempt)
    requires Inv(s)
    ensures Inv(Step(s, Begin(a)))
  {
    hide Resources, WinsOrdered, Journaled, LastWrite, KeysOf;
  }

  lemma DropGuardInv(s: System, k: AttemptKey)
    requires Inv(s) && k in s.guards
    ensures Inv(WithoutGuard(s, k))
  {
    hide Resources, WinsOrdered, Journaled, LastWrite, KeysOf;
  }

  lemma DropLeaseInv(s: System, k: AttemptKey)
    requires Inv(s) && k in s.leases
    ensures Inv(WithoutLease(s, k))
  {
    hide Resources, WinsOrdered, Journaled, LastWrite, KeysOf;
    var t := WithoutLease(s, k);
    var rs := Resources(s.leases[k].attempt);
    forall k', r | k' in t.leases && r in Resources(t.leases[k'].attempt)
      ensures r in t.state.active && t.state.active[r] == k'
    {
      assert s.state.active[r] == k';
    }
    assert forall r :: Generation(t.state, r) == Generation(s.state, r);
  }

  /** A refused writer lease gives the reservation back; the guard lives on unregistered. */
  lemma RefuseInv(s: System, k: AttemptKey)
    requires Inv(s) && k in s.leases
    ensures Inv(WithoutLease(s, k).(spent := s.spent + {k}))
  {
    hide Held, GenerationsKnown, LeasesFresh, WinsOrdered, Journaled, KeysOf, WithoutLease;
    DropLeaseInv(s, k);
    LeaseNotPrepared(s, k);
    SameHeld(WithoutLease(s, k), s.spent + {k});
  }

  lemma LeaseNotPrepared(s: System, k: AttemptKey)
    requires Inv(s) && k in s.leases
    ensures k !in WithoutLease(s, k).state.prepared
    ensures WithoutLease(s, k).spent == s.spent
  {
  }

  /** Only the registration says anything about spent guards. */
  lemma SameHeld(s: System, spent: set<AttemptKey>)
    ensures var t := s.(spent := spent);
            && (Held(t) <==> Held(s)) && (GenerationsKnown(t) <==> GenerationsKnown(s))
            && (LeasesFresh(t) <==> LeasesFresh(s))
  {
  }

  lemma DropSpentInv(s: System, k: AttemptKey)
    requires Inv(s) && k in s.spent
    ensures Inv(s.(state := Unprepared(s.state, k), spent := s.spent - {k}))
  {
    hide Resources, Held, GenerationsKnown, LeasesFresh, WinsOrdered, Journaled, LastWrite, KeysOf;
    assert s.state.prepared - {k} == s.state.prepared;
    SameHeld(s, s.spent - {k});
  }

  /** An acquisition whose check succeeds. */
  ghost predicate Acquires(s: System, k: AttemptKey) {
    && Inv(s)
    && k in s.guards
    && AcquireError(s.state, k, s.guards[k].begin, Resources(s.guards[k].attempt)).None?
  }

  /** A reservation adds its paths under its key and changes no other. */
  lemma ReservedActive(st: State, k: AttemptKey, rs: seq<Resource>)
    ensures var t := Reserved(st, k, rs);
            forall r :: (r in t.active <==> r in st.active || r in rs)
                        && (r in rs ==> t.active[r] == k)
                        && (r in st.active && r !in rs ==> t.active[r] == st.active[r])
  {
  }

  lemma ReservedHeld(s: System, k: AttemptKey)
    requires Acquires(s, k)
    ensures Held(AcquireStep(s, k))
  {
    hide Resources, AcquireError, WinsOrdered, Journaled, LastWrite, KeysOf, GenerationsKnown, LeasesFresh, Reserved, Registered;
    var t := AcquireStep(s, k);
    var rs := Resources(s.guards[k].attempt);
    FreeResources(s, k);
    ReservedActive(s.state, k, rs);
    GuardHasNoLease(s, k);
    forall k', r | k' in t.leases && r in Resources(t.leases[k'].attempt)
      ensures r in t.state.active && t.state.active[r] == k'
    {
      if k' != k {
        assert s.state.active[r] == k';
      }
    }
    forall r | r in t.state.active
      ensures t.state.active[r] in t.leases && r in Resources(t.leases[t.state.active[r]].attempt)
    {
      if r !in rs {
        assert r in s.state.active && s.state.active[r] != k;
      }
    }
  }

  lemma GuardHasNoLease(s: System, k: AttemptKey)
    requires Inv(s) && k in s.guards
    ensures k !in s.leases
  {
  }

  lemma ReservedFresh(s: System, k: AttemptKey)
    requires Acquires(s, k)
    ensures LeasesFresh(AcquireStep(s, k))
  {
    hide Resources, AcquireError, WinsOrdered, Journaled, LastWrite, KeysOf, GenerationsKnown, Held, Reserved;
    var t := AcquireStep(s, k);
    FreeResources(s, k);
    ReservedGenerations(s.state, k, Resources(s.guards[k].attempt));
    forall k', r | k' in t.leases && r in Resources(t.leases[k'].attempt)
      ensures Generation(t.state, r) <= t.leases[k'].begin
    {
      if k' != k {
        assert Generation(s.state, r) <= s.leases[k'].begin;
      }
    }
  }

  lemma ReservedGenerations(st: State, k: AttemptKey, rs: seq<Resource>)
    ensures Reserved(st, k, rs).generations == st.generations
  {
  }

  lemma ReservedRegistered(s: System, k: AttemptKey)
    requires Acquires(s, k)
    ensures Registered(AcquireStep(s, k))
    ensures GenerationsKnown(AcquireStep(s, k))
    ensures var t := AcquireStep(s, k);
            t.wins == s.wins && t.journal == s.journal && t.state.sequence == s.state.sequence && t.state.committed == s.state.committed
  {
    hide Resources, AcquireError, WinsOrdered, Journaled, LastWrite, KeysOf, Held, LeasesFresh;
    var t := AcquireStep(s, k);
    forall r
      ensures Generation(t.state, r) == LastWrite(t.wins, r) && (r in t.state.generations <==> LastWrite(t.wins, r) > 0)
    {
      assert Generation(s.state, r) == LastWrite(s.wins, r);
    }
  }

  lemma ReservedInv(s: System, k: AttemptKey)
    requires Acquires(s, k)
    ensures Inv(AcquireStep(s, k))
  {
    hide AcquireStep, Registered, Held, GenerationsKnown, LeasesFresh, WinsOrdered, Journaled, KeysOf;
    ReservedHeld(s, k);
    ReservedFresh(s, k);
    ReservedRegistered(s, k);
  }

  /** A successful check means every path is free and unchanged. */
  lemma FreeResources(s: System, k: AttemptKey)
    requires k in s.guards
    requires AcquireError(s.state, k, s.guards[k].begin, Resources(s.guards[k].attempt)).None?
    ensures forall r :: r in Resources(s.guards[k].attempt) ==>
              r !in s.state.active && Generation(s.state, r) <= s.guards[k].begin
  {
    hide Resources, AcquireError;
  }

  lemma AcquireInv(s: System, k: AttemptKey)
    requires Inv(s) && k in s.guards
    ensures Inv(AcquireStep(s, k))
  {
    hide Resources, Registered, Held, GenerationsKnown, LeasesFresh, WinsOrdered, Journaled, Reserved;
    if AcquireError(s.state, k, s.guards[k].begin, Resources(s.guards[k].attempt)).None? {
      ReservedInv(s, k);
    }
  }

  lemma LastWriteSnoc(wins: seq<Win>, w: Win, r: Resource)
    ensures LastWrite(wins + [w], r) == if r in w.resources then w.sequence else LastWrite(wins, r)
  {
    assert (wins + [w])[..|wins|] == wins;
  }

  lemma WinsOrderedSnoc(wins: seq<Win>, w: Win)
    requires WinsOrdered(wins)
    requires w.sequence == |wins| + 1 && w.begin <= |wins|
    requires forall r :: r in w.resources ==> LastWrite(wins, r) <= w.begin
    ensures WinsOrdered(wins + [w])
  {
    var all := wins + [w];
    forall i | 0 <= i < |all|
      ensures all[i].sequence == i + 1 && all[i].begin <= i
      ensures forall r :: r in all[i].resources ==> LastWrite(all[..i], r) <= all[i].begin
    {
      assert all[..i] == wins[..i];
      if i == |wins| {
        assert wins[..i] == wins;
      }
    }
  }

  /** A commit that passes its compare-and-swap and is journaled. */
  ghost predicate Commits(s: System, k: AttemptKey) {
    && Inv(s)
    && k in s.leases
    && |s.wins| < U64_MAX
    && CommitError(s.state, k, s.leases[k].begin, Resources(s.leases[k].attempt)).None?
  }

  function WinOf(s: System, k: AttemptKey): Win
    requires k in s.leases
  {
    Win(k, s.leases[k].begin, |s.wins| + 1, Resources(s.leases[k].attempt))
  }

  lemma CommitRegistered(s: System, k: AttemptKey)
    requires Commits(s, k)
    ensures Registered(CommitStep(s, k, true))
    ensures CommitStep(s, k, true).state.sequence == |CommitStep(s, k, true).wins|
    ensures CommitStep(s, k, true).wins == s.wins + [WinOf(s, k)]
  {
    hide Resources, CommitError, Held, GenerationsKnown, LeasesFresh, WinsOrdered, Journaled, KeysOf;
  }

  /** What a commit leaves held: everything the other leases hold. */
  lemma CommitHeld(s: System, k: AttemptKey)
    requires Commits(s, k)
    ensures Held(CommitStep(s, k, true))
  {
    hide Resources, CommitError, Registered, GenerationsKnown, LeasesFresh, WinsOrdered, Journaled, KeysOf;
    var t := CommitStep(s, k, true);
    var rs := Resources(s.leases[k].attempt);
    forall k', r | k' in t.leases && r in Resources(t.leases[k'].attempt)
      ensures r in t.state.active && t.state.active[r] == k'
    {
      assert k' != k && s.state.active[r] == k';
      assert r !in rs;
    }
    forall r | r in t.state.active
      ensures t.state.active[r] in t.leases && r in Resources(t.leases[t.state.active[r]].attempt)
    {
      assert r in s.state.active && r !in rs;
    }
  }

  lemma CommitGenerations(s: System, k: AttemptKey)
    requires Commits(s, k)
    ensures GenerationsKnown(CommitStep(s, k, true))
  {
    hide Resources, CommitError, Registered, Held, LeasesFresh, WinsOrdered, Journaled, KeysOf;
    var t := CommitStep(s, k, true);
    forall r
      ensures Generation(t.state, r) == LastWrite(t.wins, r)
      ensures r in t.state.generations <==> LastWrite(t.wins, r) > 0
    {
      LastWriteSnoc(s.wins, WinOf(s, k), r);
      assert Generation(s.state, r) == LastWrite(s.wins, r);
    }
  }

  lemma CommitLeasesFresh(s: System, k: AttemptKey)
    requires Commits(s, k)
    ensures LeasesFresh(CommitStep(s, k, true))
  {
    hide Resources, CommitError, Registered, GenerationsKnown, WinsOrdered, Journaled, KeysOf;
    var t := CommitStep(s, k, true);
    forall k', r | k' in t.leases && r in Resources(t.leases[k'].attempt)
      ensures Generation(t.state, r) <= t.leases[k'].begin
    {
      assert k' != k && s.state.active[r] == k';
      assert r !in Resources(s.leases[k].attempt);
      assert Generation(s.state, r) <= s.leases[k'].begin;
    }
  }

  lemma CommitWins(s: System, k: AttemptKey)
    requires Commits(s, k)
    ensures WinsOrdered(s.wins + [WinOf(s, k)])
    ensures Committed(s.state, s.leases[k]).committed == KeysOf(s.wins + [WinOf(s, k)])
  {
    hide Resources, CommitError, Registered, Held, LeasesFresh, Journaled;
    var w := WinOf(s, k);
    forall r | r in w.resources
      ensures LastWrite(s.wins, r) <= w.begin
    {
      var i :| 0 <= i < |w.resources| && w.resources[i] == r;
      assert Current(s.state, k, w.begin, w.resources[i]);
      assert Generation(s.state, r) == LastWrite(s.wins, r);
    }
    LeaseShape(s, k);
    WinsOrderedSnoc(s.wins, w);
    KeysOfSnoc(s.wins, w);
  }

  lemma KeysOfSnoc(wins: seq<Win>, w: Win)
    ensures KeysOf(wins + [w]) == KeysOf(wins) + {w.key}
  {
    var all := wins + [w];
    forall k | k in KeysOf(wins) ensures k in KeysOf(all) {
      var i :| 0 <= i < |wins| && wins[i].key == k;
      assert all[i].key == k;
    }
    assert all[|wins|].key == w.key;
  }

  lemma LeaseShape(s: System, k: AttemptKey)
    requires Inv(s) && k in s.leases
    ensures s.leases[k].key == k && s.leases[k].begin <= |s.wins|
  {
  }

  lemma CommitJournaled(s: System, k: AttemptKey)
    requires Commits(s, k)
    ensures Journaled(CommitStep(s, k, true).journal, CommitStep(s, k, true).wins)
  {
    hide CommitError, Held, GenerationsKnown, LeasesFresh, WinsOrdered, KeysOf;
    var t := CommitStep(s, k, true);
    assert s.leases[k].key == k && s.leases[k].attempt.id == k.id;
    forall i | 0 <= i < |t.journal|
      ensures Records(t.journal[i], t.wins[i])
    {
      if i < |s.journal| {
        assert t.journal[i] == s.journal[i] && t.wins[i] == s.wins[i];
      }
    }
  }

  lemma CommitInv(s: System, k: AttemptKey, ok: bool)
    requires Inv(s) && k in s.leases
    requires |CommitStep(s, k, ok).wins| <= U64_MAX
    ensures Inv(CommitStep(s, k, ok))
  {
    hide Resources, Registered, Held, GenerationsKnown, LeasesFresh, WinsOrdered, Journaled, KeysOf, Released;
    if CommitError(s.state, k, s.leases[k].begin, Resources(s.leases[k].attempt)).Some? || !ok {
      DropLeaseInv(s, k);
    } else {
      CommitRegistered(s, k);
      CommitHeld(s, k);
      CommitGenerations(s, k);
      CommitLeasesFresh(s, k);
      CommitWins(s, k);
      CommitJournaled(s, k);
    }
  }

  // ---- Recovery ----

  lemma {:induction false} StampUniform(gens: map<Resource, nat>, rs: seq<Resource>, values: seq<nat>, n: nat)
    requires |values| == |rs|
    requires forall i :: 0 <= i < |values| ==> values[i] == n
    ensures Stamp(gens, rs, values) == Assigned(gens, rs, n)
    decreases |rs|
  {
    if rs == [] {
      assert Assigned(gens, rs, n) == gens;
    } else {
      hide Assigned;
      StampUniform(gens[rs[0] := n], rs[1..], values[1..], n);
      AssignedCons(gens, rs, n);
    }
  }

  lemma AssignedCons(gens: map<Resource, nat>, rs: seq<Resource>, n: nat)
    requires rs != []
    ensures Assigned(gens[rs[0] := n], rs[1..], n) == Assigned(gens, rs, n)
  {
    assert rs == [rs[0]] + rs[1..];
  }

  /** Reading the journal back gives the sequence, the winners and the generations of the history. */
  lemma {:induction false} ReplayRecovers(journal: seq<AppliedEdit>, wins: seq<Win>)
    requires Journaled(journal, wins)
    requires WinsOrdered(wins)
    ensures var s := Replay(journal);
            && s.sequence == |wins|
            && s.committed == KeysOf(wins)
            && s.active == map[] && s.activeAttempts == {} && s.prepared == {}
            && forall r :: Generation(s, r) == LastWrite(wins, r) && (r in s.generations <==> LastWrite(wins, r) > 0)
  {
    if journal != [] {
      var n := |journal| - 1;
      var w := wins[n];
      assert wins == wins[..n] + [w];
      assert forall i :: 0 <= i < n ==> wins[..n][..i] == wins[..i];
      ReplayRecovers(journal[..n], wins[..n]);
      var before := Replay(journal[..n]);
      var s := Replay(journal);
      StampUniform(before.generations, w.resources, journal[n].generations, w.sequence);
      forall r
        ensures Generation(s, r) == LastWrite(wins, r)
        ensures r in s.generations <==> LastWrite(wins, r) > 0
      {
        LastWriteSnoc(wins[..n], w, r);
        assert Generation(before, r) == LastWrite(wins[..n], r);
      }
      KeysOfSnoc(wins[..n], w);
    }
  }

  lemma RestartInv(s: System, epoch: string)
    requires Inv(s)
    ensures Inv(Step(s, Restart(epoch)))
  {
    ReplayRecovers(s.journal, s.wins);
  }

  // ---- Runs ----

  lemma StepInv(s: System, e: Event)
    requires Inv(s)
    requires |Step(s, e).wins| <= U64_MAX
    ensures Inv(Step(s, e))
  {
    match e
    case Begin(a) => BeginInv(s, a);
    case Acquire(k) => if k in s.guards { AcquireInv(s, k); }
    case RefuseWriter(k) => if k in s.leases { RefuseInv(s, k); }
    case DropGuard(k) =>
      if k in s.guards {
        DropGuardInv(s, k);
      } else if k in s.spent {
        DropSpentInv(s, k);
      }
    case Commit(k, ok) => if k in s.leases { CommitInv(s, k, ok); }
    case DropLease(k) => if k in s.leases { DropLeaseInv(s, k); }
    case Restart(epoch) => RestartInv(s, epoch);
  }

  /** Every state of every run keeps the invariant, up to as many commits as the counter can number. */
  lemma {:induction false} RunInv(epoch: string, events: seq<Event>)
    requires |Run(Start(epoch), events).wins| <= U64_MAX
    ensures Inv(Run(Start(epoch), events))
  {
    if events != [] {
      var before := Run(Start(epoch), events[..|events| - 1]);
      var e := events[|events| - 1];
      assert |before.wins| <= |Step(before, e).wins|;
      RunInv(epoch, events[..|events| - 1]);
      StepInv(before, e);
    }
  }

  lemma {:induction false} LastWriteCovers(wins: seq<Win>, i: nat, r: Resource)
    requires i < |wins| && r in wins[i].resources
    requires forall k :: 0 <= k < |wins| ==> wins[k].sequence == k + 1
    ensures LastWrite(wins, r) >= wins[i].sequence
  {
    var n := |wins| - 1;
    if i < n && r !in wins[n].resources {
      LastWriteCovers(wins[..n], i, r);
    }
  }

  /**
   No lost updates: whatever the interleaving and however often the authority
   restarts, of two commits that share a path the later began at or after the
   earlier one's commit, so it saw that commit.
   */
  lemma NoLostUpdates(epoch: string, events: seq<Event>, i: nat, j: nat, r: Resource)
    requires |Run(Start(epoch), events).wins| <= U64_MAX
    requires i < j < |Run(Start(epoch), events).wins|
    requires r in Run(Start(epoch), events).wins[i].resources
    requires r in Run(Start(epoch), events).wins[j].resources
    ensures var wins := Run(Start(epoch), events).wins;
            wins[i].sequence <= wins[j].begin < wins[j].sequence
  {
    RunInv(epoch, events);
    var wins := Run(Start(epoch), events).wins;
    LastWriteCovers(wins[..j], i, r);
  }

  /** At any time a path has one holder, which holds all of its paths; a waiting attempt holds none. */
  lemma Exclusive(epoch: string, events: seq<Event>, k: AttemptKey, r: Resource)
    requires |Run(Start(epoch), events).wins| <= U64_MAX
    ensures var s := Run(Start(epoch), events);
            && (r in s.state.active && s.state.active[r] == k <==> k in s.leases && r in Resources(s.leases[k].attempt))
            && (k in s.guards ==> forall x :: x in s.state.active ==> s.state.active[x] != k)
            && !(k in s.state.prepared && k in s.state.activeAttempts)
            && !(k in s.state.prepared && k in s.state.committed)
            && !(k in s.state.activeAttempts && k in s.state.committed)
  {
    hide Run, Resources, GenerationsKnown, LeasesFresh, WinsOrdered, Journaled;
    RunInv(epoch, events);
  }

  /** Once reserved, an attempt's compare-and-swap cannot fail: only the journal can refuse it. */
  lemma ReservedAttemptsCommit(epoch: string, events: seq<Event>, k: AttemptKey)
    requires |Run(Start(epoch), events).wins| <= U64_MAX
    requires k in Run(Start(epoch), events).leases
    ensures var s := Run(Start(epoch), events);
            && CommitError(s.state, k, s.leases[k].begin, Resources(s.leases[k].attempt)).None?
            && |Step(s, Commit(k, true)).wins| == |s.wins| + 1
  {
    hide Run, Resources, CommitError, GenerationsKnown, WinsOrdered, Journaled;
    RunInv(epoch, events);
    var s := Run(Start(epoch), events);
    var rs := Resources(s.leases[k].attempt);
    forall i | 0 <= i < |rs|
      ensures Current(s.state, k, s.leases[k].begin, rs[i])
    {
      assert rs[i] in rs;
    }
  }

  /**
   Recovery refines the live authority: replaying the journal at any point of
   any run gives the live sequence, generations and winners, so an attempt is
   refused as stale after a restart exactly when it was stale before.
   */
  lemma RecoveryIsFaithful(epoch: string, events: seq<Event>)
    requires |Run(Start(epoch), events).wins| <= U64_MAX
    ensures var s := Run(Start(epoch), events);
            var t := Replay(s.journal);
            && t.sequence == s.state.sequence
            && t.generations == s.state.generations
            && t.committed == s.state.committed
            && forall r: Resource :: Generation(t, r) == Generation(s.state, r)
  {
    RunInv(epoch, events);
    var s := Run(Start(epoch), events);
    ReplayRecovers(s.journal, s.wins);
    var t := Replay(s.journal);
    assert forall r :: Generation(t, r) == Generation(s.state, r);
    assert t.generations == s.state.generations by {
      forall r ensures r in t.generations <==> r in s.state.generations {
        assert Generation(s.state, r) == LastWrite(s.wins, r);
      }
      forall r | r in t.generations ensures t.generations[r] == s.state.generations[r] {
        assert Generation(t, r) == Generation(s.state, r);
      }
    }
  }

  // ---- At the top of the counter ----

  /**
   A commit makes a peer that began at `begin` stale if and only if the peer
   began below the top of the 64-bit counter, which saturates.
   */
  lemma CommitMakesPeersStale(s: State, l: Lease, begin: nat, r: Resource)
    requires begin <= s.sequence <= U64_MAX
    requires r in Resources(l.attempt)
    ensures Generation(Committed(s, l), r) > begin <==> begin < U64_MAX
  {
  }

  /** With a journal whose last record is at the top, two overlapping attempts that both began there both win. */
  lemma SaturatedCounterLosesUpdates(k1: AttemptKey, k2: AttemptKey, r: Resource)
    requires k1 != k2
    ensures var last := AppliedEdit("old", U64_MAX, AttemptId("s", "a", "0"), r.workspace, [], []);
            var s0 := Replay([last]);
            var a, b := Attempt(k1.id, r.workspace, [r.path]), Attempt(k2.id, r.workspace, [r.path]);
            var s1 := Reserved(Prepared(Prepared(s0, k1), k2), k1, [r]);
            var s2 := Committed(s1, Lease(a, k1, s0.sequence));
            var s3 := Reserved(s2, k2, [r]);
            var s4 := Committed(s3, Lease(b, k2, s0.sequence));
            && CommitError(s1, k1, s0.sequence, Resources(a)).None?
            && AcquireError(s2, k2, s0.sequence, [r]).None?
            && CommitError(s3, k2, s0.sequence, Resources(b)).None?
            && {k1, k2} <= s4.committed
  {
    var last := AppliedEdit("old", U64_MAX, AttemptId("s", "a", "0"), r.workspace, [], []);
    var journal := [last];
    assert Replay(journal[..|journal| - 1]) == EMPTY;
    var s0 := Replay(journal);
    assert s0 == Replayed(EMPTY, last);
    var a, b := Attempt(k1.id, r.workspace, [r.path]), Attempt(k2.id, r.workspace, [r.path]);
    assert Resources(a) == [r] && Resources(b) == [r];
    assert r in [r];
  }
}
