/** Password logins of one new user that race each other (ssh/server.go:82-104). The existence check and the
    two puts are separate, so several logins of the same user may each create a key pair. Exactly when does
    that leave a usable key that is not the one in the user's entry? */
module LoginRaces {
  import opened Common
  import opened Logins

  /** Every usable key is the one in its user's entry. */
  predicate KeysMatch(s: State) {
    forall k :: k in s.keys ==> s.keys[k].uuid in s.uuids && s.uuids[s.keys[k].uuid].pubKey == k
  }

  predicate PassedBefore(log: seq<Event>, n: nat, t: nat, u: string) {
    exists p :: 0 <= p < n && p < |log| && log[p] == Passed(t, u)
  }

  /** Two logins for u, t and v, both passed the check before either made its first put (t's at i, v's later
      at j), and t, whose entry v replaced, also indexed its key. */
  predicate LostRace(log: seq<Event>, i: nat, j: nat) {
    && i < j < |log| && log[i].EntryPut? && log[j].EntryPut?
    && log[i].uuid == log[j].uuid && log[i].login != log[j].login
    && PassedBefore(log, i, log[i].login, log[i].uuid)
    && PassedBefore(log, i, log[j].login, log[j].uuid)
    && KeyPut(log[i].login, log[i].uuid, log[i].key) in log
  }

  // ---------------------------------------------------------------------------
  // What the log says about the state
  // ---------------------------------------------------------------------------

  /** The key of the last entry put for u. */
  function LastEntry(log: seq<Event>, u: string): Option<string> {
    if log == [] then None
    else
      var e := log[|log| - 1];
      if e.EntryPut? && e.uuid == u then Some(e.key) else LastEntry(log[..|log| - 1], u)
  }

  lemma {:induction false} LastEntryIsLater(log: seq<Event>, u: string, i: nat) returns (j: nat)
    requires i < |log| && log[i].EntryPut? && log[i].uuid == u
    ensures i <= j < |log| && log[j].EntryPut? && log[j].uuid == u && LastEntry(log, u) == Some(log[j].key)
  {
    var e := log[|log| - 1];
    if e.EntryPut? && e.uuid == u {
      j := |log| - 1;
    } else {
      j := LastEntryIsLater(log[..|log| - 1], u, i);
    }
  }

  lemma LastEntrySnoc(log: seq<Event>, e: Event, u: string)
    ensures LastEntry(log + [e], u) == if e.EntryPut? && e.uuid == u then Some(e.key) else LastEntry(log, u)
  {
    assert (log + [e])[..|log|] == log;
  }

  /** Each entry was put by a login that had passed the check; nobody passes it once there is an entry; no
      login puts twice; and no two put the same key. */
  predicate LogOk(log: seq<Event>) {
    && (forall i :: 0 <= i < |log| && log[i].EntryPut? ==> PassedBefore(log, i, log[i].login, log[i].uuid))
    && (forall i, q :: 0 <= i < q < |log| && log[i].EntryPut? && log[q].Passed? ==> log[i].uuid != log[q].uuid)
    && (forall i, j :: 0 <= i < j < |log| && log[i].EntryPut? && log[j].EntryPut? ==>
          log[i].login != log[j].login && log[i].key != log[j].key)
  }

  /** An entry once put stays, its key stays in use, and its login is past its first put. */
  predicate EntryOkIn(s: State, e: Event)
    requires e.EntryPut?
  {
    && e.uuid in s.uuids && e.key in s.creator && e.login < |s.logins|
    && !s.logins[e.login].Checking? && !s.logins[e.login].Creating? && !s.logins[e.login].PuttingUuid?
  }

  predicate EntriesOk(s: State) {
    forall i :: 0 <= i < |s.log| && s.log[i].EntryPut? ==> EntryOkIn(s, s.log[i])
  }

  ghost predicate LastOk(s: State) {
    forall u :: LastEntry(s.log, u).Some? ==> u in s.uuids && s.uuids[u].pubKey == LastEntry(s.log, u).value
  }

  predicate LoginTraced(s: State, t: nat)
    requires t < |s.logins|
  {
    var l := s.logins[t];
    && (l.Creating? || l.PuttingUuid? ==> Passed(t, l.user.uuid) in s.log)
    && (l.PuttingUuid? ==> forall i :: 0 <= i < |s.log| && s.log[i].EntryPut? ==> s.log[i].key != l.user.pubKey)
    && (l.PuttingKey? ==> EntryPut(t, l.user.uuid, l.user.pubKey) in s.log)
  }

  predicate LoginsTraced(s: State) { forall t :: 0 <= t < |s.logins| ==> LoginTraced(s, t) }

  /** A usable key was indexed by the login that put it in an entry; or it was there before, and then
      nobody passes the check for its uuid. */
  ghost predicate KeyTraced(s: State, k: string)
    requires k in s.keys
  {
    var u := s.keys[k].uuid;
    || (exists t: nat :: EntryPut(t, u, k) in s.log && KeyPut(t, u, k) in s.log)
    || (u in s.uuids && s.uuids[u].pubKey == k && forall t: nat :: Passed(t, u) !in s.log)
  }

  ghost predicate KeysTraced(s: State) { forall k :: k in s.keys ==> KeyTraced(s, k) }

  predicate KeyPutsOk(s: State) {
    forall i :: 0 <= i < |s.log| && s.log[i].KeyPut? ==>
      s.log[i].key in s.keys && s.keys[s.log[i].key].uuid == s.log[i].uuid
  }

  ghost predicate Traced(s: State) {
    Inv(s) && LogOk(s.log) && EntriesOk(s) && LastOk(s) && LoginsTraced(s) && KeysTraced(s) && KeyPutsOk(s)
  }

  // ---------------------------------------------------------------------------
  // Every step keeps it
  // ---------------------------------------------------------------------------

  lemma TracedInit(uuids: map<string, User>, keys: map<string, User>)
    requires Coherent(uuids, keys) && KeysMatch(Init(uuids, keys))
    ensures Traced(Init(uuids, keys))
  {
    InvInit(uuids, keys);
  }

  /** A step adds at most one event. */
  function NewEvent(s: State, step: Step): seq<Event>
    requires Enabled(s, step)
  {
    match step
    case Check(t, ok) =>
      var user := s.logins[t].user;
      if ok && user.uuid !in s.uuids then [Passed(t, user.uuid)] else []
    case PutUuid(t, o) =>
      var user := s.logins[t].user;
      if o.Lost? then [] else [EntryPut(t, user.uuid, user.pubKey)]
    case PutKey(t, o) =>
      var user := s.logins[t].user;
      if o.Lost? then [] else [KeyPut(t, user.uuid, user.pubKey)]
    case _ => []
  }

  lemma LogGrows(s: State, step: Step)
    requires Enabled(s, step)
    ensures Apply(s, step).log == s.log + NewEvent(s, step)
  {}

  lemma PassedStays(log: seq<Event>, e: Event)
    requires LogOk(log)
    ensures forall i :: 0 <= i < |log| && log[i].EntryPut? ==> PassedBefore(log + [e], i, log[i].login, log[i].uuid)
  {
    forall i | 0 <= i < |log| && log[i].EntryPut?
      ensures PassedBefore(log + [e], i, log[i].login, log[i].uuid)
    {
      var p :| 0 <= p < i && log[p] == Passed(log[i].login, log[i].uuid);
      assert (log + [e])[p] == Passed(log[i].login, log[i].uuid);
    }
  }

  lemma LogAppend(log: seq<Event>, e: Event)
    requires LogOk(log)
    requires e.Passed? ==> forall i :: 0 <= i < |log| && log[i].EntryPut? ==> log[i].uuid != e.uuid
    requires e.EntryPut? ==> Passed(e.login, e.uuid) in log
    requires e.EntryPut? ==> forall i :: 0 <= i < |log| && log[i].EntryPut? ==>
               log[i].login != e.login && log[i].key != e.key
    ensures LogOk(log + [e])
  {
    PassedStays(log, e);
    if e.EntryPut? {
      var p :| 0 <= p < |log| && log[p] == Passed(e.login, e.uuid);
      assert (log + [e])[p] == Passed(e.login, e.uuid);
      assert PassedBefore(log + [e], |log|, e.login, e.uuid);
    }
  }

  lemma StepLog(s: State, step: Step)
    requires LogOk(s.log) && EntriesOk(s) && LoginsTraced(s) && Enabled(s, step)
    ensures LogOk(Apply(s, step).log)
  {
    LogGrows(s, step);
    if step.PutUuid? { assert LoginTraced(s, step.t); }
    if NewEvent(s, step) != [] {
      LogAppend(s.log, NewEvent(s, step)[0]);
    } else {
      assert s.log + [] == s.log;
    }
  }

  lemma EntryStays(s: State, step: Step, e: Event)
    requires Inv(s) && Enabled(s, step) && e.EntryPut? && EntryOkIn(s, e)
    ensures EntryOkIn(Apply(s, step), e)
  {
    StepExtends(s, step);
    OthersStay(s, step);
  }

  lemma NewEntry(s: State, step: Step)
    requires Inv(s) && Enabled(s, step) && step.PutUuid? && !step.uuidPut.Lost?
    ensures EntryOkIn(Apply(s, step), EntryPut(step.t, s.logins[step.t].user.uuid, s.logins[step.t].user.pubKey))
  {
    assert LoginOk(s, s.logins[step.t]);
  }

  lemma StepEntries(s: State, step: Step)
    requires Inv(s) && EntriesOk(s) && Enabled(s, step)
    ensures EntriesOk(Apply(s, step))
  {
    LogGrows(s, step);
    var s' := Apply(s, step);
    forall i | 0 <= i < |s'.log| && s'.log[i].EntryPut? ensures EntryOkIn(s', s'.log[i]) {
      if i < |s.log| {
        EntryStays(s, step, s.log[i]);
      } else {
        NewEntry(s, step);
      }
    }
  }

  lemma StepLast(s: State, step: Step)
    requires LastOk(s) && Enabled(s, step)
    ensures LastOk(Apply(s, step))
  {
    LogGrows(s, step);
    var s' := Apply(s, step);
    forall u | LastEntry(s'.log, u).Some?
      ensures u in s'.uuids && s'.uuids[u].pubKey == LastEntry(s'.log, u).value
    {
      if NewEvent(s, step) != [] {
        LastEntrySnoc(s.log, NewEvent(s, step)[0], u);
      }
    }
  }

  lemma MoverTraced(s: State, step: Step)
    requires EntriesOk(s) && LoginsTraced(s) && Enabled(s, step) && Mover(step) >= 0
    ensures LoginTraced(Apply(s, step), Mover(step))
  {
    LogGrows(s, step);
    assert LoginTraced(s, Mover(step));
  }

  // A key just put in an entry is not the one another login is about to put.
  lemma BystanderKey(s: State, step: Step, t: nat)
    requires LoginsOk(s) && Enabled(s, step) && step.PutUuid? && t < |s.logins| && t != step.t && s.logins[t].PuttingUuid?
    ensures s.logins[t].user.pubKey != s.logins[step.t].user.pubKey
  {
    assert Carries(s.logins[t]) && Carries(s.logins[step.t]);
  }

  lemma BystanderTraced(s: State, step: Step, t: nat)
    requires LoginsOk(s) && Enabled(s, step) && t < |s.logins| && LoginTraced(s, t) && t != Mover(step)
    ensures Apply(s, step).logins[t] == s.logins[t] && LoginTraced(Apply(s, step), t)
  {
    LogGrows(s, step);
    OthersStay(s, step);
    if step.PutUuid? && s.logins[t].PuttingUuid? {
      BystanderKey(s, step, t);
    }
  }

  lemma StepLoginTraced(s: State, step: Step, t: nat)
    requires Inv(s) && EntriesOk(s) && LoginsTraced(s) && Enabled(s, step) && t < |Apply(s, step).logins|
    ensures LoginTraced(Apply(s, step), t)
  {
    if t == Mover(step) {
      MoverTraced(s, step);
    } else if t < |s.logins| {
      assert LoginTraced(s, t);
      BystanderTraced(s, step, t);
    } else {
      OthersStay(s, step);
    }
  }

  lemma StepKeyTraced(s: State, step: Step, k: string)
    requires LoginsTraced(s) && KeysTraced(s) && KeysOk(s) && EntriesOk(s) && Enabled(s, step) && k in Apply(s, step).keys
    ensures KeyTraced(Apply(s, step), k)
  {
    LogGrows(s, step);
    var s' := Apply(s, step);
    if step.PutKey? && !step.keyPut.Lost? && k == s.logins[step.t].user.pubKey {
      assert LoginTraced(s, step.t);
      assert EntryPut(step.t, s'.keys[k].uuid, k) in s'.log && KeyPut(step.t, s'.keys[k].uuid, k) in s'.log;
    } else {
      OldKeyTraced(s, step, k);
    }
  }

  lemma OldKeyTraced(s: State, step: Step, k: string)
    requires LoginsTraced(s) && k in s.keys && KeyTraced(s, k) && KeysOk(s) && Enabled(s, step)
    requires k in Apply(s, step).keys && Apply(s, step).keys[k] == s.keys[k]
    ensures KeyTraced(Apply(s, step), k)
  {
    LogGrows(s, step);
    var s', u := Apply(s, step), s.keys[k].uuid;
    assert KeyTraced(s, k);
    if t: nat :| EntryPut(t, u, k) in s.log && KeyPut(t, u, k) in s.log {
      assert EntryPut(t, u, k) in s'.log && KeyPut(t, u, k) in s'.log;
    } else {
      if step.PutUuid? {
        assert LoginTraced(s, step.t);
      }
    }
  }

  lemma StepKeyPuts(s: State, step: Step)
    requires Traced(s) && Enabled(s, step)
    ensures KeyPutsOk(Apply(s, step))
  {
    LogGrows(s, step);
    StepExtends(s, step);
  }

  lemma StepTraced(s: State, step: Step)
    requires Traced(s) && Enabled(s, step)
    ensures Traced(Apply(s, step))
  {
    InvStep(s, step);
    StepLog(s, step);
    StepEntries(s, step);
    StepLast(s, step);
    StepKeyPuts(s, step);
    var s' := Apply(s, step);
    forall t | 0 <= t < |s'.logins| ensures LoginTraced(s', t) {
      StepLoginTraced(s, step, t);
    }
    forall k | k in s'.keys ensures KeyTraced(s', k) {
      StepKeyTraced(s, step, k);
    }
  }

  lemma {:induction false} RunTraced(s: State, steps: seq<Step>, s': State)
    requires Traced(s) && Run(s, steps, s')
    ensures Traced(s')
    decreases steps
  {
    if steps != [] {
      StepTraced(s, steps[0]);
      RunTraced(Apply(s, steps[0]), steps[1..], s');
    }
  }

  // ---------------------------------------------------------------------------
  // Theorems
  // ---------------------------------------------------------------------------

  lemma EntriesRaced(s: State, i: nat, j: nat)
    requires LogOk(s.log) && i < j < |s.log| && s.log[i].EntryPut? && s.log[j].EntryPut?
    requires s.log[i].uuid == s.log[j].uuid
    ensures s.log[i].login != s.log[j].login
    ensures PassedBefore(s.log, i, s.log[i].login, s.log[i].uuid)
    ensures PassedBefore(s.log, i, s.log[j].login, s.log[j].uuid)
  {
    assert PassedBefore(s.log, j, s.log[j].login, s.log[j].uuid);
    var q :| 0 <= q < j && s.log[q] == Passed(s.log[j].login, s.log[j].uuid);
    assert q < i;
  }

  lemma LostRaceMismatches(s: State, i: nat, j: nat)
    requires Traced(s) && LostRace(s.log, i, j)
    ensures !KeysMatch(s)
  {
    var u, k := s.log[i].uuid, s.log[i].key;
    var m := LastEntryIsLater(s.log, u, j);
    var n :| 0 <= n < |s.log| && s.log[n] == KeyPut(s.log[i].login, u, k);
    assert k in s.keys && s.keys[k].uuid == u && s.uuids[u].pubKey == s.log[m].key;
  }

  lemma MismatchIsLostRace(s: State, k: string) returns (i: nat, j: nat)
    requires LogOk(s.log) && LastOk(s) && k in s.keys && KeyTraced(s, k)
    requires !(s.keys[k].uuid in s.uuids && s.uuids[s.keys[k].uuid].pubKey == k)
    ensures LostRace(s.log, i, j)
  {
    var u := s.keys[k].uuid;
    var t: nat :| EntryPut(t, u, k) in s.log && KeyPut(t, u, k) in s.log;
    i :| 0 <= i < |s.log| && s.log[i] == EntryPut(t, u, k);
    j := LastEntryIsLater(s.log, u, i);
    EntriesRaced(s, i, j);
  }

  /** Over all interleavings, from indices that match: every usable key is the one in its user's entry
      exactly when no race was lost, that is, unless two password logins for one uuid both passed the check
      before either's first put, both made that put, and the one whose entry was replaced also indexed its
      key. */
  lemma KeysMatchIffNoLostRace(uuids: map<string, User>, keys: map<string, User>, steps: seq<Step>, s: State)
    requires Coherent(uuids, keys) && KeysMatch(Init(uuids, keys)) && Run(Init(uuids, keys), steps, s)
    ensures KeysMatch(s) <==> forall i, j :: 0 <= i < j < |s.log| ==> !LostRace(s.log, i, j)
  {
    TracedInit(uuids, keys);
    RunTraced(Init(uuids, keys), steps, s);
    forall i, j | 0 <= i < j < |s.log| && LostRace(s.log, i, j) ensures !KeysMatch(s) {
      LostRaceMismatches(s, i, j);
    }
    if !KeysMatch(s) {
      var k :| k in s.keys && !(s.keys[k].uuid in s.uuids && s.uuids[s.keys[k].uuid].pubKey == k);
      var i, j := MismatchIsLostRace(s, k);
    }
  }

  /** Over all interleavings: whenever two entries were put for one uuid, two different logins raced, both
      having passed the check before the first of the two puts. */
  lemma TwoEntriesMeanARace(uuids: map<string, User>, keys: map<string, User>, steps: seq<Step>, s: State, i: nat, j: nat)
    requires Coherent(uuids, keys) && KeysMatch(Init(uuids, keys)) && Run(Init(uuids, keys), steps, s)
    requires i < j < |s.log| && s.log[i].EntryPut? && s.log[j].EntryPut? && s.log[i].uuid == s.log[j].uuid
    ensures s.log[i].login != s.log[j].login
    ensures PassedBefore(s.log, i, s.log[i].login, s.log[i].uuid)
    ensures PassedBefore(s.log, i, s.log[j].login, s.log[j].uuid)
  {
    TracedInit(uuids, keys);
    RunTraced(Init(uuids, keys), steps, s);
    EntriesRaced(s, i, j);
  }

  /** In particular, when no two logins ever pass the check for one uuid, all keys match. */
  lemma NoRaceNoMismatch(uuids: map<string, User>, keys: map<string, User>, steps: seq<Step>, s: State)
    requires Coherent(uuids, keys) && KeysMatch(Init(uuids, keys)) && Run(Init(uuids, keys), steps, s)
    requires forall p, q ::
               0 <= p < |s.log| && 0 <= q < |s.log| && s.log[p].Passed? && s.log[q].Passed? && s.log[p].uuid == s.log[q].uuid
               ==> s.log[p].login == s.log[q].login
    ensures KeysMatch(s)
  {
    KeysMatchIffNoLostRace(uuids, keys, steps, s);
  }

  /** A race that is lost with nobody stopping: both logins of a new user finish and log in, the indices are
      coherent, and the first login's key stays usable although the user's entry has the second's. */
  lemma RaceHappens(user: User, k1: string, k2: string) returns (steps: seq<Step>, s: State)
    requires k1 != k2
    ensures Run(Init(map[], map[]), steps, s)
    ensures |s.logins| == 2 && forall t :: 0 <= t < 2 ==> s.logins[t].LoggedIn? && s.logins[t].created
    ensures Coherent(s.uuids, s.keys) && !KeysMatch(s)
    ensures k1 in s.keys && s.keys[k1].uuid == user.uuid && s.uuids[user.uuid].pubKey == k2
  {
    var first, second := user.(privKey := "", pubKey := k1), user.(privKey := "", pubKey := k2);
    var checks, s1 := TwoPass(user);
    var creates, s2 := TwoCreate(s1, user, k1, k2);
    var puts0, s3 := PutOne(s2, 0, first);
    var puts1: seq<Step>;
    puts1, s := PutOne(s3, 1, second);
    RunConcat(s2, puts0, s3, puts1, s);
    RunConcat(s1, creates, s2, puts0 + puts1, s);
    RunConcat(Init(map[], map[]), checks, s1, creates + (puts0 + puts1), s);
    steps := checks + (creates + (puts0 + puts1));
    assert k1 in s.keys;
  }

  lemma TwoPass(user: User) returns (steps: seq<Step>, s: State)
    ensures Run(Init(map[], map[]), steps, s)
    ensures s.logins == [Creating(user), Creating(user)] && s.uuids == map[] && s.keys == map[] && s.creator == map[]
  {
    var s0 := Init(map[], map[]);
    var s1 := Apply(s0, Arrive(user));
    var s2 := Apply(s1, Arrive(user));
    var s3 := Apply(s2, Check(0, true));
    s := Apply(s3, Check(1, true));
    steps := [Check(1, true)];
    assert steps[1..] == [] && Run(s3, steps, s);
    steps := ExtendRun(s2, Check(0, true), steps, s);
    steps := ExtendRun(s1, Arrive(user), steps, s);
    steps := ExtendRun(s0, Arrive(user), steps, s);
  }

  lemma TwoCreate(s: State, user: User, k1: string, k2: string) returns (steps: seq<Step>, s': State)
    requires s.logins == [Creating(user), Creating(user)] && s.creator == map[] && k1 != k2
    ensures Run(s, steps, s') && s'.uuids == s.uuids && s'.keys == s.keys
    ensures s'.logins == [PuttingUuid(user.(privKey := "", pubKey := k1)), PuttingUuid(user.(privKey := "", pubKey := k2))]
  {
    var s1 := Apply(s, Create(0, "", k1));
    s' := Apply(s1, Create(1, "", k2));
    steps := [Create(1, "", k2)];
    assert steps[1..] == [] && Run(s1, steps, s');
    steps := ExtendRun(s, Create(0, "", k1), steps, s');
  }

  /** The rival that repairs a stopped login: both logins pass the check, one stops between its puts, and
      the other is still on its way. */
  lemma RivalOnItsWay(user: User, key: string) returns (steps: seq<Step>, s: State)
    ensures Run(Init(map[], map[]), steps, s)
    ensures HaltedEntry(s, user.uuid, 0) && OnItsWay(s, user.uuid)
  {
    var before, s1 := TwoPass(user);
    var s2 := Apply(s1, Create(0, "", key));
    var s3 := Apply(s2, PutUuid(0, Done));
    s := Apply(s3, Stop(0));
    assert s.logins[1] == Creating(user);
    steps := [Stop(0)];
    assert steps[1..] == [] && Run(s3, steps, s);
    steps := ExtendRun(s2, PutUuid(0, Done), steps, s);
    steps := ExtendRun(s1, Create(0, "", key), steps, s);
    RunConcat(Init(map[], map[]), before, s1, steps, s);
    steps := before + steps;
  }
}
