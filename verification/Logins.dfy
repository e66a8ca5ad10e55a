/** Concurrent logins (ssh/server.go:59-112) over the two user indices of the store: uuid to user and
    public key to user. A password login of an unknown user writes the two indices with two separate
    puts; any number of logins interleave at every store access, and each may stop anywhere. */
module Logins {
  import opened StoreTypes
  import W = StoreWrapper

  datatype User = User(username: string, realName: string, email: string, legiNumber: string,
                       gender: string, uuid: string, privKey: string, pubKey: string)

  datatype Login =
    // password login, with what LDAP returned
    | Checking(user: User)       // before UuidExists
    | Creating(user: User)       // before the key pair is made
    | PuttingUuid(user: User)    // before PutDataIdxByUuid
    | PuttingKey(user: User)     // before PutDataIdxByPubKey
    | Halted(user: User)         // stopped, or failed, between the two puts
    | LoggedIn(user: User, created: bool)
    // key login
    | KeyChecking(key: string)
    | KeyLoggedIn(key: string, uuid: string)
    | Refused

  // A put that reports an error may still have been applied.
  datatype PutOutcome = Done | Lost | AppliedButFailed

  // What a login did that the other logins can notice.
  datatype Event =
    | Passed(login: nat, uuid: string)                  // found its uuid unknown
    | EntryPut(login: nat, uuid: string, key: string)   // its first put was applied
    | KeyPut(login: nat, uuid: string, key: string)     // its second put was applied

  /** `creator` remembers, for every key in use, the identity it was made for; `log` what has happened. */
  datatype State = State(uuids: map<string, User>, keys: map<string, User>,
                         creator: map<string, string>, logins: seq<Login>, log: seq<Event>)

  datatype Step =
    | Arrive(user: User) | ArriveKey(key: string)
    | Check(t: nat, ok: bool)
    | Create(t: nat, priv: string, pub: string)
    | PutUuid(t: nat, uuidPut: PutOutcome)
    | PutKey(t: nat, keyPut: PutOutcome)
    | CheckKey(t: nat, found: bool)
    | Stop(t: nat)

  predicate Ended(l: Login) { l.Halted? || l.LoggedIn? || l.KeyLoggedIn? || l.Refused? }

  predicate Enabled(s: State, step: Step) {
    match step
    case Arrive(_) => true
    case ArriveKey(_) => true
    case Check(t, _) => t < |s.logins| && s.logins[t].Checking?
    case Create(t, _, pub) => t < |s.logins| && s.logins[t].Creating? && pub !in s.creator
    case PutUuid(t, _) => t < |s.logins| && s.logins[t].PuttingUuid?
    case PutKey(t, _) => t < |s.logins| && s.logins[t].PuttingKey?
    case CheckKey(t, _) => t < |s.logins| && s.logins[t].KeyChecking?
    case Stop(t) => t < |s.logins| && !Ended(s.logins[t])
  }

  function Move(s: State, t: nat, l: Login): State
    requires t < |s.logins|
  {
    s.(logins := s.logins[t := l])
  }

  function Record(s: State, e: Event): State { s.(log := s.log + [e]) }

  function Apply(s: State, step: Step): State
    requires Enabled(s, step)
  {
    match step
    case Arrive(user) => s.(logins := s.logins + [Checking(user)])
    case ArriveKey(key) => s.(logins := s.logins + [KeyChecking(key)])
    case Check(t, ok) =>
      var user := s.logins[t].user;
      if !ok then Move(s, t, Refused)
      else if user.uuid in s.uuids then Move(s, t, LoggedIn(user, false))
      else Move(Record(s, Passed(t, user.uuid)), t, Creating(user))
    case Create(t, priv, pub) =>
      var user := s.logins[t].user.(privKey := priv, pubKey := pub);
      Move(s.(creator := s.creator[pub := user.uuid]), t, PuttingUuid(user))
    case PutUuid(t, o) =>
      var user := s.logins[t].user;
      var s' := if o.Lost? then s
                else Record(s.(uuids := s.uuids[user.uuid := user]), EntryPut(t, user.uuid, user.pubKey));
      Move(s', t, match o case Done => PuttingKey(user) case Lost => Refused case AppliedButFailed => Halted(user))
    case PutKey(t, o) =>
      var user := s.logins[t].user;
      var s' := if o.Lost? then s
                else Record(s.(keys := s.keys[user.pubKey := user]), KeyPut(t, user.uuid, user.pubKey));
      Move(s', t, match o case Done => LoggedIn(user, true) case Lost => Halted(user) case AppliedButFailed => Refused)
    case CheckKey(t, found) =>
      var key := s.logins[t].key;
      Move(s, t, if found && key in s.keys then KeyLoggedIn(key, s.keys[key].uuid) else Refused)
    case Stop(t) =>
      var l := s.logins[t];
      Move(s, t, if l.PuttingKey? then Halted(l.user) else Refused)
  }

  // ---------------------------------------------------------------------------
  // Invariant
  // ---------------------------------------------------------------------------

  /** Every public-key record names a uuid that has an entry, and the key in every entry is indexed, to that
      uuid. A uuid may still have further keys; LoginRaces says exactly when. */
  predicate Coherent(uuids: map<string, User>, keys: map<string, User>) {
    && (forall k :: k in keys ==> keys[k].uuid in uuids)
    && (forall u :: u in uuids ==> uuids[u].uuid == u && uuids[u].pubKey in keys && keys[uuids[u].pubKey].uuid == u)
  }

  function Init(uuids: map<string, User>, keys: map<string, User>): State {
    State(uuids, keys, map k | k in keys :: keys[k].uuid, [], [])
  }

  /** A login that carries a key pair not yet indexed by public key. */
  predicate Carries(l: Login) { l.PuttingUuid? || l.PuttingKey? || l.Halted? }

  predicate Between(l: Login, key: string) {
    (l.PuttingKey? || l.Halted?) && l.user.pubKey == key
  }

  predicate KeysOk(s: State) {
    forall k :: k in s.keys ==> k in s.creator && s.creator[k] == s.keys[k].uuid && s.keys[k].uuid in s.uuids
  }

  predicate EntryOk(s: State, u: string)
    requires u in s.uuids
  {
    && s.uuids[u].uuid == u && s.uuids[u].pubKey in s.creator && s.creator[s.uuids[u].pubKey] == u
    && (s.uuids[u].pubKey in s.keys || exists t :: 0 <= t < |s.logins| && Between(s.logins[t], s.uuids[u].pubKey))
  }

  predicate UuidsOk(s: State) {
    forall u :: u in s.uuids ==> EntryOk(s, u)
  }

  predicate LoginOk(s: State, l: Login) {
    && (Carries(l) ==>
          l.user.pubKey in s.creator && s.creator[l.user.pubKey] == l.user.uuid && l.user.pubKey !in s.keys)
    && (l.PuttingKey? || l.Halted? ==> l.user.uuid in s.uuids)
    && (l.LoggedIn? && l.created ==> l.user.pubKey in s.keys && s.keys[l.user.pubKey].uuid == l.user.uuid)
    && (l.KeyLoggedIn? ==> l.key in s.keys && s.keys[l.key].uuid == l.uuid)
  }

  predicate LoginsOk(s: State) {
    && (forall t :: 0 <= t < |s.logins| ==> LoginOk(s, s.logins[t]))
    && (forall t, v :: 0 <= t < v < |s.logins| ==>
          (Carries(s.logins[t]) && Carries(s.logins[v]) ==> s.logins[t].user.pubKey != s.logins[v].user.pubKey))
  }

  predicate Inv(s: State) { KeysOk(s) && UuidsOk(s) && LoginsOk(s) }

  lemma InvInit(uuids: map<string, User>, keys: map<string, User>)
    requires Coherent(uuids, keys)
    ensures Inv(Init(uuids, keys))
  {}

  /** Indices and keys in use only grow, and a key's identity never changes. */
  predicate Extends(s: State, s': State) {
    && (forall u :: u in s.uuids ==> u in s'.uuids)
    && (forall k :: k in s.keys ==> k in s'.keys && s'.keys[k].uuid == s.keys[k].uuid)
    && (forall k :: k in s.creator ==> k in s'.creator && s'.creator[k] == s.creator[k])
  }

  lemma StepExtends(s: State, step: Step)
    requires Inv(s) && Enabled(s, step)
    ensures Extends(s, Apply(s, step))
  {
    if step.PutKey? {
      assert LoginOk(s, s.logins[step.t]);
    }
  }

  /** The login a step moves; arrivals append one instead. */
  function Mover(step: Step): int {
    match step
    case Arrive(_) => -1
    case ArriveKey(_) => -1
    case Check(t, _) => t
    case Create(t, _, _) => t
    case PutUuid(t, _) => t
    case PutKey(t, _) => t
    case CheckKey(t, _) => t
    case Stop(t) => t
  }

  lemma OthersStay(s: State, step: Step)
    requires Enabled(s, step)
    ensures var s' := Apply(s, step);
            && |s.logins| <= |s'.logins|
            && (forall v :: 0 <= v < |s.logins| && v != Mover(step) ==> s'.logins[v] == s.logins[v])
            && (forall v :: |s.logins| <= v < |s'.logins| ==> s'.logins[v].Checking? || s'.logins[v].KeyChecking?)
            && (Mover(step) >= 0 ==> |s'.logins| == |s.logins| > Mover(step))
  {}

  lemma PutUuidMover(s: State, step: Step)
    requires LoginsOk(s) && Enabled(s, step) && step.PutUuid?
    ensures LoginOk(Apply(s, step), Apply(s, step).logins[step.t])
  {
    assert LoginOk(s, s.logins[step.t]);
  }

  lemma PutKeyMover(s: State, step: Step)
    requires LoginsOk(s) && Enabled(s, step) && step.PutKey?
    ensures LoginOk(Apply(s, step), Apply(s, step).logins[step.t])
  {
    assert LoginOk(s, s.logins[step.t]);
  }

  lemma CreateMover(s: State, step: Step)
    requires KeysOk(s) && Enabled(s, step) && step.Create?
    ensures LoginOk(Apply(s, step), Apply(s, step).logins[step.t])
  {}

  lemma MoverOk(s: State, step: Step)
    requires Inv(s) && Enabled(s, step) && Mover(step) >= 0
    ensures LoginOk(Apply(s, step), Apply(s, step).logins[Mover(step)])
  {
    match step
    case Create(_, _, _) => CreateMover(s, step);
    case PutUuid(_, _) => PutUuidMover(s, step);
    case PutKey(_, _) => PutKeyMover(s, step);
    case _ => QuietMover(s, step);
  }

  // A step that writes neither index.
  lemma QuietMover(s: State, step: Step)
    requires LoginsOk(s) && Enabled(s, step) && Mover(step) >= 0
    requires !step.Create? && !step.PutUuid? && !step.PutKey?
    ensures LoginOk(Apply(s, step), Apply(s, step).logins[Mover(step)])
  {
    assert LoginOk(s, s.logins[Mover(step)]);
  }

  lemma MoverCarries(s: State, step: Step)
    requires Enabled(s, step) && Mover(step) >= 0
    ensures Carries(Apply(s, step).logins[Mover(step)]) ==>
              step.Create? || (Carries(s.logins[Mover(step)])
                               && Apply(s, step).logins[Mover(step)].user == s.logins[Mover(step)].user)
  {}

  lemma BystanderOk(s: State, step: Step, v: nat)
    requires Inv(s) && Enabled(s, step) && v < |s.logins| && v != Mover(step)
    ensures LoginOk(Apply(s, step), s.logins[v])
  {
    StepExtends(s, step);
    assert LoginOk(s, s.logins[v]);
    if step.PutKey? {
      assert LoginOk(s, s.logins[step.t]);
      assert Carries(s.logins[v]) ==> s.logins[v].user.pubKey != s.logins[step.t].user.pubKey by {
        if v < step.t { assert Carries(s.logins[step.t]); } else { assert Carries(s.logins[step.t]); }
      }
    }
  }

  lemma CarriedKeysDiffer(s: State, step: Step, t: nat, v: nat)
    requires Inv(s) && Enabled(s, step) && t < v < |Apply(s, step).logins|
    requires Carries(Apply(s, step).logins[t]) && Carries(Apply(s, step).logins[v])
    ensures Apply(s, step).logins[t].user.pubKey != Apply(s, step).logins[v].user.pubKey
  {
    OthersStay(s, step);
    if Mover(step) >= 0 { MoverCarries(s, step); }
    assert LoginOk(s, s.logins[t]) && LoginOk(s, s.logins[v]);
  }

  lemma StepLogins(s: State, step: Step)
    requires Inv(s) && Enabled(s, step)
    ensures LoginsOk(Apply(s, step))
  {
    var s' := Apply(s, step);
    OthersStay(s, step);
    forall t | 0 <= t < |s'.logins| ensures LoginOk(s', s'.logins[t]) {
      if t == Mover(step) {
        MoverOk(s, step);
      } else if t < |s.logins| {
        BystanderOk(s, step, t);
      }
    }
    forall t, v | 0 <= t < v < |s'.logins| && Carries(s'.logins[t]) && Carries(s'.logins[v])
      ensures s'.logins[t].user.pubKey != s'.logins[v].user.pubKey
    {
      CarriedKeysDiffer(s, step, t, v);
    }
  }

  lemma StepKeys(s: State, step: Step)
    requires Inv(s) && Enabled(s, step)
    ensures KeysOk(Apply(s, step))
  {
    StepExtends(s, step);
    if step.PutKey? {
      assert LoginOk(s, s.logins[step.t]);
    }
  }

  lemma NewEntryOk(s: State, step: Step)
    requires Inv(s) && Enabled(s, step) && step.PutUuid? && !step.uuidPut.Lost?
    ensures EntryOk(Apply(s, step), s.logins[step.t].user.uuid)
  {
    assert LoginOk(s, s.logins[step.t]);
    assert Between(Apply(s, step).logins[step.t], s.logins[step.t].user.pubKey);
  }

  lemma OldEntryOk(s: State, step: Step, u: string)
    requires Inv(s) && Enabled(s, step) && u in s.uuids
    requires u in Apply(s, step).uuids && Apply(s, step).uuids[u] == s.uuids[u]
    ensures EntryOk(Apply(s, step), u)
  {
    var s' := Apply(s, step);
    StepExtends(s, step);
    OthersStay(s, step);
    var key := s.uuids[u].pubKey;
    if key !in s'.keys {
      var t :| 0 <= t < |s.logins| && Between(s.logins[t], key);
      BetweenStays(s, step, t, key);
    }
  }

  lemma BetweenStays(s: State, step: Step, t: nat, key: string)
    requires Enabled(s, step) && t < |s.logins| && Between(s.logins[t], key) && key !in Apply(s, step).keys
    ensures t < |Apply(s, step).logins| && Between(Apply(s, step).logins[t], key)
  {
    OthersStay(s, step);
    if t == Mover(step) {
      match step
      case PutKey(_, o) => assert o.Lost?;
      case _ =>
    }
  }

  lemma StepUuids(s: State, step: Step)
    requires Inv(s) && Enabled(s, step)
    ensures UuidsOk(Apply(s, step))
  {
    var s' := Apply(s, step);
    forall u | u in s'.uuids ensures EntryOk(s', u) {
      if step.PutUuid? && u == s.logins[step.t].user.uuid && !step.uuidPut.Lost? {
        NewEntryOk(s, step);
      } else {
        OldEntryOk(s, step, u);
      }
    }
  }

  lemma InvStep(s: State, step: Step)
    requires Inv(s) && Enabled(s, step)
    ensures Inv(Apply(s, step)) && Extends(s, Apply(s, step))
  {
    StepExtends(s, step);
    StepKeys(s, step);
    StepUuids(s, step);
    StepLogins(s, step);
  }

  // ---------------------------------------------------------------------------
  // Theorems over all runs
  // ---------------------------------------------------------------------------

  predicate Run(s: State, steps: seq<Step>, s': State)
    decreases steps
  {
    if steps == [] then s == s' else Enabled(s, steps[0]) && Run(Apply(s, steps[0]), steps[1..], s')
  }

  ghost predicate Reachable(s: State) {
    exists uuids, keys, steps :: Coherent(uuids, keys) && Run(Init(uuids, keys), steps, s)
  }

  lemma {:induction false} RunKeepsInv(s: State, steps: seq<Step>, s': State)
    requires Inv(s) && Run(s, steps, s')
    ensures Inv(s') && Extends(s, s')
    decreases steps
  {
    if steps != [] {
      InvStep(s, steps[0]);
      RunKeepsInv(Apply(s, steps[0]), steps[1..], s');
    }
  }

  lemma ReachableInv(s: State)
    requires Reachable(s)
    ensures Inv(s)
  {
    var uuids, keys, steps :| Coherent(uuids, keys) && Run(Init(uuids, keys), steps, s);
    InvInit(uuids, keys);
    RunKeepsInv(Init(uuids, keys), steps, s);
  }

  /** Over all interleavings: every public-key record names a uuid that has an entry, and a uuid entry's
      key is indexed, to that same uuid, exactly when no login is or stopped between the two puts with
      that key. */
  lemma IndicesCoherentUnlessHalted(s: State)
    requires Reachable(s)
    ensures forall k :: k in s.keys ==> s.keys[k].uuid in s.uuids
    ensures forall u :: u in s.uuids ==>
              s.uuids[u].uuid == u
              && (s.uuids[u].pubKey in s.keys ==> s.keys[s.uuids[u].pubKey].uuid == u)
              && (s.uuids[u].pubKey in s.keys <==>
                    !exists t :: 0 <= t < |s.logins| && Between(s.logins[t], s.uuids[u].pubKey))
  {
    ReachableInv(s);
    forall u | u in s.uuids
      ensures s.uuids[u].pubKey in s.keys <==>
                !exists t :: 0 <= t < |s.logins| && Between(s.logins[t], s.uuids[u].pubKey)
    {
      assert EntryOk(s, u);
      forall t | 0 <= t < |s.logins| && Between(s.logins[t], s.uuids[u].pubKey)
        ensures s.uuids[u].pubKey !in s.keys
      {
        assert LoginOk(s, s.logins[t]);
      }
    }
  }

  /** When every login has run to its end and none stopped between the puts, every key record names an
      existing uuid and every entry's own key is usable. */
  lemma FinishedLoginsAreCoherent(s: State)
    requires Reachable(s)
    requires forall t :: 0 <= t < |s.logins| ==> !s.logins[t].PuttingKey? && !s.logins[t].Halted?
    ensures Coherent(s.uuids, s.keys)
  {
    IndicesCoherentUnlessHalted(s);
  }

  /** The identity behind a key never changes: key logins with one key, at any two moments of a run,
      return the same uuid, and it is that of the password login that created the key. */
  lemma KeyLoginYieldsCreator(s: State, steps: seq<Step>, s': State, t: nat, v: nat)
    requires Reachable(s) && Run(s, steps, s')
    requires t < |s.logins| && v < |s'.logins|
    ensures s.logins[t].KeyLoggedIn? && s'.logins[v].KeyLoggedIn? && s.logins[t].key == s'.logins[v].key ==>
              s.logins[t].uuid == s'.logins[v].uuid
    ensures (s.logins[t].LoggedIn? && s.logins[t].created && s'.logins[v].KeyLoggedIn?
             && s.logins[t].user.pubKey == s'.logins[v].key) ==> s'.logins[v].uuid == s.logins[t].user.uuid
  {
    ReachableInv(s);
    RunKeepsInv(s, steps, s');
    assert LoginOk(s, s.logins[t]) && LoginOk(s', s'.logins[v]);
  }

  // ---------------------------------------------------------------------------
  // A login that stops between the puts leaves its user without a usable key: for good, unless a rival is
  // on its way
  // ---------------------------------------------------------------------------

  /** The entry of u has the key of login t, which stopped between its two puts. */
  predicate HaltedEntry(s: State, u: string, t: nat) {
    t < |s.logins| && s.logins[t].Halted? && u in s.uuids && s.uuids[u].pubKey == s.logins[t].user.pubKey
  }

  predicate Replaces(l: Login, u: string) { (l.Creating? || l.PuttingUuid?) && l.user.uuid == u }

  /** Some login for u has passed the check and not yet made its first put. */
  predicate OnItsWay(s: State, u: string) {
    exists v :: 0 <= v < |s.logins| && Replaces(s.logins[v], u)
  }

  predicate Stuck(s: State, u: string, t: nat) { HaltedEntry(s, u, t) && !OnItsWay(s, u) }

  /** In every continuation the key in the entry of u is unusable. */
  ghost predicate NeverIndexed(s: State, u: string) {
    forall steps: seq<Step>, s': State :: Run(s, steps, s') ==> u in s'.uuids && s'.uuids[u].pubKey !in s'.keys
  }

  /** With no rival on its way, every later state has the same entry, still unindexed, even though
      returning users keep logging in with a password. */
  lemma {:induction false} HaltedIsNeverRepaired(s: State, u: string, t: nat, steps: seq<Step>, s': State)
    requires Inv(s) && Stuck(s, u, t) && Run(s, steps, s')
    ensures Stuck(s', u, t) && s'.uuids[u] == s.uuids[u] && s'.uuids[u].pubKey !in s'.keys
    decreases steps
  {
    assert LoginOk(s, s.logins[t]);
    if steps != [] {
      InvStep(s, steps[0]);
      StaysStuck(s, u, t, steps[0]);
      HaltedIsNeverRepaired(Apply(s, steps[0]), u, t, steps[1..], s');
    }
  }

  lemma LongerThanAll(keys: set<string>) returns (n: nat)
    ensures forall k :: k in keys ==> |k| < n
    decreases keys
  {
    if keys == {} {
      n := 0;
    } else {
      var k :| k in keys;
      n := LongerThanAll(keys - {k});
      n := if n <= |k| then |k| + 1 else n;
    }
  }

  lemma FreshKey(keys: set<string>) returns (key: string)
    ensures key !in keys
  {
    var n := LongerThanAll(keys);
    key := seq(n, _ => 'k');
  }

  /** A login makes its two puts. */
  lemma PutOne(s: State, t: nat, user: User) returns (steps: seq<Step>, s': State)
    requires t < |s.logins| && s.logins[t] == PuttingUuid(user)
    ensures Run(s, steps, s') && s'.logins == s.logins[t := LoggedIn(user, true)]
    ensures s'.uuids == s.uuids[user.uuid := user] && s'.keys == s.keys[user.pubKey := user]
  {
    var s1 := Apply(s, PutUuid(t, Done));
    s' := Apply(s1, PutKey(t, Done));
    steps := [PutKey(t, Done)];
    assert steps[1..] == [] && Run(s1, steps, s');
    steps := ExtendRun(s, PutUuid(t, Done), steps, s');
  }

  lemma {:induction false} RunConcat(s: State, steps: seq<Step>, mid: State, more: seq<Step>, s': State)
    requires Run(s, steps, mid) && Run(mid, more, s')
    ensures Run(s, steps + more, s')
    decreases steps
  {
    if steps == [] {
      assert steps + more == more;
    } else {
      RunConcat(Apply(s, steps[0]), steps[1..], mid, more, s');
      assert (steps + more)[1..] == steps[1..] + more;
    }
  }

  /** A rival on its way can still give the user a usable key. */
  lemma RivalRepairs(s: State, u: string) returns (steps: seq<Step>, s': State)
    requires OnItsWay(s, u)
    ensures Run(s, steps, s') && u in s'.uuids && s'.uuids[u].pubKey in s'.keys
  {
    var v :| 0 <= v < |s.logins| && Replaces(s.logins[v], u);
    var user := s.logins[v].user;
    if s.logins[v].PuttingUuid? {
      steps, s' := PutOne(s, v, user);
    } else {
      var key := FreshKey(s.creator.Keys);
      var s1 := Apply(s, Create(v, "", key));
      steps, s' := PutOne(s1, v, user.(privKey := "", pubKey := key));
      steps := ExtendRun(s, Create(v, "", key), steps, s');
    }
  }

  /** Exactly when a login that stopped between its puts leaves its user without a usable key for good: when
      no other login for that user has passed the check and not yet made its first put. */
  lemma HaltedForGoodIff(s: State, u: string, t: nat)
    requires Reachable(s) && HaltedEntry(s, u, t)
    ensures NeverIndexed(s, u) <==> !OnItsWay(s, u)
  {
    ReachableInv(s);
    if OnItsWay(s, u) {
      var steps, s' := RivalRepairs(s, u);
    } else {
      forall steps: seq<Step>, s': State | Run(s, steps, s')
        ensures u in s'.uuids && s'.uuids[u].pubKey !in s'.keys
      {
        HaltedIsNeverRepaired(s, u, t, steps, s');
      }
    }
  }

  lemma StaysStuck(s: State, u: string, t: nat, step: Step)
    requires Stuck(s, u, t) && Enabled(s, step)
    ensures Stuck(Apply(s, step), u, t) && Apply(s, step).uuids[u] == s.uuids[u]
  {
    var s' := Apply(s, step);
    OthersStay(s, step);
    StuckEntryStays(s, u, t, step);
    if Mover(step) >= 0 {
      StuckMover(s, u, t, step);
    }
    forall v | 0 <= v < |s'.logins| ensures !Replaces(s'.logins[v], u) {
      if v < |s.logins| && v != Mover(step) {
        assert !Replaces(s.logins[v], u);
      }
    }
  }

  lemma StuckEntryStays(s: State, u: string, t: nat, step: Step)
    requires Stuck(s, u, t) && Enabled(s, step)
    ensures u in Apply(s, step).uuids && Apply(s, step).uuids[u] == s.uuids[u]
  {
    if step.PutUuid? { assert !Replaces(s.logins[step.t], u); }
  }

  lemma StuckMover(s: State, u: string, t: nat, step: Step)
    requires Stuck(s, u, t) && Enabled(s, step) && Mover(step) >= 0
    ensures !Replaces(Apply(s, step).logins[Mover(step)], u)
    ensures Mover(step) != t
  {
    assert !Replaces(s.logins[Mover(step)], u);
  }

  /** It does happen: one login, stopped after its first put. */
  lemma HaltedHappens(user: User, priv: string, pub: string) returns (steps: seq<Step>, s: State)
    ensures Run(Init(map[], map[]), steps, s) && Stuck(s, user.uuid, 0)
  {
    var s0 := Init(map[], map[]);
    var s1 := Apply(s0, Arrive(user));
    var s2 := Apply(s1, Check(0, true));
    var s3 := Apply(s2, Create(0, priv, pub));
    var s4 := Apply(s3, PutUuid(0, Done));
    s := Apply(s4, Stop(0));
    steps := [Stop(0)];
    assert steps[1..] == [] && Run(s4, steps, s);
    steps := ExtendRun(s3, PutUuid(0, Done), steps, s);
    steps := ExtendRun(s2, Create(0, priv, pub), steps, s);
    steps := ExtendRun(s1, Check(0, true), steps, s);
    steps := ExtendRun(s0, Arrive(user), steps, s);
  }

  lemma ExtendRun(s: State, step: Step, steps: seq<Step>, s': State) returns (longer: seq<Step>)
    requires Enabled(s, step) && Run(Apply(s, step), steps, s')
    ensures Run(s, longer, s')
  {
    longer := [step] + steps;
    assert longer[1..] == steps;
  }

  // ---------------------------------------------------------------------------
  // The indices as they lie in the key-value store
  // ---------------------------------------------------------------------------

  /** The store holds the two indices under their prefixes. */
  ghost predicate Stored(m: map<Key, Value>, c: W.Codec<User>, s: State) {
    W.Holds(m, W.UUID_PREFIX, c, s.uuids) && W.Holds(m, W.PUBLIC_KEY_PREFIX, c, s.keys)
  }

  /** A login step's put into the key-value store is its put into the index. */
  lemma PutsKeepStored(m: map<Key, Value>, c: W.Codec<User>, s: State, step: Step)
    requires Stored(m, c, s) && Enabled(s, step)
    ensures step.PutUuid? && !step.uuidPut.Lost? ==>
              Stored(m[W.KeyOf(W.Uuid(s.logins[step.t].user.uuid)) := c.encode(s.logins[step.t].user)], c, Apply(s, step))
    ensures step.PutKey? && !step.keyPut.Lost? ==>
              Stored(m[W.KeyOf(W.PublicKey(s.logins[step.t].user.pubKey)) := c.encode(s.logins[step.t].user)], c, Apply(s, step))
    ensures !step.PutUuid? && !step.PutKey? ==> Stored(m, c, Apply(s, step))
  {
    if step.PutUuid? {
      var user := s.logins[step.t].user;
      W.PrefixSelects(W.Uuid(user.uuid));
      W.HoldsAfterPut(m, W.UUID_PREFIX, c, s.uuids, user.uuid, user);
      W.HoldsAfterOther(m, W.PUBLIC_KEY_PREFIX, c, s.keys, W.KeyOf(W.Uuid(user.uuid)), c.encode(user));
    } else if step.PutKey? {
      var user := s.logins[step.t].user;
      W.PrefixSelects(W.PublicKey(user.pubKey));
      W.HoldsAfterPut(m, W.PUBLIC_KEY_PREFIX, c, s.keys, user.pubKey, user);
      W.HoldsAfterOther(m, W.UUID_PREFIX, c, s.uuids, W.KeyOf(W.PublicKey(user.pubKey)), c.encode(user));
    }
  }
}
