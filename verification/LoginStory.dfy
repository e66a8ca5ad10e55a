/** How logins end (ssh/server.go:59-112), told by the steps of a run and the indices at its beginning: who is
    let in, with which key pair, and what is written. */
module LoginStory {
  import opened Common
  import opened Logins

  // ---------------------------------------------------------------------------
  // What the steps say
  // ---------------------------------------------------------------------------

  predicate IsArrival(s: Step) { s.Arrive? || s.ArriveKey? }

  function Arrived(steps: seq<Step>): nat {
    if steps == [] then 0
    else Arrived(steps[..|steps| - 1]) + if IsArrival(steps[|steps| - 1]) then 1 else 0
  }

  datatype Visitor = Nobody | WithPassword(user: User) | WithKey(key: string)

  /** Login t's visitor: what LDAP returned for the user, with the key pair of the login's own Create step once
      there is one; or the key offered. */
  function VisitorOf(steps: seq<Step>, t: nat): Visitor {
    if steps == [] then Nobody
    else
      var front, last := steps[..|steps| - 1], steps[|steps| - 1];
      var before := VisitorOf(front, t);
      match last
      case Arrive(user) => if t == Arrived(front) then WithPassword(user) else before
      case ArriveKey(key) => if t == Arrived(front) then WithKey(key) else before
      case Create(v, priv, pub) =>
        if v == t && before.WithPassword? then WithPassword(before.user.(privKey := priv, pubKey := pub)) else before
      case _ => before
  }

  /** The uuid index: every first put that was applied writes its visitor's record under the visitor's uuid. */
  function UuidsAfter(uuids: map<string, User>, steps: seq<Step>): map<string, User> {
    if steps == [] then uuids
    else
      var front, last := steps[..|steps| - 1], steps[|steps| - 1];
      var before := UuidsAfter(uuids, front);
      if last.PutUuid? && !last.uuidPut.Lost? && VisitorOf(front, last.t).WithPassword? then
        var user := VisitorOf(front, last.t).user;
        before[user.uuid := user]
      else before
  }

  /** The public-key index: every second put that was applied writes the same record under its public key. */
  function KeysAfter(keys: map<string, User>, steps: seq<Step>): map<string, User> {
    if steps == [] then keys
    else
      var front, last := steps[..|steps| - 1], steps[|steps| - 1];
      var before := KeysAfter(keys, front);
      if last.PutKey? && !last.keyPut.Lost? && VisitorOf(front, last.t).WithPassword? then
        var user := VisitorOf(front, last.t).user;
        before[user.pubKey := user]
      else before
  }

  // What one login has met so far.
  datatype Fact =
    | Checked(ok: bool, known: bool)                      // known: the uuid had an entry at that moment
    | Created(priv: string, pub: string)
    | FirstPut(outcome: PutOutcome)
    | SecondPut(outcome: PutOutcome)
    | KeyChecked(found: bool, indexed: Option<string>)    // indexed: the uuid of the key's record at that moment
    | StoppedThere

  /** The facts of login t, from its own steps and the indices at each of them. */
  function FactsOf(uuids: map<string, User>, keys: map<string, User>, steps: seq<Step>, t: nat): seq<Fact> {
    if steps == [] then []
    else
      var front, last := steps[..|steps| - 1], steps[|steps| - 1];
      FactsOf(uuids, keys, front, t)
      + if Mover(last) != t then []
        else FactIn(UuidsAfter(uuids, front), KeysAfter(keys, front), last, VisitorOf(front, t))
  }

  function FactIn(uuids: map<string, User>, keys: map<string, User>, step: Step, visitor: Visitor): seq<Fact> {
    match step
    case Check(_, ok) => [Checked(ok, visitor.WithPassword? && visitor.user.uuid in uuids)]
    case Create(_, priv, pub) => [Created(priv, pub)]
    case PutUuid(_, o) => [FirstPut(o)]
    case PutKey(_, o) => [SecondPut(o)]
    case CheckKey(_, found) =>
      [KeyChecked(found, if visitor.WithKey? && visitor.key in keys then Some(keys[visitor.key].uuid) else None)]
    case Stop(_) => [StoppedThere]
    case _ => []
  }

  // ---------------------------------------------------------------------------
  // Where a login is, by its facts
  // ---------------------------------------------------------------------------

  // The facts of a password login on the path to its own key pair.
  predicate ToCreate(facts: seq<Fact>) { facts == [Checked(true, false)] }

  predicate ToFirstPut(facts: seq<Fact>) {
    |facts| == 2 && facts[0] == Checked(true, false) && facts[1].Created?
  }

  predicate ToSecondPut(facts: seq<Fact>) {
    |facts| == 3 && ToFirstPut(facts[..2]) && facts[2] == FirstPut(Done)
  }

  predicate ToEnd(facts: seq<Fact>) {
    |facts| == 4 && ToSecondPut(facts[..3]) && facts[3] == SecondPut(Done)
  }

  /** Stopped, or failed, after the first put may have been applied and before the second was known to be. */
  predicate StoppedBetween(facts: seq<Fact>) {
    || (|facts| == 3 && ToFirstPut(facts[..2]) && facts[2] == FirstPut(AppliedButFailed))
    || (|facts| == 4 && ToSecondPut(facts[..3]) && (facts[3] == SecondPut(Lost) || facts[3] == StoppedThere))
  }

  /** The last thing the login met was a failure that sends the visitor away with nothing half done: the check
      failed; a put reported an error after nothing or everything was written; the key is not indexed; or the
      login stopped outside the two puts. */
  predicate TurnedAway(facts: seq<Fact>) {
    facts != [] &&
    match facts[|facts| - 1]
    case Checked(ok, _) => !ok
    case Created(_, _) => false
    case FirstPut(o) => o.Lost?
    case SecondPut(o) => o.AppliedButFailed?
    case KeyChecked(found, indexed) => !found || indexed.None?
    case StoppedThere => |facts| <= 3
  }

  predicate LoginIs(l: Login, visitor: Visitor, facts: seq<Fact>) {
    match l
    case Checking(user) => visitor == WithPassword(user) && facts == []
    case Creating(user) => visitor == WithPassword(user) && ToCreate(facts)
    case PuttingUuid(user) => visitor == WithPassword(user) && ToFirstPut(facts) && HasPair(user, facts)
    case PuttingKey(user) => visitor == WithPassword(user) && ToSecondPut(facts) && HasPair(user, facts)
    case Halted(user) => visitor == WithPassword(user) && StoppedBetween(facts) && HasPair(user, facts)
    case LoggedIn(user, created) =>
      visitor == WithPassword(user) && if created then ToEnd(facts) && HasPair(user, facts) else facts == [Checked(true, true)]
    case KeyChecking(key) => visitor == WithKey(key) && facts == []
    case KeyLoggedIn(key, uuid) => visitor == WithKey(key) && facts == [KeyChecked(true, Some(uuid))]
    case Refused => !visitor.Nobody? && TurnedAway(facts)
  }

  predicate HasPair(user: User, facts: seq<Fact>) {
    |facts| >= 2 && facts[1] == Created(user.privKey, user.pubKey)
  }

  /** The indices and the logins are what the steps say. */
  predicate Told(uuids: map<string, User>, keys: map<string, User>, steps: seq<Step>, s: State) {
    && s.uuids == UuidsAfter(uuids, steps) && s.keys == KeysAfter(keys, steps) && |s.logins| == Arrived(steps)
    && forall t :: 0 <= t < |s.logins| ==> LoginIs(s.logins[t], VisitorOf(steps, t), FactsOf(uuids, keys, steps, t))
  }

  // ---------------------------------------------------------------------------
  // Every step keeps it
  // ---------------------------------------------------------------------------

  /** The visitor after a step of its own. */
  function VisitorNow(visitor: Visitor, step: Step): Visitor {
    if step.Create? && visitor.WithPassword?
    then WithPassword(visitor.user.(privKey := step.priv, pubKey := step.pub)) else visitor
  }

  /** The mover is where its facts, now one more, put it. */
  predicate MoverIs(s: State, step: Step, visitor: Visitor, facts: seq<Fact>)
    requires Enabled(s, step) && Mover(step) >= 0
  {
    LoginIs(Apply(s, step).logins[Mover(step)], VisitorNow(visitor, step), facts + FactIn(s.uuids, s.keys, step, visitor))
  }

  lemma CheckerIs(s: State, step: Step, visitor: Visitor, facts: seq<Fact>)
    requires Enabled(s, step) && (step.Check? || step.CheckKey?) && LoginIs(s.logins[step.t], visitor, facts)
    ensures MoverIs(s, step, visitor, facts)
  {
    assert facts + FactIn(s.uuids, s.keys, step, visitor) == FactIn(s.uuids, s.keys, step, visitor);
  }

  lemma CreatorIs(s: State, step: Step, visitor: Visitor, facts: seq<Fact>)
    requires Enabled(s, step) && step.Create? && LoginIs(s.logins[step.t], visitor, facts)
    ensures MoverIs(s, step, visitor, facts)
  {}

  lemma FirstPutterIs(s: State, step: Step, visitor: Visitor, facts: seq<Fact>)
    requires Enabled(s, step) && step.PutUuid? && LoginIs(s.logins[step.t], visitor, facts)
    ensures MoverIs(s, step, visitor, facts)
  {
    assert (facts + [FirstPut(step.uuidPut)])[..2] == facts;
  }

  lemma SecondPutterIs(s: State, step: Step, visitor: Visitor, facts: seq<Fact>)
    requires Enabled(s, step) && step.PutKey? && LoginIs(s.logins[step.t], visitor, facts)
    ensures MoverIs(s, step, visitor, facts)
  {
    assert (facts + [SecondPut(step.keyPut)])[..3] == facts;
  }

  lemma StopperIs(s: State, step: Step, visitor: Visitor, facts: seq<Fact>)
    requires Enabled(s, step) && step.Stop? && LoginIs(s.logins[step.t], visitor, facts)
    ensures MoverIs(s, step, visitor, facts)
  {
    assert (facts + [StoppedThere])[..|facts|] == facts;
  }

  lemma MoverStep(s: State, step: Step, visitor: Visitor, facts: seq<Fact>)
    requires Enabled(s, step) && Mover(step) >= 0 && LoginIs(s.logins[Mover(step)], visitor, facts)
    ensures MoverIs(s, step, visitor, facts)
  {
    match step
    case Check(_, _) => CheckerIs(s, step, visitor, facts);
    case CheckKey(_, _) => CheckerIs(s, step, visitor, facts);
    case Create(_, _, _) => CreatorIs(s, step, visitor, facts);
    case PutUuid(_, _) => FirstPutterIs(s, step, visitor, facts);
    case PutKey(_, _) => SecondPutterIs(s, step, visitor, facts);
    case Stop(_) => StopperIs(s, step, visitor, facts);
    case _ =>
  }

  lemma StepsSnoc(uuids: map<string, User>, keys: map<string, User>, front: seq<Step>, step: Step, t: nat)
    ensures var steps := front + [step];
            && FactsOf(uuids, keys, steps, t) ==
                 FactsOf(uuids, keys, front, t)
                 + (if Mover(step) != t then []
                    else FactIn(UuidsAfter(uuids, front), KeysAfter(keys, front), step, VisitorOf(front, t)))
            && Arrived(steps) == Arrived(front) + (if IsArrival(step) then 1 else 0)
    ensures VisitorOf(front + [step], t) ==
            match step
            case Arrive(user) => if t == Arrived(front) then WithPassword(user) else VisitorOf(front, t)
            case ArriveKey(key) => if t == Arrived(front) then WithKey(key) else VisitorOf(front, t)
            case Create(v, priv, pub) =>
              if v == t && VisitorOf(front, t).WithPassword?
              then WithPassword(VisitorOf(front, t).user.(privKey := priv, pubKey := pub)) else VisitorOf(front, t)
            case _ => VisitorOf(front, t)
  {
    assert (front + [step])[..|front|] == front;
  }

  lemma {:induction false} NobodyYet(uuids: map<string, User>, keys: map<string, User>, steps: seq<Step>, s: State, s0: State, t: nat)
    requires Run(s0, steps, s) && s0.logins == [] && |s.logins| <= t
    ensures FactsOf(uuids, keys, steps, t) == [] && VisitorOf(steps, t) == Nobody && |s.logins| == Arrived(steps)
    decreases steps
  {
    if steps != [] {
      var mid := SplitLast(s0, steps, s);
      var front, step := steps[..|steps| - 1], steps[|steps| - 1];
      assert steps == front + [step];
      OthersStay(mid, step);
      NobodyYet(uuids, keys, front, mid, s0, t);
      StepsSnoc(uuids, keys, front, step, t);
      MovedOrArrived(mid, step);
    }
  }

  lemma MovedOrArrived(s: State, step: Step)
    requires Enabled(s, step)
    ensures |Apply(s, step).logins| == |s.logins| + if IsArrival(step) then 1 else 0
    ensures IsArrival(step) <==> Mover(step) < 0
    ensures step.Arrive? ==> Apply(s, step).logins[|s.logins|] == Checking(step.user)
    ensures step.ArriveKey? ==> Apply(s, step).logins[|s.logins|] == KeyChecking(step.key)
  {}

  lemma {:induction false} SplitLast(s: State, steps: seq<Step>, s': State) returns (mid: State)
    requires steps != [] && Run(s, steps, s')
    ensures var n := |steps| - 1; Run(s, steps[..n], mid) && Enabled(mid, steps[n]) && Apply(mid, steps[n]) == s'
    decreases steps
  {
    var n := |steps| - 1;
    if n == 0 {
      mid := s;
    } else {
      var rest := steps[1..];
      mid := SplitLast(Apply(s, steps[0]), rest, s');
      assert steps[..n][0] == steps[0] && steps[..n][1..] == rest[..n - 1] && rest[n - 1] == steps[n];
    }
  }

  lemma LoginStep(uuids: map<string, User>, keys: map<string, User>, front: seq<Step>, s: State, step: Step, t: nat)
    requires Told(uuids, keys, front, s) && Enabled(s, step) && t < |Apply(s, step).logins|
    requires t >= |s.logins| ==> FactsOf(uuids, keys, front, t) == []
    ensures LoginIs(Apply(s, step).logins[t], VisitorOf(front + [step], t), FactsOf(uuids, keys, front + [step], t))
  {
    StepsSnoc(uuids, keys, front, step, t);
    OthersStay(s, step);
    MovedOrArrived(s, step);
    var visitor, facts := VisitorOf(front, t), FactsOf(uuids, keys, front, t);
    if t == Mover(step) {
      assert LoginIs(s.logins[t], visitor, facts);
      MoverStep(s, step, visitor, facts);
    } else {
      assert facts + [] == facts;
      if t < |s.logins| {
        assert LoginIs(s.logins[t], visitor, facts);
      }
    }
  }

  lemma IndicesStep(uuids: map<string, User>, keys: map<string, User>, front: seq<Step>, s: State, step: Step)
    requires Told(uuids, keys, front, s) && Enabled(s, step)
    ensures Apply(s, step).uuids == UuidsAfter(uuids, front + [step])
    ensures Apply(s, step).keys == KeysAfter(keys, front + [step])
  {
    assert (front + [step])[..|front|] == front;
    if step.PutUuid? || step.PutKey? {
      assert LoginIs(s.logins[step.t], VisitorOf(front, step.t), FactsOf(uuids, keys, front, step.t));
    }
  }

  /** Over every run, from any indices: the indices are the beginning ones with every applied put written, each
      with its visitor's record; and each login is where its own facts put it. */
  lemma {:induction false} StepsTellAll(uuids: map<string, User>, keys: map<string, User>, steps: seq<Step>, s: State)
    requires Run(Init(uuids, keys), steps, s)
    ensures Told(uuids, keys, steps, s)
    decreases steps
  {
    if steps != [] {
      var mid := SplitLast(Init(uuids, keys), steps, s);
      var front, step := steps[..|steps| - 1], steps[|steps| - 1];
      assert steps == front + [step];
      StepsTellAll(uuids, keys, front, mid);
      IndicesStep(uuids, keys, front, mid, step);
      MovedOrArrived(mid, step);
      StepsSnoc(uuids, keys, front, step, 0);
      forall t | 0 <= t < |s.logins|
        ensures LoginIs(s.logins[t], VisitorOf(steps, t), FactsOf(uuids, keys, steps, t))
      {
        if t >= |mid.logins| { NobodyYet(uuids, keys, front, mid, Init(uuids, keys), t); }
        LoginStep(uuids, keys, front, mid, step, t);
      }
    }
  }

  // ---------------------------------------------------------------------------
  // Who is let in
  // ---------------------------------------------------------------------------

  lemma FactsDecide(l: Login, visitor: Visitor, facts: seq<Fact>)
    requires LoginIs(l, visitor, facts)
    ensures l.Refused? <==> TurnedAway(facts)
    ensures l.Halted? <==> StoppedBetween(facts)
  {}

  /** Over every run: a login is refused exactly when the last thing it met turned it away, and halted exactly
      when it stopped or failed between the two puts. */
  lemma RefusedExactlyWhenTurnedAway(uuids: map<string, User>, keys: map<string, User>, steps: seq<Step>, s: State, t: nat)
    requires Run(Init(uuids, keys), steps, s) && t < |s.logins|
    ensures s.logins[t].Refused? <==> TurnedAway(FactsOf(uuids, keys, steps, t))
    ensures s.logins[t].Halted? <==> StoppedBetween(FactsOf(uuids, keys, steps, t))
  {
    StepsTellAll(uuids, keys, steps, s);
    FactsDecide(s.logins[t], VisitorOf(steps, t), FactsOf(uuids, keys, steps, t));
  }

  /** Over every run: a visitor whose uuid had an entry when the check succeeded is let in at once, with what
      LDAP returned and no new key pair; one whose uuid had none is let in exactly when both puts succeeded,
      with the key pair made for it. Nobody else is let in with a password. */
  lemma PasswordLoginsEnd(uuids: map<string, User>, keys: map<string, User>, steps: seq<Step>, s: State, t: nat)
    requires Run(Init(uuids, keys), steps, s) && t < |s.logins| && VisitorOf(steps, t).WithPassword?
    ensures var l, user, facts := s.logins[t], VisitorOf(steps, t).user, FactsOf(uuids, keys, steps, t);
            && (l == LoggedIn(user, false) <==> facts == [Checked(true, true)])
            && (l == LoggedIn(user, true) <==> ToEnd(facts))
            && (l.LoggedIn? ==> l.user == user)
            && (ToEnd(facts) ==> facts[1] == Created(user.privKey, user.pubKey))
            && !l.KeyLoggedIn?
  {
    StepsTellAll(uuids, keys, steps, s);
    assert LoginIs(s.logins[t], VisitorOf(steps, t), FactsOf(uuids, keys, steps, t));
  }

  /** Over every run: a visitor with a key is let in exactly when the key was found in the index, as the uuid
      it was indexed to at that moment. */
  lemma KeyLoginsEnd(uuids: map<string, User>, keys: map<string, User>, steps: seq<Step>, s: State, t: nat)
    requires Run(Init(uuids, keys), steps, s) && t < |s.logins| && VisitorOf(steps, t).WithKey?
    ensures var l, facts := s.logins[t], FactsOf(uuids, keys, steps, t);
            && (l.KeyLoggedIn? <==> exists uuid :: facts == [KeyChecked(true, Some(uuid))])
            && (l.KeyLoggedIn? ==> l.key == VisitorOf(steps, t).key && facts == [KeyChecked(true, Some(l.uuid))])
            && !l.LoggedIn?
  {
    StepsTellAll(uuids, keys, steps, s);
    assert LoginIs(s.logins[t], VisitorOf(steps, t), FactsOf(uuids, keys, steps, t));
  }

  /** A login that has not ended can always go on, whatever the outcome of its next call. */
  lemma LoginsGoOn(s: State, t: nat, ok: bool, o: PutOutcome, priv: string, pub: string)
    requires t < |s.logins| && !Ended(s.logins[t]) && pub !in s.creator
    ensures Enabled(s, Stop(t))
    ensures Enabled(s, Check(t, ok)) || Enabled(s, Create(t, priv, pub)) || Enabled(s, PutUuid(t, o))
            || Enabled(s, PutKey(t, o)) || Enabled(s, CheckKey(t, ok))
  {}

  // ---------------------------------------------------------------------------
  // The log
  // ---------------------------------------------------------------------------

  /** What the log should have: who found its uuid unknown, and which puts were applied. */
  function LogAfter(uuids: map<string, User>, steps: seq<Step>): seq<Event> {
    if steps == [] then []
    else
      var front, last := steps[..|steps| - 1], steps[|steps| - 1];
      LogAfter(uuids, front) + LogIn(UuidsAfter(uuids, front), last, if Mover(last) < 0 then Nobody else VisitorOf(front, Mover(last)))
  }

  function LogIn(uuids: map<string, User>, step: Step, visitor: Visitor): seq<Event> {
    if !visitor.WithPassword? then []
    else
      var user := visitor.user;
      match step
      case Check(t, ok) => if ok && user.uuid !in uuids then [Passed(t, user.uuid)] else []
      case PutUuid(t, o) => if o.Lost? then [] else [EntryPut(t, user.uuid, user.pubKey)]
      case PutKey(t, o) => if o.Lost? then [] else [KeyPut(t, user.uuid, user.pubKey)]
      case _ => []
  }

  lemma LogStep(uuids: map<string, User>, keys: map<string, User>, front: seq<Step>, s: State, step: Step)
    requires Told(uuids, keys, front, s) && Enabled(s, step)
    ensures Apply(s, step).log == s.log + LogIn(s.uuids, step, if Mover(step) < 0 then Nobody else VisitorOf(front, Mover(step)))
  {
    if Mover(step) >= 0 {
      var t := Mover(step);
      assert LoginIs(s.logins[t], VisitorOf(front, t), FactsOf(uuids, keys, front, t));
    }
  }

  /** Over every run the log has exactly the passed checks and applied puts of the steps, in order. */
  lemma {:induction false} LogIsWhatHappened(uuids: map<string, User>, keys: map<string, User>, steps: seq<Step>, s: State)
    requires Run(Init(uuids, keys), steps, s)
    ensures s.log == LogAfter(uuids, steps)
    decreases steps
  {
    if steps != [] {
      var mid := SplitLast(Init(uuids, keys), steps, s);
      var front, step := steps[..|steps| - 1], steps[|steps| - 1];
      assert steps == front + [step];
      LogIsWhatHappened(uuids, keys, front, mid);
      StepsTellAll(uuids, keys, front, mid);
      LogStep(uuids, keys, front, mid, step);
    }
  }
}
