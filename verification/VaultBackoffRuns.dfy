/** Concurrent callers of the provider, with an environment that may change under them. */
module VaultBackoffRuns {
  import opened Basics
  import opened Spacing
  import opened VaultBackoff

  type TaskId = nat

  datatype Phase = Waiting | Reading | Served(url: string) | Unavailable(reason: string)

  datatype Outcome = Pending | Failed(at: real, reason: string) | Succeeded(at: real, url: string)

  /** One vault read: when it began, what the environment offered then, and how it ended and with what. */
  datatype Attempt = Attempt(startedAt: real, environment: Option<string>, outcome: Outcome)

  datatype World = World(
    now: real, environment: Option<string>, provider: Provider, lock: Option<TaskId>,
    tasks: map<TaskId, Phase>, attempts: seq<Attempt>)

  datatype Action =
    | Tick(to: real)
    | SetEnvironment(url: Option<string>)
    | Call(id: TaskId)
    | Acquire(id: TaskId)
    | SecretArrives(id: TaskId, secret: string)
    | VaultFails(id: TaskId, reason: string)

  function With(w: World, id: TaskId, phase: Phase): World {
    w.(tasks := w.tasks[id := phase])
  }

  function Settle(attempts: seq<Attempt>, outcome: Outcome): seq<Attempt> {
    if attempts == [] then [] else attempts[|attempts| - 1 := attempts[|attempts| - 1].(outcome := outcome)]
  }

  predicate IsReading(w: World, id: TaskId) {
    id in w.tasks && w.tasks[id].Reading?
  }

  /** One step of the system; an action that is not enabled changes nothing. */
  function Next(w: World, cooldown: real, a: Action): World {
    match a
    case Tick(to) => if to >= w.now then w.(now := to) else w
    case SetEnvironment(url) => w.(environment := url)
    case Call(id) =>
      if id in w.tasks then w
      else With(w, id, if w.provider.factory.Some? then Served(w.provider.factory.value) else Waiting)
    case Acquire(id) =>
      if w.lock.None? && id in w.tasks && w.tasks[id].Waiting? then
        if w.provider.factory.Some? then With(w, id, Served(w.provider.factory.value))
        else
          (match Resolve(w.provider, w.environment, w.now)
           case Built(d) => With(w.(provider := d), id, Served(w.environment.value))
           case BackOff(reason) => With(w, id, Unavailable(reason))
           case AskVault =>
             With(w.(lock := Some(id), attempts := w.attempts + [Attempt(w.now, w.environment, Pending)]), id, Reading))
      else w
    case SecretArrives(id, url) =>
      if IsReading(w, id) then
        With(w.(lock := None, provider := AfterSecret(w.provider, url), attempts := Settle(w.attempts, Succeeded(w.now, url))),
             id, Served(url))
      else w
    case VaultFails(id, reason) =>
      if IsReading(w, id) then
        With(w.(lock := None, provider := AfterFailure(w.provider, reason, w.now, cooldown),
                attempts := Settle(w.attempts, Failed(w.now, reason))),
             id, Unavailable(reason))
      else w
  }

  function Run(cooldown: real, start: real, actions: seq<Action>): World {
    if actions == [] then World(start, None, Fresh(), None, map[], [])
    else Next(Run(cooldown, start, actions[..|actions| - 1]), cooldown, actions[|actions| - 1])
  }

  // ------------------------------------------------------------ the invariant

  /** An attempt that another follows: it failed, and the follower kept the cooldown. */
  ghost predicate Followed(a: Attempt, b: Attempt, cooldown: real) {
    a.outcome.Failed? && b.startedAt >= a.outcome.at + cooldown
  }

  ghost predicate AttemptSound(w: World, a: Attempt) {
    && a.environment.None?
    && a.startedAt <= w.now
    && (a.outcome.Failed? || a.outcome.Succeeded? ==> a.startedAt <= a.outcome.at <= w.now)
  }

  ghost predicate LastSound(w: World, cooldown: real) {
    if w.attempts == [] then w.lock.None? && w.provider.retryNotBefore == 0.0
    else
      match w.attempts[|w.attempts| - 1].outcome
      case Pending => w.lock.Some? && w.provider.factory.None?
      case Failed(at, reason) =>
        && w.lock.None? && w.provider.retryNotBefore == at + cooldown
        && (w.provider.factory.None? ==> w.provider.lastError == Some(reason))
      case Succeeded(at, url) => w.lock.None? && w.provider.factory == Some(url)
  }

  ghost predicate Inv(w: World, cooldown: real) {
    && (forall i :: 0 <= i < |w.attempts| ==> AttemptSound(w, w.attempts[i]))
    && (forall i, j :: 0 <= i && j == i + 1 && j < |w.attempts| ==> Followed(w.attempts[i], w.attempts[j], cooldown))
    && LastSound(w, cooldown)
    && (forall id: TaskId :: IsReading(w, id) <==> w.lock == Some(id))
  }

  lemma SettleKeepsInv(w: World, w': World, cooldown: real, outcome: Outcome)
    requires Inv(w, cooldown) && w.lock.Some? && w'.lock.None? && w'.now == w.now
    requires w'.attempts == Settle(w.attempts, outcome)
    requires (outcome.Failed? && outcome.at == w.now) || (outcome.Succeeded? && outcome.at == w.now)
    requires outcome.Failed? ==> w'.provider.retryNotBefore == w.now + cooldown && w'.provider.lastError == Some(outcome.reason)
    requires outcome.Succeeded? ==> w'.provider.factory == Some(outcome.url)
    requires forall id: TaskId :: !IsReading(w', id)
    ensures Inv(w', cooldown)
  {
    var n := |w.attempts| - 1;
    assert AttemptSound(w, w.attempts[n]);
    forall i | 0 <= i < |w'.attempts|
      ensures AttemptSound(w', w'.attempts[i])
    {
      assert AttemptSound(w, w.attempts[i]);
    }
    forall i, j | 0 <= i && j == i + 1 && j < |w'.attempts|
      ensures Followed(w'.attempts[i], w'.attempts[j], cooldown)
    {
      assert Followed(w.attempts[i], w.attempts[j], cooldown);
    }
  }

  lemma AskKeepsInv(w: World, cooldown: real, id: TaskId)
    requires Inv(w, cooldown) && w.lock.None? && w.provider.factory.None? && w.environment.None?
    requires w.provider.retryNotBefore <= w.now && id in w.tasks
    ensures Inv(With(w.(lock := Some(id), attempts := w.attempts + [Attempt(w.now, w.environment, Pending)]), id, Reading), cooldown)
  {
    var w' := With(w.(lock := Some(id), attempts := w.attempts + [Attempt(w.now, w.environment, Pending)]), id, Reading);
    forall i | 0 <= i < |w'.attempts|
      ensures AttemptSound(w', w'.attempts[i])
    {
      if i < |w.attempts| {
        assert AttemptSound(w, w.attempts[i]);
      }
    }
    forall i, j | 0 <= i && j == i + 1 && j < |w'.attempts|
      ensures Followed(w'.attempts[i], w'.attempts[j], cooldown)
    {
      if j < |w.attempts| {
        assert Followed(w.attempts[i], w.attempts[j], cooldown);
      }
    }
    forall other: TaskId
      ensures IsReading(w', other) <==> w'.lock == Some(other)
    {
      assert IsReading(w, other) <==> w.lock == Some(other);
    }
  }

  lemma QuietKeepsInv(w: World, w': World, cooldown: real)
    requires Inv(w, cooldown) && w'.now >= w.now && w'.attempts == w.attempts && w'.lock == w.lock
    requires w'.provider == w.provider ||
             (w.provider.factory.None? && w.lock.None? && w'.provider.factory.Some? && w'.provider.retryNotBefore == w.provider.retryNotBefore)
    requires forall id: TaskId :: IsReading(w', id) <==> IsReading(w, id)
    ensures Inv(w', cooldown)
  {
    forall i | 0 <= i < |w'.attempts|
      ensures AttemptSound(w', w'.attempts[i])
    {
      assert AttemptSound(w, w.attempts[i]);
    }
    forall id: TaskId
      ensures IsReading(w', id) <==> w'.lock == Some(id)
    {
      assert IsReading(w', id) <==> IsReading(w, id);
    }
  }

  /** Only the holder of the lock was reading, and it has stopped. */
  lemma NobodyReads(w: World, w': World, cooldown: real, id: TaskId)
    requires Inv(w, cooldown) && IsReading(w, id) && id in w'.tasks && !w'.tasks[id].Reading?
    requires w'.tasks == w.tasks[id := w'.tasks[id]]
    ensures w.lock == Some(id) && forall other: TaskId :: !IsReading(w', other)
  {
    forall other: TaskId
      ensures !IsReading(w', other)
    {
      assert IsReading(w, other) <==> w.lock == Some(other);
    }
  }

  lemma StepKeepsInv(w: World, cooldown: real, a: Action)
    requires Inv(w, cooldown)
    ensures Inv(Next(w, cooldown, a), cooldown)
  {
    hide AttemptSound, Followed;
    var w' := Next(w, cooldown, a);
    match a
    case SecretArrives(id, url) =>
      if IsReading(w, id) {
        NobodyReads(w, w', cooldown, id);
        SettleKeepsInv(w, w', cooldown, Succeeded(w.now, url));
      }
    case VaultFails(id, reason) =>
      if IsReading(w, id) {
        NobodyReads(w, w', cooldown, id);
        SettleKeepsInv(w, w', cooldown, Failed(w.now, reason));
      }
    case Acquire(id) =>
      if w'.attempts != w.attempts {
        AskKeepsInv(w, cooldown, id);
      } else {
        QuietKeepsInv(w, w', cooldown);
      }
    case _ => QuietKeepsInv(w, w', cooldown);
  }

  lemma {:induction false} RunsKeepInv(cooldown: real, start: real, actions: seq<Action>)
    ensures Inv(Run(cooldown, start, actions), cooldown)
  {
    if actions == [] {
    } else {
      RunsKeepInv(cooldown, start, actions[..|actions| - 1]);
      StepKeepsInv(Run(cooldown, start, actions[..|actions| - 1]), cooldown, actions[|actions| - 1]);
    }
  }

  // ------------------------------------------------------------ what every run promises

  /** Reads are made one at a time, by the holder of the lock. */
  lemma {:induction false} OneReadAtATime(cooldown: real, start: real, actions: seq<Action>)
    ensures var w := Run(cooldown, start, actions);
            && (forall i :: 0 <= i < |w.attempts| && w.attempts[i].outcome.Pending? ==> i == |w.attempts| - 1 && w.lock.Some?)
            && (forall id: TaskId :: IsReading(w, id) <==> w.lock == Some(id))
  {
    RunsKeepInv(cooldown, start, actions);
    var w := Run(cooldown, start, actions);
    forall i | 0 <= i < |w.attempts| - 1
      ensures w.attempts[i].outcome.Failed?
    {
      assert Followed(w.attempts[i], w.attempts[i + 1], cooldown);
    }
  }

  /** No read starts within the cooldown after a failed one, after a success, or while the environment has a URL. */
  lemma ReadsBackOff(cooldown: real, start: real, actions: seq<Action>, i: nat, j: nat)
    requires i < j < |Run(cooldown, start, actions).attempts|
    ensures var attempts := Run(cooldown, start, actions).attempts;
            && attempts[i].environment.None? && attempts[j].environment.None?
            && attempts[i].outcome.Failed?
            && (cooldown >= 0.0 || j == i + 1 ==> attempts[j].startedAt >= attempts[i].outcome.at + cooldown)
    decreases j - i
  {
    RunsKeepInv(cooldown, start, actions);
    var w := Run(cooldown, start, actions);
    assert AttemptSound(w, w.attempts[i]) && AttemptSound(w, w.attempts[j]);
    assert Followed(w.attempts[i], w.attempts[i + 1], cooldown);
    if i + 1 < j {
      ReadsBackOff(cooldown, start, actions, i + 1, j);
      assert AttemptSound(w, w.attempts[i + 1]);
    }
  }

  function Starts(attempts: seq<Attempt>): (ts: seq<real>)
    ensures |ts| == |attempts| && forall i :: 0 <= i < |ts| ==> ts[i] == attempts[i].startedAt
  {
    seq(|attempts|, i requires 0 <= i < |attempts| => attempts[i].startedAt)
  }

  /** However many callers there are, a window holds no more reads than the cooldown allows. */
  lemma ReadsPerWindow(cooldown: real, start: real, actions: seq<Action>, i: nat, j: nat, length: real)
    requires i <= j < |Run(cooldown, start, actions).attempts| && cooldown > 0.0
    requires var attempts := Run(cooldown, start, actions).attempts; attempts[j].startedAt - attempts[i].startedAt <= length
    ensures (j - i + 1) as real <= length / cooldown + 1.0
  {
    RunsKeepInv(cooldown, start, actions);
    var w := Run(cooldown, start, actions);
    var ts := Starts(w.attempts);
    assert Spaced(ts, cooldown) by {
      forall a, b | 0 <= a && b == a + 1 && b < |ts|
        ensures ts[b] - ts[a] >= cooldown
      {
        assert Followed(w.attempts[a], w.attempts[b], cooldown);
        assert AttemptSound(w, w.attempts[a]);
      }
    }
    hide Inv, Run;
    WindowHolds(ts, cooldown, i, j, length);
  }

  /** Once a factory exists it is the one every later caller gets, and no further read begins. */
  lemma {:induction false} FactoryIsKept(cooldown: real, start: real, actions: seq<Action>, more: seq<Action>)
    requires Run(cooldown, start, actions).provider.factory.Some?
    ensures var w, w' := Run(cooldown, start, actions), Run(cooldown, start, actions + more);
            w'.provider.factory == w.provider.factory && w'.attempts == w.attempts
    decreases |more|
  {
    if more == [] {
      assert actions + more == actions;
    } else {
      var init := more[..|more| - 1];
      FactoryIsKept(cooldown, start, actions, init);
      var a := more[|more| - 1];
      assert actions + more == actions + init + [a];
      OneMore(cooldown, start, actions + init, a);
      RunsKeepInv(cooldown, start, actions + init);
      var w := Run(cooldown, start, actions + init);
      assert w.lock.None?;
    }
  }

  // ------------------------------------------------------------ what callers are given

  /** The environment held this URL at some point of the run. */
  ghost predicate WasSet(actions: seq<Action>, url: string) {
    exists i :: 0 <= i < |actions| && actions[i] == SetEnvironment(Some(url))
  }

  /** The vault brought this URL at some point of the run. */
  ghost predicate WasRead(actions: seq<Action>, url: string) {
    exists i :: 0 <= i < |actions| && actions[i].SecretArrives? && actions[i].secret == url
  }

  /** Everyone served has the factory's URL, and its source says truly where that came from. */
  ghost predicate Traced(w: World, actions: seq<Action>) {
    && (w.environment.Some? ==> WasSet(actions, w.environment.value))
    && (forall id :: id in w.tasks && w.tasks[id].Served? ==> w.provider.factory == Some(w.tasks[id].url))
    && (match w.provider.source
        case Environment => w.provider.factory.Some? && WasSet(actions, w.provider.factory.value)
        case KeyVault => w.provider.factory.Some? && WasRead(actions, w.provider.factory.value)
        case Unresolved => w.provider.factory.None?)
  }

  lemma MoreIsRemembered(actions: seq<Action>, a: Action)
    ensures forall url :: WasSet(actions, url) || a == SetEnvironment(Some(url)) ==> WasSet(actions + [a], url)
    ensures forall url :: WasRead(actions, url) || (a.SecretArrives? && a.secret == url) ==> WasRead(actions + [a], url)
  {
    var all := actions + [a];
    assert all[|actions|] == a;
    forall url | WasSet(actions, url)
      ensures WasSet(all, url)
    {
      var i :| 0 <= i < |actions| && actions[i] == SetEnvironment(Some(url));
      assert all[i] == actions[i];
    }
    forall url | WasRead(actions, url)
      ensures WasRead(all, url)
    {
      var i :| 0 <= i < |actions| && actions[i].SecretArrives? && actions[i].secret == url;
      assert all[i] == actions[i];
    }
  }

  lemma StepKeepsTraced(w: World, cooldown: real, actions: seq<Action>, a: Action)
    requires Inv(w, cooldown) && Traced(w, actions)
    ensures Traced(Next(w, cooldown, a), actions + [a])
  {
    hide WasSet, WasRead, AttemptSound, Followed;
    MoreIsRemembered(actions, a);
    if (a.SecretArrives? || a.VaultFails?) && IsReading(w, a.id) {
      assert w.lock == Some(a.id);
      assert w.provider.factory.None?;
    }
  }

  /**
   * Over every run, every served caller has one and the same URL, the factory's; it was brought by a vault read or set
   * in the environment during the run, and the provider's source says which.
   */
  lemma {:induction false} ServedUrlsAreTraced(cooldown: real, start: real, actions: seq<Action>)
    ensures Traced(Run(cooldown, start, actions), actions)
  {
    if actions == [] {
    } else {
      var init, a := actions[..|actions| - 1], actions[|actions| - 1];
      ServedUrlsAreTraced(cooldown, start, init);
      RunsKeepInv(cooldown, start, init);
      StepKeepsTraced(Run(cooldown, start, init), cooldown, init, a);
      assert actions == init + [a];
    }
  }

  /** A new caller gets the factory that exists, or waits for the lock; it disturbs nothing. */
  lemma CallOutcome(cooldown: real, start: real, actions: seq<Action>, id: TaskId)
    requires id !in Run(cooldown, start, actions).tasks
    ensures var w, w' := Run(cooldown, start, actions), Run(cooldown, start, actions + [Call(id)]);
            && id in w'.tasks && w'.provider == w.provider && w'.attempts == w.attempts && w'.lock == w.lock
            && w'.tasks[id] == if w.provider.factory.Some? then Served(w.provider.factory.value) else Waiting
  {
    OneMore(cooldown, start, actions, Call(id));
  }

  /** What a caller is told once it holds the lock, for every state of the provider, the environment and the last read. */
  lemma AcquireOutcome(cooldown: real, start: real, actions: seq<Action>, id: TaskId)
    requires var w := Run(cooldown, start, actions); w.lock.None? && id in w.tasks && w.tasks[id].Waiting? && w.now >= 0.0
    ensures var w, w' := Run(cooldown, start, actions), Run(cooldown, start, actions + [Acquire(id)]);
            if w.provider.factory.Some? then
              w'.tasks[id] == Served(w.provider.factory.value) && w'.provider == w.provider
            else if w.environment.Some? then
              w'.tasks[id] == Served(w.environment.value) && w'.provider.source == Environment && w'.provider.lastError == None
            else if w.attempts != [] && w.attempts[|w.attempts| - 1].outcome.Failed? &&
                    w.now < w.attempts[|w.attempts| - 1].outcome.at + cooldown then
              w'.tasks[id] == Unavailable(w.attempts[|w.attempts| - 1].outcome.reason) && w'.provider == w.provider
            else
              w'.tasks[id] == Reading && w'.lock == Some(id) && w'.provider == w.provider
  {
    RunsKeepInv(cooldown, start, actions);
    OneMore(cooldown, start, actions, Acquire(id));
  }

  /** What the end of a read brings its caller, and leaves for the next. */
  lemma ReadOutcome(cooldown: real, start: real, actions: seq<Action>, id: TaskId, url: string, reason: string)
    requires IsReading(Run(cooldown, start, actions), id)
    ensures var w' := Run(cooldown, start, actions + [SecretArrives(id, url)]);
            && w'.tasks[id] == Served(url) && w'.lock == None
            && w'.provider.factory == Some(url) && w'.provider.source == KeyVault && w'.provider.lastError == None
    ensures var w, w' := Run(cooldown, start, actions), Run(cooldown, start, actions + [VaultFails(id, reason)]);
            && w'.tasks[id] == Unavailable(reason) && w'.lock == None
            && w'.provider.factory == None && w'.provider.source == w.provider.source && w'.provider.lastError == Some(reason)
            && w'.attempts != [] && w'.attempts[|w'.attempts| - 1].outcome == Failed(w.now, reason)
  {
    RunsKeepInv(cooldown, start, actions);
    OneMore(cooldown, start, actions, SecretArrives(id, url));
    OneMore(cooldown, start, actions, VaultFails(id, reason));
    var w := Run(cooldown, start, actions);
    assert w.lock == Some(id);
  }

  /** The last read failed and its cooldown has passed; with no read yet, the clock has left zero behind. */
  predicate CooldownOver(w: World, cooldown: real) {
    if w.attempts == [] then w.now >= 0.0
    else
      match w.attempts[|w.attempts| - 1].outcome
      case Failed(at, _) => w.now >= at + cooldown
      case _ => false
  }

  /** Under the lock, a read starts exactly when nothing is resolved, the environment is silent and the cooldown is over. */
  lemma ReadStartsIff(cooldown: real, start: real, actions: seq<Action>, id: TaskId)
    requires var w := Run(cooldown, start, actions); w.lock.None? && id in w.tasks && w.tasks[id].Waiting?
    ensures var w, w' := Run(cooldown, start, actions), Run(cooldown, start, actions + [Acquire(id)]);
            && (w'.tasks[id].Reading? <==>
                && w.provider.factory.None?
                && w.environment.None?
                && CooldownOver(w, cooldown))
            && (w'.tasks[id].Reading? <==> |w'.attempts| == |w.attempts| + 1)
  {
    RunsKeepInv(cooldown, start, actions);
    assert (actions + [Acquire(id)])[..|actions|] == actions;
  }

  // ------------------------------------------------------------ the class behind the runs

  lemma OneMore(cooldown: real, start: real, actions: seq<Action>, a: Action)
    ensures Run(cooldown, start, actions + [a]) == Next(Run(cooldown, start, actions), cooldown, a)
  {
    hide Next;
    assert (actions + [a])[..|actions|] == actions;
  }

  /** One stretch between two awaits, performed on the provider itself, is one step of the system. */
  method Perform(db: Database, w: World, a: Action) returns (w': World)
    requires db.Valid() && db.View() == w.provider
    modifies db
    ensures db.Valid() && db.View() == w'.provider
    ensures w' == Next(w, db.cooldown, a)
  {
    w' := w;
    match a {
      case Tick(to) =>
        if to >= w.now {
          w' := w.(now := to);
        }
      case SetEnvironment(url) =>
        w' := w.(environment := url);
      case Call(id) =>
        if id !in w.tasks {
          w' := With(w, id, if db.factory.Some? then Served(db.factory.value) else Waiting);
        }
      case Acquire(id) =>
        if w.lock.None? && id in w.tasks && w.tasks[id].Waiting? {
          if db.factory.Some? {
            w' := With(w, id, Served(db.factory.value));
          } else {
            var decision := db.ResolveUrl(w.environment, w.now);
            match decision {
              case Built(_) => w' := With(w.(provider := db.View()), id, Served(db.factory.value));
              case BackOff(reason) => w' := With(w, id, Unavailable(reason));
              case AskVault =>
                w' := With(w.(lock := Some(id), attempts := w.attempts + [Attempt(w.now, w.environment, Pending)]), id, Reading);
            }
          }
        }
      case SecretArrives(id, url) =>
        if IsReading(w, id) {
          db.SecretRead(url);
          w' := With(w.(lock := None, provider := db.View(), attempts := Settle(w.attempts, Succeeded(w.now, url))), id, Served(url));
        }
      case VaultFails(id, reason) =>
        if IsReading(w, id) {
          db.VaultFailed(reason, w.now);
          w' := With(w.(lock := None, provider := db.View(), attempts := Settle(w.attempts, Failed(w.now, reason))), id, Unavailable(reason));
        }
    }
  }

  /** Any interleaving of callers over a new provider ends in the world the runs speak of. */
  method Serve(cooldown: real, start: real, actions: seq<Action>) returns (db: Database, w: World)
    ensures db.cooldown == cooldown && db.Valid() && db.View() == w.provider
    ensures w == Run(cooldown, start, actions)
  {
    db := new Database(cooldown);
    w := World(start, None, Fresh(), None, map[], []);
    var i := 0;
    while i < |actions|
      invariant 0 <= i <= |actions|
      invariant fresh(db) && db.cooldown == cooldown && db.Valid() && db.View() == w.provider
      invariant w == Run(cooldown, start, actions[..i])
    {
      OneMore(cooldown, start, actions[..i], actions[i]);
      assert actions[..i + 1] == actions[..i] + [actions[i]];
      w := Perform(db, w, actions[i]);
      i := i + 1;
    }
    assert actions[..i] == actions;
  }
}
