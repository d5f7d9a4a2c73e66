/**
  Reconcilers of many CRs against one API server, one API call at a time.

  `CreateOrUpdate` is a read followed by a create (which fails when the object exists) or an
  update (which fails unless the object is still the version read).  `deleteIfController` is a
  read followed by a delete that names the object only by its key.  Calls of different CRs,
  and of everybody else in the cluster, interleave freely.
*/
module ClusterIsolation {
  import opened Wrappers
  import opened OwnedNames

  datatype Resource = ConfigMap | Claim | Deployment | CronJob | Secret

  /** Where an object lives in the cluster. */
  datatype Place = Place(kind: Resource, ns: string, name: string)

  /** `controller` is the UID of the controlling owner; `version` the resource version. */
  datatype Stored = Stored(controller: Option<nat>, version: nat, spec: nat)

  datatype Owner = Owner(uid: nat, kind: CrKind, ns: string, name: string, source: Option<string>)

  datatype Worker =
    | Idle
    | Upserting(key: Place, seen: Option<Stored>)
    | Deleting(key: Place)

  datatype Cluster = Cluster(objs: map<Place, Stored>, version: nat, workers: seq<Worker>)

  /** Everybody else in the cluster; an update may also change or drop the controlling owner. */
  datatype Env =
    | EnvCreate(key: Place, controller: Option<nat>, spec: nat)
    | EnvUpdate(key: Place, controller: Option<nat>, spec: nat)
    | EnvDelete(key: Place)

  datatype Action =
    | Outside(e: Env)
    | ReadForUpsert(w: nat, key: Place)
    | Write(w: nat, spec: nat)
    | ReadForDelete(w: nat, key: Place)
    | Remove(w: nat)
    | GiveUp(w: nat)

  function Owned(cr: Owner): string {
    OwnedName(cr.kind, cr.name)
  }

  /** What ensureOwned creates or updates; a Backup whose source is its own claim is refused first. */
  predicate MayUpsert(cr: Owner, key: Place) {
    && key.ns == cr.ns
    && cr.source != Some(Owned(cr))
    && match key.kind
       case ConfigMap => key.name == Owned(cr)
       case Claim => key.name == Owned(cr)
       case CronJob => key.name == Owned(cr)
       case Deployment => key.name == HolderName(Owned(cr))
       case Secret => false
  }

  /** What the unneeded-holder cleanup and deleteLegacyOwned delete. */
  predicate MayDelete(cr: Owner, key: Place) {
    && key.ns == cr.ns
    && match key.kind
       case Deployment => key.name == HolderName(Owned(cr))
       case ConfigMap => key.name == LegacyName(cr.name)
       case CronJob => key.name == LegacyName(cr.name)
       case Claim => false
       case Secret => false
  }

  predicate ControlledBy(o: Stored, cr: Owner) {
    o.controller == Some(cr.uid)
  }

  /** SetControllerReference accepts the object. */
  predicate Adoptable(o: Stored, cr: Owner) {
    o.controller == None || ControlledBy(o, cr)
  }

  predicate Distinct(crs: seq<Owner>) {
    forall i, j :: 0 <= i < j < |crs| ==> crs[i].uid != crs[j].uid
  }

  predicate Fits(crs: seq<Owner>, s: Cluster, w: nat) {
    |s.workers| == |crs| && w < |crs|
  }

  predicate Enabled(crs: seq<Owner>, s: Cluster, a: Action) {
    match a
    case Outside(EnvCreate(key, _, _)) => key !in s.objs
    case Outside(EnvUpdate(key, _, _)) => key in s.objs
    case Outside(EnvDelete(key)) => key in s.objs
    case ReadForUpsert(w, key) =>
      Fits(crs, s, w) && s.workers[w].Idle? && MayUpsert(crs[w], key) &&
      (key in s.objs ==> Adoptable(s.objs[key], crs[w]))
    case Write(w, _) => Fits(crs, s, w) && s.workers[w].Upserting?
    case ReadForDelete(w, key) =>
      Fits(crs, s, w) && s.workers[w].Idle? && MayDelete(crs[w], key) &&
      key in s.objs && ControlledBy(s.objs[key], crs[w])
    case Remove(w) => Fits(crs, s, w) && s.workers[w].Deleting?
    case GiveUp(w) => Fits(crs, s, w)
  }

  /** The API server takes the write: a create of a free key, or an update of the version read. */
  predicate Accepted(s: Cluster, key: Place, seen: Option<Stored>) {
    match seen
    case None => key !in s.objs
    case Some(o) => key in s.objs && s.objs[key].version == o.version
  }

  function Apply(crs: seq<Owner>, s: Cluster, a: Action): Cluster
    requires Enabled(crs, s, a)
  {
    match a
    case Outside(EnvCreate(key, controller, spec)) =>
      s.(objs := s.objs[key := Stored(controller, s.version, spec)], version := s.version + 1)
    case Outside(EnvUpdate(key, controller, spec)) =>
      s.(objs := s.objs[key := Stored(controller, s.version, spec)], version := s.version + 1)
    case Outside(EnvDelete(key)) => s.(objs := s.objs - {key})
    case ReadForUpsert(w, key) =>
      s.(workers := s.workers[w := Upserting(key, if key in s.objs then Some(s.objs[key]) else None)])
    case Write(w, spec) =>
      var key, seen := s.workers[w].key, s.workers[w].seen;
      var t := s.(workers := s.workers[w := Idle]);
      if Accepted(s, key, seen) then
        t.(objs := s.objs[key := Stored(Some(crs[w].uid), s.version, spec)], version := s.version + 1)
      else t
    case ReadForDelete(w, key) => s.(workers := s.workers[w := Deleting(key)])
    case Remove(w) => s.(objs := s.objs - {s.workers[w].key}, workers := s.workers[w := Idle])
    case GiveUp(w) => s.(workers := s.workers[w := Idle])
  }

  ghost predicate Start(crs: seq<Owner>, s: Cluster) {
    && |s.workers| == |crs|
    && (forall w :: 0 <= w < |crs| ==> s.workers[w].Idle?)
    && forall k :: k in s.objs ==> s.objs[k].version < s.version
  }

  ghost predicate IsRun(crs: seq<Owner>, ss: seq<Cluster>, acts: seq<Action>) {
    && |ss| == |acts| + 1
    && Start(crs, ss[0])
    && forall i :: 0 <= i < |acts| ==> Enabled(crs, ss[i], acts[i]) && ss[i + 1] == Apply(crs, ss[i], acts[i])
  }

  /** What a worker may rely on between its read and its write. */
  ghost predicate WorkerOk(crs: seq<Owner>, s: Cluster, w: nat)
    requires w < |crs| && w < |s.workers|
  {
    match s.workers[w]
    case Idle => true
    case Upserting(key, seen) =>
      && MayUpsert(crs[w], key)
      && (seen.Some? ==>
            && Adoptable(seen.value, crs[w]) && seen.value.version < s.version
            && (key in s.objs && s.objs[key].version == seen.value.version ==> s.objs[key] == seen.value))
    case Deleting(key) => MayDelete(crs[w], key)
  }

  ghost predicate Inv(crs: seq<Owner>, s: Cluster) {
    && |s.workers| == |crs|
    && (forall k :: k in s.objs ==> s.objs[k].version < s.version)
    && forall w: nat :: w < |crs| ==> WorkerOk(crs, s, w)
  }

  lemma InvStep(crs: seq<Owner>, s: Cluster, a: Action)
    requires Inv(crs, s) && Enabled(crs, s, a)
    ensures Inv(crs, Apply(crs, s, a))
  {
    forall w: nat | w < |crs| ensures WorkerOk(crs, Apply(crs, s, a), w) {
      assert WorkerOk(crs, s, w);
    }
  }

  lemma {:induction false} InvAlways(crs: seq<Owner>, ss: seq<Cluster>, acts: seq<Action>, i: nat)
    requires IsRun(crs, ss, acts) && i < |ss|
    ensures Inv(crs, ss[i])
  {
    if i > 0 {
      InvAlways(crs, ss, acts, i - 1);
      assert ss[i] == Apply(crs, ss[i - 1], acts[i - 1]);
      InvStep(crs, ss[i - 1], acts[i - 1]);
    }
  }

  // ------------------------------------------------------------------ where a delete can go wrong

  /** Another CR than worker `w`'s may create or adopt the object. */
  predicate Wanted(crs: seq<Owner>, w: nat, key: Place) {
    exists v: nat :: v < |crs| && v != w && MayUpsert(crs[v], key)
  }

  /**
    Worker `w` is between the test and the delete of an object that is not its CR's any more:
    another controller holds it, or it is gone or orphaned and another CR may take it.
  */
  predicate Exposed(crs: seq<Owner>, s: Cluster, w: nat) {
    && w < |crs| && w < |s.workers| && s.workers[w].Deleting?
    && var key := s.workers[w].key;
       !(key in s.objs && ControlledBy(s.objs[key], crs[w])) &&
       ((key in s.objs && s.objs[key].controller.Some?) || Wanted(crs, w, key))
  }

  ghost predicate Safe(crs: seq<Owner>, s: Cluster) {
    forall w: nat :: !Exposed(crs, s, w)
  }

  /**
    Somebody outside takes an object from under worker `w`'s delete: hands it to another
    controller, or deletes or orphans it although another CR may take it.
  */
  predicate Takes(crs: seq<Owner>, s: Cluster, e: Env, w: nat) {
    && w < |crs| && w < |s.workers| && s.workers[w] == Deleting(e.key)
    && (e.EnvDelete? || e.controller != Some(crs[w].uid))
    && ((!e.EnvDelete? && e.controller.Some?) || Wanted(crs, w, e.key))
  }

  ghost predicate Harmful(crs: seq<Owner>, s: Cluster, a: Action) {
    a.Outside? && exists w: nat :: Takes(crs, s, a.e, w)
  }

  /** No call of a reconciler exposes a delete that was safe, its own or another's. */
  lemma CallsKeepSafe(crs: seq<Owner>, s: Cluster, a: Action)
    requires Distinct(crs) && Inv(crs, s) && Safe(crs, s) && Enabled(crs, s, a) && !a.Outside?
    ensures Safe(crs, Apply(crs, s, a))
  {
    var t := Apply(crs, s, a);
    forall w: nat ensures !Exposed(crs, t, w) {
      assert !Exposed(crs, s, w);
      assert !Exposed(crs, s, a.w);
      assert WorkerOk(crs, s, a.w);
      if w < |crs| && t.workers[w].Deleting? && a.Write? && s.workers[a.w].key == t.workers[w].key {
        assert MayUpsert(crs[a.w], t.workers[w].key) && a.w != w;
      }
    }
  }

  /** An act from outside exposes a delete exactly if it takes the object. */
  lemma OutsideExposes(crs: seq<Owner>, s: Cluster, a: Action)
    requires Inv(crs, s) && Safe(crs, s) && Enabled(crs, s, a) && a.Outside?
    ensures Safe(crs, Apply(crs, s, a)) <==> !Harmful(crs, s, a)
  {
    var t := Apply(crs, s, a);
    forall w: nat ensures Exposed(crs, t, w) <==> Takes(crs, s, a.e, w) {
      assert !Exposed(crs, s, w);
      assert t.workers == s.workers;
    }
  }

  lemma {:induction false} SafeAlways(crs: seq<Owner>, ss: seq<Cluster>, acts: seq<Action>, i: nat)
    requires Distinct(crs) && IsRun(crs, ss, acts) && i < |ss|
    requires forall k :: 0 <= k < i ==> !Harmful(crs, ss[k], acts[k])
    ensures Safe(crs, ss[i])
  {
    if i > 0 {
      SafeAlways(crs, ss, acts, i - 1);
      InvAlways(crs, ss, acts, i - 1);
      var s, a := ss[i - 1], acts[i - 1];
      assert ss[i] == Apply(crs, s, a);
      if a.Outside? {
        OutsideExposes(crs, s, a);
      } else {
        CallsKeepSafe(crs, s, a);
      }
    }
  }

  // ------------------------------------------------------------------ isolation

  /**
    A call of one CR's reconciler leaves alone every object another controller holds, as long
    as no delete is exposed, and in any case every Secret, every claim that is not the CR's own
    and everything in other namespaces.
  */
  lemma CallIsContained(crs: seq<Owner>, s: Cluster, a: Action, key: Place)
    requires Inv(crs, s) && Enabled(crs, s, a) && !a.Outside? && key in s.objs
    requires
      || (Safe(crs, s) && s.objs[key].controller.Some? && !ControlledBy(s.objs[key], crs[a.w]))
      || key.kind.Secret?
      || (key.kind.Claim? && !MayUpsert(crs[a.w], key))
      || key.ns != crs[a.w].ns
    ensures var t := Apply(crs, s, a); key in t.objs && t.objs[key] == s.objs[key]
  {
    assert WorkerOk(crs, s, a.w);
    assert Safe(crs, s) ==> !Exposed(crs, s, a.w);
  }

  /** `a` is a call of `cr`'s own reconciler, or something outside done to `key` itself. */
  predicate Concerns(crs: seq<Owner>, a: Action, uid: nat, key: Place) {
    match a
    case Outside(e) => e.key == key
    case _ => a.w < |crs| && crs[a.w].uid == uid
  }

  /**
    Over any interleaving of API calls of any set of CRs, an object controlled by one CR
    stays bit for bit what it was until that CR's own reconciler, or somebody outside, acts
    on it: whatever names the other CRs compute, live, legacy or truncated.  All that is asked
    is that nobody outside takes an object from under a delete.
  */
  lemma {:induction false} OthersNeverTouch(
    crs: seq<Owner>, ss: seq<Cluster>, acts: seq<Action>, i: nat, j: nat, uid: nat, key: Place)
    requires Distinct(crs) && IsRun(crs, ss, acts) && i <= j < |ss|
    requires forall k :: 0 <= k < j ==> !Harmful(crs, ss[k], acts[k])
    requires key in ss[i].objs && ss[i].objs[key].controller == Some(uid)
    requires forall k :: i <= k < j ==> !Concerns(crs, acts[k], uid, key)
    ensures key in ss[j].objs && ss[j].objs[key] == ss[i].objs[key]
  {
    if i < j {
      OthersNeverTouch(crs, ss, acts, i, j - 1, uid, key);
      InvAlways(crs, ss, acts, j - 1);
      SafeAlways(crs, ss, acts, j - 1);
      var s, a := ss[j - 1], acts[j - 1];
      assert ss[j] == Apply(crs, s, a) && !Concerns(crs, a, uid, key);
      if !a.Outside? {
        CallIsContained(crs, s, a, key);
      }
    }
  }

  /** The reconcilers by themselves, of any CRs and in any interleaving, never touch another's object. */
  lemma ReconcilersAreIsolated(
    crs: seq<Owner>, ss: seq<Cluster>, acts: seq<Action>, i: nat, j: nat, uid: nat, key: Place)
    requires Distinct(crs) && IsRun(crs, ss, acts) && i <= j < |ss|
    requires forall k :: 0 <= k < j ==> !acts[k].Outside?
    requires key in ss[i].objs && ss[i].objs[key].controller == Some(uid)
    requires forall k :: i <= k < j ==> !Concerns(crs, acts[k], uid, key)
    ensures key in ss[j].objs && ss[j].objs[key] == ss[i].objs[key]
  {
    OthersNeverTouch(crs, ss, acts, i, j, uid, key);
  }

  /** Secrets, and claims that are nobody's own, survive every call of every reconciler, whatever happens outside. */
  lemma {:induction false} SecretsAndSourcesSurvive(
    crs: seq<Owner>, ss: seq<Cluster>, acts: seq<Action>, i: nat, j: nat, key: Place)
    requires IsRun(crs, ss, acts) && i <= j < |ss|
    requires key in ss[i].objs
    requires forall k :: i <= k < j && acts[k].Outside? ==> acts[k].e.key != key
    requires
      || key.kind.Secret?
      || (key.kind.Claim? && forall w :: 0 <= w < |crs| ==> crs[w].ns != key.ns || Owned(crs[w]) != key.name ||
                                                            crs[w].source == Some(key.name))
    ensures key in ss[j].objs && ss[j].objs[key] == ss[i].objs[key]
  {
    if i < j {
      SecretsAndSourcesSurvive(crs, ss, acts, i, j - 1, key);
      InvAlways(crs, ss, acts, j - 1);
      var s, a := ss[j - 1], acts[j - 1];
      assert ss[j] == Apply(crs, s, a);
      if !a.Outside? {
        CallIsContained(crs, s, a, key);
      }
    }
  }

  // ------------------------------------------------------------------ the guard is exact

  /** The state after a sequence of calls of reconcilers, if each of them is possible in its turn. */
  function Play(crs: seq<Owner>, s: Cluster, acts: seq<Action>): Option<Cluster>
    decreases |acts|
  {
    if acts == [] then Some(s)
    else
      var n := |acts| - 1;
      var u := Play(crs, s, acts[..n]);
      if u.Some? && !acts[n].Outside? && Enabled(crs, u.value, acts[n]) then Some(Apply(crs, u.value, acts[n]))
      else None
  }

  /** The calls end with a delete that removes an object another controller holds. */
  predicate Robs(crs: seq<Owner>, s: Cluster, acts: seq<Action>) {
    && acts != [] && acts[|acts| - 1].Remove?
    && var u := Play(crs, s, acts[..|acts| - 1]);
    && Play(crs, s, acts).Some? && u.Some?
    && var w := acts[|acts| - 1].w;
    && w < |crs| && w < |u.value.workers| && u.value.workers[w].Deleting?
    && var key := u.value.workers[w].key;
    && key in u.value.objs && u.value.objs[key].controller.Some? && !ControlledBy(u.value.objs[key], crs[w])
    && key !in Play(crs, s, acts).value.objs
  }

  lemma {:induction false} PlayStaysSafe(crs: seq<Owner>, s: Cluster, acts: seq<Action>)
    requires Distinct(crs) && Inv(crs, s) && Safe(crs, s) && Play(crs, s, acts).Some?
    ensures Inv(crs, Play(crs, s, acts).value) && Safe(crs, Play(crs, s, acts).value)
    decreases |acts|
  {
    if acts != [] {
      var n := |acts| - 1;
      PlayStaysSafe(crs, s, acts[..n]);
      InvStep(crs, Play(crs, s, acts[..n]).value, acts[n]);
      CallsKeepSafe(crs, Play(crs, s, acts[..n]).value, acts[n]);
    }
  }

  lemma PlayOne(crs: seq<Owner>, s: Cluster, acts: seq<Action>, t: Cluster, a: Action)
    requires Play(crs, s, acts) == Some(t) && !a.Outside? && Enabled(crs, t, a)
    ensures Play(crs, s, acts + [a]) == Some(Apply(crs, t, a))
  {
    assert (acts + [a])[..|acts|] == acts;
  }

  /** Another CR takes the object: it drops what it was doing, reads and writes. */
  lemma AnotherTakes(crs: seq<Owner>, s: Cluster, w: nat, v: nat) returns (acts: seq<Action>, t: Cluster)
    requires Inv(crs, s) && w < |crs| && s.workers[w].Deleting? && v < |crs| && v != w
    requires var key := s.workers[w].key;
             MayUpsert(crs[v], key) && (key in s.objs ==> s.objs[key].controller.None?)
    ensures Play(crs, s, acts) == Some(t) && |t.workers| == |crs| && t.workers[w] == s.workers[w]
    ensures var key := s.workers[w].key; key in t.objs && t.objs[key].controller == Some(crs[v].uid)
  {
    var key := s.workers[w].key;
    acts, t := [], s;
    PlayOne(crs, s, acts, t, GiveUp(v));
    acts, t := acts + [GiveUp(v)], Apply(crs, t, GiveUp(v));
    PlayOne(crs, s, acts, t, ReadForUpsert(v, key));
    acts, t := acts + [ReadForUpsert(v, key)], Apply(crs, t, ReadForUpsert(v, key));
    PlayOne(crs, s, acts, t, Write(v, 0));
    acts, t := acts + [Write(v, 0)], Apply(crs, t, Write(v, 0));
  }

  lemma ExposedIsRobbed(crs: seq<Owner>, s: Cluster, w: nat) returns (acts: seq<Action>)
    requires Distinct(crs) && Inv(crs, s) && Exposed(crs, s, w)
    ensures Robs(crs, s, acts)
  {
    var key := s.workers[w].key;
    var t := s;
    acts := [];
    if !(key in s.objs && s.objs[key].controller.Some?) {
      var v: nat :| v < |crs| && v != w && MayUpsert(crs[v], key);
      acts, t := AnotherTakes(crs, s, w, v);
      assert crs[v].uid != crs[w].uid;
    }
    PlayOne(crs, s, acts, t, Remove(w));
    acts := acts + [Remove(w)];
    assert Play(crs, s, acts[..|acts| - 1]) == Some(t) by {
      assert (acts[..|acts| - 1] + [Remove(w)]) == acts;
    }
  }

  /** The reconcilers alone can go on to delete another controller's object exactly if some delete is exposed. */
  lemma RobbedIffExposed(crs: seq<Owner>, s: Cluster)
    requires Distinct(crs) && Inv(crs, s)
    ensures (exists acts: seq<Action> :: Robs(crs, s, acts)) <==> !Safe(crs, s)
  {
    if !Safe(crs, s) {
      var w: nat :| Exposed(crs, s, w);
      var acts := ExposedIsRobbed(crs, s, w);
      assert Robs(crs, s, acts);
    } else {
      forall acts: seq<Action> ensures !Robs(crs, s, acts) {
        SafeIsNotRobbed(crs, s, acts);
      }
    }
  }

  lemma SafeIsNotRobbed(crs: seq<Owner>, s: Cluster, acts: seq<Action>)
    requires Distinct(crs) && Inv(crs, s) && Safe(crs, s)
    ensures !Robs(crs, s, acts)
  {
    if acts != [] && acts[|acts| - 1].Remove? && Play(crs, s, acts[..|acts| - 1]).Some? {
      PlayStaysSafe(crs, s, acts[..|acts| - 1]);
      assert !Exposed(crs, Play(crs, s, acts[..|acts| - 1]).value, acts[|acts| - 1].w);
    }
  }

  /**
    The guard on outsiders is exact: from no state of a run can the reconcilers go on to delete
    another controller's object if and only if nobody outside, in the run, takes an object from
    under a delete.
  */
  lemma SafeIffNothingTaken(crs: seq<Owner>, ss: seq<Cluster>, acts: seq<Action>)
    requires Distinct(crs) && IsRun(crs, ss, acts)
    ensures (forall i, more :: 0 <= i < |ss| ==> !Robs(crs, ss[i], more)) <==>
            forall k :: 0 <= k < |acts| ==> !Harmful(crs, ss[k], acts[k])
  {
    var taken := exists k :: 0 <= k < |acts| && Harmful(crs, ss[k], acts[k]);
    if taken {
      var k := FirstTaken(crs, ss, acts);
      SafeAlways(crs, ss, acts, k);
      InvAlways(crs, ss, acts, k);
      InvAlways(crs, ss, acts, k + 1);
      assert ss[k + 1] == Apply(crs, ss[k], acts[k]);
      OutsideExposes(crs, ss[k], acts[k]);
      RobbedIffExposed(crs, ss[k + 1]);
    } else {
      forall i, more | 0 <= i < |ss| ensures !Robs(crs, ss[i], more) {
        SafeAlways(crs, ss, acts, i);
        InvAlways(crs, ss, acts, i);
        RobbedIffExposed(crs, ss[i]);
      }
    }
  }

  lemma {:induction false} FirstTaken(crs: seq<Owner>, ss: seq<Cluster>, acts: seq<Action>) returns (k: nat)
    requires |ss| == |acts| + 1 && exists i :: 0 <= i < |acts| && Harmful(crs, ss[i], acts[i])
    ensures k < |acts| && Harmful(crs, ss[k], acts[k])
    ensures forall j :: 0 <= j < k ==> !Harmful(crs, ss[j], acts[j])
  {
    k := 0;
    while !Harmful(crs, ss[k], acts[k])
      invariant k < |acts| && forall j :: 0 <= j < k ==> !Harmful(crs, ss[j], acts[j])
      decreases |acts| - k
    {
      k := k + 1;
    }
  }

  /**
    Two runs in which it happens: because the delete names only the key, a Backup called `restore-x` that
    is about to delete its legacy ConfigMap deletes the live ConfigMap of the Restore `x`
    instead if, in between, somebody deleted the old object or took its owner away and the
    Restore's reconciler created or adopted it.
  */
  lemma DeleteRace(x: string, ns: string, orphan: bool)
    returns (crs: seq<Owner>, ss: seq<Cluster>, acts: seq<Action>)
    ensures crs == [Owner(1, Backup, ns, "restore-" + x, None), Owner(2, Restore, ns, x, None)] && Distinct(crs)
    ensures IsRun(crs, ss, acts) && |acts| == 5 && acts[4] == Remove(0)
    ensures var key := Place(ConfigMap, ns, OwnedName(Restore, x));
            acts[1] == Outside(if orphan then EnvUpdate(key, None, 0) else EnvDelete(key)) &&
            ss[4].objs.Keys == {key} && ss[4].objs[key].controller == Some(2)
    ensures ss[5].objs == map[]
  {
    crs := [Owner(1, Backup, ns, "restore-" + x, None), Owner(2, Restore, ns, x, None)];
    LegacyMeetsLive(x);
    var key := Place(ConfigMap, ns, OwnedName(Restore, x));
    if orphan {
      ss, acts := OrphanRaceOn(crs, key);
    } else {
      ss, acts := RaceOn(crs, key);
    }
  }

  /** The race after a delete, for any two CRs and a key that one may delete and the other may create. */
  lemma RaceOn(crs: seq<Owner>, key: Place) returns (ss: seq<Cluster>, acts: seq<Action>)
    requires |crs| == 2 && MayDelete(crs[0], key) && MayUpsert(crs[1], key)
    ensures IsRun(crs, ss, acts) && |acts| == 5 && acts[1] == Outside(EnvDelete(key)) && acts[4] == Remove(0)
    ensures ss[4].objs == map[key := Stored(Some(crs[1].uid), 1, 0)]
    ensures ss[5].objs == map[]
  {
    acts := [ReadForDelete(0, key), Outside(EnvDelete(key)), ReadForUpsert(1, key), Write(1, 0), Remove(0)];
    var mine, theirs := Stored(Some(crs[0].uid), 0, 0), Stored(Some(crs[1].uid), 1, 0);
    ss := [
      Cluster(map[key := mine], 1, [Idle, Idle]),
      Cluster(map[key := mine], 1, [Deleting(key), Idle]),
      Cluster(map[], 1, [Deleting(key), Idle]),
      Cluster(map[], 1, [Deleting(key), Upserting(key, None)]),
      Cluster(map[key := theirs], 2, [Deleting(key), Idle]),
      Cluster(map[], 2, [Idle, Idle])
    ];
    assert ss[1] == Apply(crs, ss[0], acts[0]);
    assert ss[2] == Apply(crs, ss[1], acts[1]);
    assert ss[3] == Apply(crs, ss[2], acts[2]);
    assert ss[4] == Apply(crs, ss[3], acts[3]);
    assert ss[5] == Apply(crs, ss[4], acts[4]);
  }

  /** The race after somebody dropped the owner reference. */
  lemma OrphanRaceOn(crs: seq<Owner>, key: Place) returns (ss: seq<Cluster>, acts: seq<Action>)
    requires |crs| == 2 && MayDelete(crs[0], key) && MayUpsert(crs[1], key)
    ensures IsRun(crs, ss, acts) && |acts| == 5 && acts[1] == Outside(EnvUpdate(key, None, 0)) && acts[4] == Remove(0)
    ensures ss[4].objs == map[key := Stored(Some(crs[1].uid), 2, 0)]
    ensures ss[5].objs == map[]
  {
    acts := [ReadForDelete(0, key), Outside(EnvUpdate(key, None, 0)), ReadForUpsert(1, key), Write(1, 0), Remove(0)];
    var mine, orphan := Stored(Some(crs[0].uid), 0, 0), Stored(None, 1, 0);
    var theirs := Stored(Some(crs[1].uid), 2, 0);
    ss := [
      Cluster(map[key := mine], 1, [Idle, Idle]),
      Cluster(map[key := mine], 1, [Deleting(key), Idle]),
      Cluster(map[key := orphan], 2, [Deleting(key), Idle]),
      Cluster(map[key := orphan], 2, [Deleting(key), Upserting(key, Some(orphan))]),
      Cluster(map[key := theirs], 3, [Deleting(key), Idle]),
      Cluster(map[], 3, [Idle, Idle])
    ];
    assert ss[1] == Apply(crs, ss[0], acts[0]);
    assert ss[2] == Apply(crs, ss[1], acts[1]);
    assert ss[3] == Apply(crs, ss[2], acts[2]);
    assert ss[4] == Apply(crs, ss[3], acts[3]);
    assert ss[5] == Apply(crs, ss[4], acts[4]);
  }
}
