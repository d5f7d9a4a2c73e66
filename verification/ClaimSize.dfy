/** The CR's own claim over its whole life: pvc.go and its use in ensureOwned. */
module ClaimSize {
  import opened Wrappers

  const GI := 1073741824

  /** `size` 0 stands for an unset quantity. */
  datatype Persistence = Persistence(size: nat, accessModes: seq<string>, storageClass: string)

  function EffectiveSize(p: Option<Persistence>): nat {
    if p.Some? && p.value.size != 0 then p.value.size else GI
  }

  datatype Spec = Spec(accessModes: seq<string>, storageClass: Option<string>, request: Option<nat>)

  function NewSpec(p: Option<Persistence>): Spec {
    Spec(
      if p.Some? && p.value.accessModes != [] then p.value.accessModes else ["ReadWriteOnce"],
      if p.Some? && p.value.storageClass != "" then Some(p.value.storageClass) else None,
      Some(EffectiveSize(p)))
  }

  /** A claim object; the API server stamps its creation when it is first stored. */
  class Claim {
    var created: bool
    var labels: int
    var spec: Spec

    constructor ()
      ensures !created
    {
      created, labels, spec := false, 0, Spec([], None, None);
    }

    /** MutatePVC: write the whole spec. */
    method Mutate(p: Option<Persistence>, newLabels: int)
      modifies this
      ensures spec == NewSpec(p) && labels == newLabels && created == old(created)
    {
      var modes := ["ReadWriteOnce"];
      if p.Some? && p.value.accessModes != [] {
        modes := p.value.accessModes;
      }
      labels := newLabels;
      spec := Spec(modes, None, Some(EffectiveSize(p)));
      if p.Some? && p.value.storageClass != "" {
        spec := spec.(storageClass := Some(p.value.storageClass));
      }
    }

    /** ExpandPVC: raise the request, never lower it. */
    method Expand(p: Option<Persistence>)
      modifies this`spec
      ensures spec == Expanded(old(spec), p)
    {
      var want := EffectiveSize(p);
      if spec.request.Some? && want <= spec.request.value {
        return;
      }
      spec := spec.(request := Some(want));
    }

    /** One successful pass of ensureOwned over the claim. */
    method Ensure(p: Option<Persistence>, newLabels: int)
      modifies this
      ensures created && labels == newLabels
      ensures Some(spec) == Some(After(if old(created) then Some(old(spec)) else None, p))
    {
      if created {
        labels := newLabels;
        Expand(p);
      } else {
        Mutate(p, newLabels);
        created := true;
      }
    }
  }

  function Expanded(s: Spec, p: Option<Persistence>): Spec {
    if s.request.Some? && EffectiveSize(p) <= s.request.value then s else s.(request := Some(EffectiveSize(p)))
  }

  function After(s: Option<Spec>, p: Option<Persistence>): Spec {
    if s.Some? then Expanded(s.value, p) else NewSpec(p)
  }

  /** The claim after a sequence of reconciles, the first of which created it. */
  function Life(ps: seq<Option<Persistence>>): Spec
    requires ps != []
  {
    var n := |ps| - 1;
    if n == 0 then NewSpec(ps[0]) else Expanded(Life(ps[..n]), ps[n])
  }

  /** What a spec asks for: its size, or 1Gi if it names none. */
  ghost predicate Asks(p: Option<Persistence>, size: nat) {
    size == if p.Some? && p.value.size > 0 then p.value.size else 1024 * 1024 * 1024
  }

  /** Access modes and storage class of a spec, ReadWriteOnce and the cluster's default if it names none. */
  ghost predicate MadeFor(p: Option<Persistence>, s: Spec) {
    && (p.Some? && p.value.accessModes != [] ==> s.accessModes == p.value.accessModes)
    && (p.None? || p.value.accessModes == [] ==> s.accessModes == ["ReadWriteOnce"])
    && (s.storageClass.Some? <==> p.Some? && p.value.storageClass != "")
    && (s.storageClass.Some? ==> s.storageClass.value == p.value.storageClass)
  }

  /**
    Whatever sizes are asked for over time, the request is the largest of them, and access modes
    and storage class are those of the creation.
  */
  lemma {:induction false} RequestIsTheMaximum(ps: seq<Option<Persistence>>)
    requires ps != []
    ensures var s := Life(ps);
            && s.request.Some? && MadeFor(ps[0], s)
            && (forall i, size: nat :: 0 <= i < |ps| && Asks(ps[i], size) ==> size <= s.request.value)
            && exists i :: 0 <= i < |ps| && Asks(ps[i], s.request.value)
  {
    var n := |ps| - 1;
    if n > 0 {
      RequestIsTheMaximum(ps[..n]);
      var before := Life(ps[..n]);
      var i :| 0 <= i < n && Asks(ps[..n][i], before.request.value);
      assert Asks(ps[i], before.request.value) && Asks(ps[n], EffectiveSize(ps[n]));
      forall j, size: nat | 0 <= j < |ps| && Asks(ps[j], size) ensures size <= Life(ps).request.value {
        assert j < n ==> ps[..n][j] == ps[j];
      }
    } else {
      assert Asks(ps[0], Life(ps).request.value);
    }
  }
}
