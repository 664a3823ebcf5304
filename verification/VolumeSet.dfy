/** The set of volume services: one pass creates or updates those of the spec and deletes the others. */
module VolumeSet {
  import opened Common
  import opened Names

  datatype OwnerRef = OwnerRef(kind: string, name: string, controller: bool)

  datatype Volume = Volume(backend: string, owners: seq<OwnerRef>, deleting: bool, spec: string)

  type Volumes = map<string, Volume>

  /** `GetOwningCinderName`: the first reference to a Cinder, or the empty name. */
  function OwningCinder(owners: seq<OwnerRef>): (name: string) {
    if owners == [] then ""
    else if owners[0].kind == "Cinder" then owners[0].name
    else OwningCinder(owners[1..])
  }

  predicate IsCinder(o: OwnerRef, cinder: string) { o.kind == "Cinder" && o.name == cinder }

  predicate ControlledElsewhere(owners: seq<OwnerRef>, cinder: string) {
    exists i :: 0 <= i < |owners| && owners[i].controller && !IsCinder(owners[i], cinder)
  }

  /** `SetControllerReference`: the reference is replaced where there is one, and appended otherwise. */
  function WithController(owners: seq<OwnerRef>, cinder: string): (r: seq<OwnerRef>) {
    if owners == [] then [OwnerRef("Cinder", cinder, true)]
    else if IsCinder(owners[0], cinder) then [OwnerRef("Cinder", cinder, true)] + owners[1..]
    else [owners[0]] + WithController(owners[1..], cinder)
  }

  function VolumeName(cinder: string, key: string): (name: string) {
    ServiceName(cinder, VolumeOf(key))
  }

  function SpecNames(cinder: string, keys: set<string>): (names: set<string>) {
    set k | k in keys :: VolumeName(cinder, k)
  }

  function KeyOf(cinder: string, name: string): (key: string)
    requires |name| >= |cinder| + 8
  {
    name[|cinder| + 8..]
  }

  lemma KeyOfName(cinder: string, key: string)
    ensures |VolumeName(cinder, key)| == |cinder| + 8 + |key| && KeyOf(cinder, VolumeName(cinder, key)) == key
  {
    assert VolumeName(cinder, key) == cinder + "-volume-" + key;
  }

  /** The object after CreateOrUpdate; an update keeps the labels that the object has. */
  function Updated(vs: Volumes, cinder: string, key: string, spec: string): (v: Volume) {
    var name := VolumeName(cinder, key);
    if name in vs then vs[name].(owners := WithController(vs[name].owners, cinder), spec := spec)
    else Volume(key, WithController([], cinder), false, spec)
  }

  /** The volumes after those of `keys` were created or updated. */
  function Deployed(vs: Volumes, cinder: string, specs: map<string, string>, keys: set<string>): (r: Volumes)
    requires keys <= specs.Keys
  {
    KeysOfNames(cinder);
    map n | n in vs.Keys + SpecNames(cinder, keys) ::
      if n in SpecNames(cinder, keys) then Updated(vs, cinder, KeyOf(cinder, n), specs[KeyOf(cinder, n)]) else vs[n]
  }

  lemma KeysOfNames(cinder: string)
    ensures forall k :: |VolumeName(cinder, k)| == |cinder| + 8 + |k| && KeyOf(cinder, VolumeName(cinder, k)) == k
  {
    forall k ensures |VolumeName(cinder, k)| == |cinder| + 8 + |k| && KeyOf(cinder, VolumeName(cinder, k)) == k {
      KeyOfName(cinder, k);
    }
  }

  predicate Unwanted(v: Volume, cinder: string, keys: set<string>) {
    OwningCinder(v.owners) == cinder && v.backend !in keys
  }

  /** The volumes after the cleanup has visited those named in `names`. */
  function Cleaned(vs: Volumes, cinder: string, keys: set<string>, names: set<string>): (r: Volumes) {
    map n | n in vs ::
      if n in names && Unwanted(vs[n], cinder, keys) then vs[n].(deleting := true) else vs[n]
  }

  /** The volumes after a completed pass. */
  function Reconciled(vs: Volumes, cinder: string, specs: map<string, string>): (r: Volumes) {
    var mid := Deployed(vs, cinder, specs, specs.Keys);
    Cleaned(mid, cinder, specs.Keys, mid.Keys)
  }

  function SetOf(keys: seq<string>): (r: set<string>) { set k | k in keys }

  lemma ListsAll(keys: seq<string>, s: set<string>)
    requires Lists(keys, s)
    ensures SetOf(keys) == s
  {
  }

  lemma SetOfOneMore(keys: seq<string>, i: nat)
    requires i < |keys|
    ensures SetOf(keys[..i + 1]) == SetOf(keys[..i]) + {keys[i]}
  {
    assert keys[..i + 1] == keys[..i] + [keys[i]];
  }

  lemma DeployStep(vs: Volumes, cinder: string, specs: map<string, string>, keys: seq<string>, i: nat)
    requires Lists(keys, specs.Keys) && i < |keys| && SetOf(keys[..i]) <= specs.Keys
    ensures var mid, k := Deployed(vs, cinder, specs, SetOf(keys[..i])), keys[i];
            && k in specs && SetOf(keys[..i + 1]) <= specs.Keys
            && Deployed(vs, cinder, specs, SetOf(keys[..i + 1]))
                == mid[VolumeName(cinder, k) := Updated(mid, cinder, k, specs[k])]
            && (forall broken :: Fails(mid, cinder, k, broken) <==> Fails(vs, cinder, k, broken))
  {
    SetOfOneMore(keys, i);
    assert keys[i] in SetOf(keys) && keys[i] !in SetOf(keys[..i]);
    DeployOneMore(vs, cinder, specs, SetOf(keys[..i]), keys[i]);
    SameObject(vs, cinder, specs, SetOf(keys[..i]), keys[i]);
  }

  lemma CleanStep(vs: Volumes, cinder: string, keys: set<string>, listed: seq<string>, i: nat)
    requires i < |listed| && listed[i] in vs
    ensures var mid, n := Cleaned(vs, cinder, keys, SetOf(listed[..i])), listed[i];
            && n in mid && (Unwanted(mid[n], cinder, keys) <==> Unwanted(vs[n], cinder, keys))
            && Cleaned(vs, cinder, keys, SetOf(listed[..i + 1]))
               == (if Unwanted(mid[n], cinder, keys) && !mid[n].deleting then mid[n := mid[n].(deleting := true)]
                   else mid)
  {
    SetOfOneMore(listed, i);
  }

  lemma DeployOneMore(vs: Volumes, cinder: string, specs: map<string, string>, keys: set<string>, k: string)
    requires keys <= specs.Keys && k in specs && k !in keys
    ensures var mid := Deployed(vs, cinder, specs, keys);
            Deployed(vs, cinder, specs, keys + {k}) == mid[VolumeName(cinder, k) := Updated(mid, cinder, k, specs[k])]
  {
    var mid, more := Deployed(vs, cinder, specs, keys), Deployed(vs, cinder, specs, keys + {k});
    var name := VolumeName(cinder, k);
    KeysOfNames(cinder);
    assert SpecNames(cinder, keys + {k}) == SpecNames(cinder, keys) + {name};
    assert name !in SpecNames(cinder, keys);
    assert Updated(mid, cinder, k, specs[k]) == Updated(vs, cinder, k, specs[k]);
    assert more.Keys == mid.Keys + {name};
    forall n | n in more ensures more[n] == mid[name := Updated(mid, cinder, k, specs[k])][n] {
    }
  }

  /** Creating or updating the volume of `k` cannot succeed. */
  predicate Fails(vs: Volumes, cinder: string, k: string, broken: set<string>) {
    var n := VolumeName(cinder, k);
    n in broken || (n in vs && ControlledElsewhere(vs[n].owners, cinder))
  }

  lemma SameObject(vs: Volumes, cinder: string, specs: map<string, string>, keys: set<string>, k: string)
    requires keys <= specs.Keys && k !in keys
    ensures var n, mid := VolumeName(cinder, k), Deployed(vs, cinder, specs, keys);
            (n in mid <==> n in vs) && (n in vs ==> mid[n] == vs[n])
  {
    KeysOfNames(cinder);
  }

  /** The volume of a key exists with the spec that the key has, and this Cinder, and nothing else, controls it. */
  predicate Carries(vs: Volumes, cinder: string, k: string, spec: string) {
    var n := VolumeName(cinder, k);
    && n in vs && vs[n].spec == spec
    && OwnerRef("Cinder", cinder, true) in vs[n].owners
    && forall o <- vs[n].owners :: o.controller ==> o.kind == "Cinder" && o.name == cinder
  }

  lemma {:induction false} OnlyController(owners: seq<OwnerRef>, cinder: string)
    requires !ControlledElsewhere(owners, cinder)
    ensures var r := WithController(owners, cinder);
            && OwnerRef("Cinder", cinder, true) in r
            && forall o <- r :: o.controller ==> o.kind == "Cinder" && o.name == cinder
  {
    if owners != [] {
      assert forall i :: 0 < i < |owners| ==> owners[1..][i - 1] == owners[i];
      assert owners[0].controller ==> IsCinder(owners[0], cinder);
      if !IsCinder(owners[0], cinder) {
        assert !ControlledElsewhere(owners[1..], cinder) by {
          forall i | 0 <= i < |owners[1..]| && owners[1..][i].controller ensures IsCinder(owners[1..][i], cinder) {
            assert owners[1..][i] == owners[i + 1];
          }
        }
        OnlyController(owners[1..], cinder);
      }
    }
  }

  /** The references to anything but this Cinder, in their order. */
  function Others(owners: seq<OwnerRef>, cinder: string): (r: seq<OwnerRef>) {
    if owners == [] then []
    else (if IsCinder(owners[0], cinder) then [] else [owners[0]]) + Others(owners[1..], cinder)
  }

  /** Taking control keeps all other references. */
  lemma {:induction false} OthersKept(owners: seq<OwnerRef>, cinder: string)
    ensures Others(WithController(owners, cinder), cinder) == Others(owners, cinder)
  {
    var r := WithController(owners, cinder);
    if owners == [] {
      assert r[1..] == [];
    } else if IsCinder(owners[0], cinder) {
      assert r[1..] == owners[1..];
    } else {
      OthersKept(owners[1..], cinder);
      assert r[1..] == WithController(owners[1..], cinder);
    }
  }

  lemma DeployedCarry(vs: Volumes, cinder: string, specs: map<string, string>)
    requires forall k <- specs :: !Fails(vs, cinder, k, {})
    ensures forall k <- specs :: Carries(Deployed(vs, cinder, specs, specs.Keys), cinder, k, specs[k])
  {
    KeysOfNames(cinder);
    forall k <- specs ensures Carries(Deployed(vs, cinder, specs, specs.Keys), cinder, k, specs[k]) {
      var n := VolumeName(cinder, k);
      OnlyController(if n in vs then vs[n].owners else [], cinder);
    }
  }

  lemma CleanedCarry(vs: Volumes, cinder: string, specs: map<string, string>, names: set<string>)
    requires forall k <- specs :: Carries(vs, cinder, k, specs[k])
    ensures forall k <- specs :: Carries(Cleaned(vs, cinder, specs.Keys, names), cinder, k, specs[k])
  {
  }

  /** The objects of one namespace. */
  class Namespace {
    var volumes: Volumes

    constructor (vs: Volumes)
      ensures volumes == vs
    {
      volumes := vs;
    }

    /** Fails, changing nothing, when another object controls the volume or the API call fails. */
    method VolumeDeploymentCreateOrUpdate(cinder: string, key: string, spec: string, broken: bool) returns (ok: bool)
      modifies this
      ensures var n := VolumeName(cinder, key);
              ok == !(broken || (n in old(volumes) && ControlledElsewhere(old(volumes)[n].owners, cinder)))
      ensures volumes == if ok then old(volumes)[VolumeName(cinder, key) := Updated(old(volumes), cinder, key, spec)]
                         else old(volumes)
    {
      var n := VolumeName(cinder, key);
      ok := !(broken || (n in volumes && ControlledElsewhere(volumes[n].owners, cinder)));
      if ok {
        volumes := volumes[n := Updated(volumes, cinder, key, spec)];
      }
    }

    /** The volumes of the spec in the order of their keys, up to the first failure. */
    method DeployVolumes(cinder: string, keys: seq<string>, specs: map<string, string>, broken: set<string>)
      returns (ok: bool, done: nat)
      requires Lists(keys, specs.Keys)
      modifies this
      ensures done <= |keys| && (ok <==> done == |keys|)
      ensures SetOf(keys[..done]) <= specs.Keys
      ensures volumes == Deployed(old(volumes), cinder, specs, SetOf(keys[..done]))
      ensures !ok ==> Fails(old(volumes), cinder, keys[done], broken)
      ensures forall i :: 0 <= i < done ==> !Fails(old(volumes), cinder, keys[i], broken)
    {
      ok, done := true, 0;
      assert Deployed(volumes, cinder, specs, {}) == volumes;
      while done < |keys|
        invariant done <= |keys| && ok
        invariant SetOf(keys[..done]) <= specs.Keys
        invariant volumes == Deployed(old(volumes), cinder, specs, SetOf(keys[..done]))
        invariant forall i :: 0 <= i < done ==> !Fails(old(volumes), cinder, keys[i], broken)
      {
        DeployStep(old(volumes), cinder, specs, keys, done);
        var k := keys[done];
        assert Fails(volumes, cinder, k, broken) <==> Fails(old(volumes), cinder, k, broken);
        ok := VolumeDeploymentCreateOrUpdate(cinder, k, specs[k], VolumeName(cinder, k) in broken);
        if !ok {
          return;
        }
        done := done + 1;
      }
      assert keys[..done] == keys;
    }

    /** Deletes the volumes of this Cinder whose backend left the spec, up to the first failure. */
    method VolumeCleanupDeployments(cinder: string, listed: seq<string>, keys: set<string>, broken: set<string>)
      returns (ok: bool, done: nat)
      requires SetOf(listed) <= volumes.Keys
      modifies this
      ensures done <= |listed| && (ok <==> done == |listed|)
      ensures volumes == Cleaned(old(volumes), cinder, keys, SetOf(listed[..done]))
      ensures !ok ==> listed[done] in broken
    {
      ok, done := true, 0;
      assert Cleaned(volumes, cinder, keys, {}) == volumes;
      while done < |listed|
        invariant done <= |listed| && ok
        invariant volumes == Cleaned(old(volumes), cinder, keys, SetOf(listed[..done]))
      {
        var n := listed[done];
        assert n in SetOf(listed);
        CleanStep(old(volumes), cinder, keys, listed, done);
        var v := volumes[n];
        if OwningCinder(v.owners) == cinder && v.backend !in keys && !v.deleting {
          if n in broken {
            ok := false;
            return;
          }
          volumes := volumes[n := v.(deleting := true)];
        }
        done := done + 1;
      }
    }

    /** The API server lists the volumes in some order. */
    method ListVolumes() returns (listed: seq<string>)
      ensures SetOf(listed) == volumes.Keys
    {
      listed := [];
      var rest := volumes.Keys;
      while rest != {}
        invariant rest <= volumes.Keys && SetOf(listed) == volumes.Keys - rest
        decreases |rest|
      {
        var n :| n in rest;
        rest := rest - {n};
        assert SetOf(listed + [n]) == SetOf(listed) + {n};
        listed := listed + [n];
      }
    }

    /** The part of a pass that concerns volumes; a list that cannot be read ends it without an error. */
    method ReconcileVolumes(cinder: string, keys: seq<string>, specs: map<string, string>, broken: set<string>,
        listable: bool)
      returns (ok: bool)
      requires Lists(keys, specs.Keys)
      modifies this
      ensures ok && listable ==> volumes == Reconciled(old(volumes), cinder, specs)
      ensures ok && !listable ==> volumes == Deployed(old(volumes), cinder, specs, specs.Keys)
      ensures ok || broken != {} || exists k <- specs :: Fails(old(volumes), cinder, k, broken)
      ensures ok ==> forall k <- specs :: Carries(volumes, cinder, k, specs[k])
    {
      var done;
      ListsAll(keys, specs.Keys);
      ok, done := DeployVolumes(cinder, keys, specs, broken);
      if !ok {
        assert keys[done] in SetOf(keys);
        return;
      }
      assert keys[..done] == keys;
      ghost var mid := volumes;
      forall k <- specs ensures !Fails(old(volumes), cinder, k, broken) { assert k in SetOf(keys); }
      DeployedCarry(old(volumes), cinder, specs);
      if listable {
        var listed := ListVolumes();
        ok, done := VolumeCleanupDeployments(cinder, listed, specs.Keys, broken);
        assert ok ==> listed[..done] == listed;
        CleanedCarry(mid, cinder, specs, SetOf(listed[..done]));
      }
    }
  }

  // ---------------------------------------------------------------- what a completed pass achieves

  predicate LiveAt(vs: Volumes, cinder: string, n: string) {
    n in vs && !vs[n].deleting && OwningCinder(vs[n].owners) == cinder
  }

  /** The live volumes of this Cinder. */
  function LiveOwned(vs: Volumes, cinder: string): (names: set<string>) {
    set n | n in vs && LiveAt(vs, cinder, n)
  }

  predicate OwnerFits(owners: seq<OwnerRef>, cinder: string) {
    OwningCinder(owners) == cinder || forall i :: 0 <= i < |owners| ==> owners[i].kind != "Cinder"
  }

  lemma {:induction false} OwnerAfter(owners: seq<OwnerRef>, cinder: string)
    ensures OwningCinder(WithController(owners, cinder)) == cinder <==> OwnerFits(owners, cinder)
  {
    if owners != [] && owners[0].kind != "Cinder" {
      OwnerAfter(owners[1..], cinder);
      assert WithController(owners, cinder)[1..] == WithController(owners[1..], cinder);
      assert forall i :: 0 < i < |owners| ==> owners[i] == owners[1..][i - 1];
    }
  }

  lemma {:induction false} ControllerTwice(owners: seq<OwnerRef>, cinder: string)
    ensures WithController(WithController(owners, cinder), cinder) == WithController(owners, cinder)
  {
    if owners != [] && !IsCinder(owners[0], cinder) {
      ControllerTwice(owners[1..], cinder);
      assert WithController(owners, cinder)[1..] == WithController(owners[1..], cinder);
    } else if owners != [] {
      assert WithController(owners, cinder)[1..] == owners[1..];
    }
  }

  lemma DeployedAt(vs: Volumes, cinder: string, specs: map<string, string>, n: string)
    ensures var r := Deployed(vs, cinder, specs, specs.Keys);
            && (n in r <==> n in vs || n in SpecNames(cinder, specs.Keys))
            && (n in vs && n !in SpecNames(cinder, specs.Keys) ==> r[n] == vs[n])
            && (n in vs && n in SpecNames(cinder, specs.Keys) ==>
                  r[n].deleting == vs[n].deleting && r[n].backend == vs[n].backend
                  && (OwningCinder(r[n].owners) == cinder <==> OwnerFits(vs[n].owners, cinder)))
            && (n !in vs && n in SpecNames(cinder, specs.Keys) ==>
                  !r[n].deleting && r[n].backend in specs && OwningCinder(r[n].owners) == cinder)
  {
    KeysOfNames(cinder);
    OwnerAfter([], cinder);
    if n in vs { OwnerAfter(vs[n].owners, cinder); }
  }

  predicate FitsAt(vs: Volumes, cinder: string, keys: set<string>, n: string) {
    n in vs ==>
      if n in SpecNames(cinder, keys) then !vs[n].deleting && vs[n].backend in keys && OwnerFits(vs[n].owners, cinder)
      else LiveAt(vs, cinder, n) ==> vs[n].backend !in keys
  }

  /** What is known before the pass: no volume of the spec is being deleted, labelled with a backend that is not
      in the spec or owned by another Cinder, and no other live volume of this Cinder is labelled with a backend
      of the spec. */
  predicate Fits(vs: Volumes, cinder: string, keys: set<string>) {
    forall n <- vs :: FitsAt(vs, cinder, keys, n)
  }

  lemma ExactAt(vs: Volumes, cinder: string, specs: map<string, string>, n: string)
    ensures (LiveAt(Reconciled(vs, cinder, specs), cinder, n) <==> n in SpecNames(cinder, specs.Keys))
            <==> FitsAt(vs, cinder, specs.Keys, n)
  {
    DeployedAt(vs, cinder, specs, n);
  }

  /** After a completed pass the live volumes of this Cinder are those of the spec, if and only if the volumes
      fitted before it. Volumes of other owners are unchanged in every case, and nothing is dropped. */
  lemma VolumeSetExact(vs: Volumes, cinder: string, specs: map<string, string>)
    ensures var r := Reconciled(vs, cinder, specs);
            && (LiveOwned(r, cinder) == SpecNames(cinder, specs.Keys) <==> Fits(vs, cinder, specs.Keys))
            && (forall n <- vs :: n in r)
            && (forall n <- vs :: n !in SpecNames(cinder, specs.Keys) && OwningCinder(vs[n].owners) != cinder ==>
                r[n] == vs[n])
  {
    var r, names := Reconciled(vs, cinder, specs), SpecNames(cinder, specs.Keys);
    forall n: string
      ensures (n in LiveOwned(r, cinder) <==> n in names) <==> FitsAt(vs, cinder, specs.Keys, n)
    {
      ExactAt(vs, cinder, specs, n);
    }
    forall n <- vs ensures n in r && (n !in names && OwningCinder(vs[n].owners) != cinder ==> r[n] == vs[n]) {
      DeployedAt(vs, cinder, specs, n);
    }
    if LiveOwned(r, cinder) == names {
      forall n <- vs ensures FitsAt(vs, cinder, specs.Keys, n) {
        assert n in LiveOwned(r, cinder) <==> n in names;
      }
    } else if Fits(vs, cinder, specs.Keys) {
      forall n: string ensures n in LiveOwned(r, cinder) <==> n in names {
        assert FitsAt(vs, cinder, specs.Keys, n);
      }
      assert false;
    }
  }

  /** A completed pass leaves every volume of the spec with the spec that its key has and with all its other owners, and
      a volume that it creates is labelled with its key. */
  lemma VolumesCarrySpec(vs: Volumes, cinder: string, specs: map<string, string>, k: string)
    requires k in specs
    ensures var n, r := VolumeName(cinder, k), Reconciled(vs, cinder, specs);
            && n in r && r[n].spec == specs[k]
            && (n !in vs ==> r[n].backend == k && !r[n].deleting && Others(r[n].owners, cinder) == [])
            && (n in vs ==>
                  r[n].backend == vs[n].backend && Others(r[n].owners, cinder) == Others(vs[n].owners, cinder))
  {
    var n := VolumeName(cinder, k);
    KeysOfNames(cinder);
    OthersKept(if n in vs then vs[n].owners else [], cinder);
    OwnerAfter([], cinder);
  }

  /** The names of the spec are in bijection with its keys. */
  lemma NamesAreKeys(cinder: string, keys: set<string>)
    ensures |SpecNames(cinder, keys)| == |keys|
    ensures forall k :: VolumeName(cinder, k) in SpecNames(cinder, keys) <==> k in keys
    decreases |keys|
  {
    KeysOfNames(cinder);
    if k :| k in keys {
      NamesAreKeys(cinder, keys - {k});
      assert SpecNames(cinder, keys) == SpecNames(cinder, keys - {k}) + {VolumeName(cinder, k)};
    }
  }

  /** A completed pass leaves nothing for the next one to do. */
  lemma PassIsFixpoint(vs: Volumes, cinder: string, specs: map<string, string>)
    ensures var r := Reconciled(vs, cinder, specs); Reconciled(r, cinder, specs) == r
  {
    var r := Reconciled(vs, cinder, specs);
    var rr := Reconciled(r, cinder, specs);
    forall n | n in r ensures n in rr && rr[n] == r[n] {
      FixedAt(vs, cinder, specs, n);
    }
    forall n | n in rr ensures n in r {
      DeployedAt(r, cinder, specs, n);
      DeployedAt(vs, cinder, specs, n);
    }
  }

  lemma FixedAt(vs: Volumes, cinder: string, specs: map<string, string>, n: string)
    requires n in Reconciled(vs, cinder, specs)
    ensures var r := Reconciled(vs, cinder, specs);
            n in Reconciled(r, cinder, specs) && Reconciled(r, cinder, specs)[n] == r[n]
  {
    KeysOfNames(cinder);
    ControllerTwice([], cinder);
    if n in vs { ControllerTwice(vs[n].owners, cinder); }
  }
}
