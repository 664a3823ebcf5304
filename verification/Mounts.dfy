/** The volumes of a pod and what its containers mount: the lists that are built in parallel from the same extra
    mounts, and the closure of the one over the other. */
module Mounts {
  import opened Common

  datatype Source =
    | HostPath(path: string, create: bool)
    | SecretSource(secret: string, mode: nat)
    | WritableDir
    | Given(id: nat)

  datatype Volume = Volume(name: string, source: Source)

  datatype Mount = Mount(name: string, path: string, subPath: string, readOnly: bool)

  /** Volumes and mounts that a user adds, and the services that they are for. */
  datatype Entry = Entry(volumes: seq<Volume>, mounts: seq<Mount>, propagation: seq<string>)

  /** How many copies of an entry the library propagates to a group of services. */
  type Filter = (Entry, seq<string>) -> nat

  /** The name and the path of the writable directory that every container gets are constants of a library. */
  datatype Tmp = Tmp(name: string, path: string)

  // ---------------------------------------------------------------- the fixed parts

  function CommonVolumes(name: string, tmp: Tmp): (vs: seq<Volume>) {
    [Volume("etc-machine-id", HostPath("/etc/machine-id", false)),
     Volume("scripts", SecretSource(name + "-scripts", 0x1ed)),
     Volume("config-data", SecretSource(name + "-config-data", 0x120)),
     Volume(tmp.name, WritableDir)]
  }

  function StorageVolumes(): (vs: seq<Volume>) {
    [Volume("var-lib-cinder", HostPath("/var/lib/cinder", true)),
     Volume("etc-nvme", HostPath("/etc/nvme", true)),
     Volume("etc-iscsi", HostPath("/etc/iscsi", false)),
     Volume("dev", HostPath("/dev", false)),
     Volume("lib-modules", HostPath("/lib/modules", false)),
     Volume("run", HostPath("/run", false)),
     Volume("sys", HostPath("/sys", false)),
     Volume("var-locks-brick", HostPath("/var/locks/openstack/os-brick", true)),
     Volume("var-locks-cinder", HostPath("/var/locks/openstack/cinder", true))]
  }

  function CommonMounts(tmp: Tmp): (ms: seq<Mount>) {
    [Mount("etc-machine-id", "/etc/machine-id", "", true),
     Mount("scripts", "/usr/local/bin/container-scripts", "", true),
     Mount("config-data", "/etc/my.cnf", "my.cnf", true),
     Mount(tmp.name, tmp.path, "", false)]
  }

  function StorageMounts(): (ms: seq<Mount>) {
    [Mount("var-lib-cinder", "/var/lib/cinder", "", false),
     Mount("etc-nvme", "/etc/nvme", "", false),
     Mount("etc-iscsi", "/etc/iscsi", "", true),
     Mount("dev", "/dev", "", false),
     Mount("lib-modules", "/lib/modules", "", true),
     Mount("run", "/run", "", false),
     Mount("sys", "/sys", "", false),
     Mount("var-locks-brick", "/var/locks/openstack/os-brick", "", false),
     Mount("var-locks-cinder", "/var/locks/openstack/cinder", "", false)]
  }

  function BaseVolumes(name: string, storageSvc: bool, tmp: Tmp): (vs: seq<Volume>) {
    CommonVolumes(name, tmp) + if storageSvc then StorageVolumes() else []
  }

  function BaseMounts(storageSvc: bool, tmp: Tmp): (ms: seq<Mount>) {
    CommonMounts(tmp) + if storageSvc then StorageMounts() else []
  }

  function RunOnHost(path: string): (m: Mount) {
    Mount("scripts", path, "run-on-host", false)
  }

  // ---------------------------------------------------------------- the extra parts

  function Copies(e: Entry, n: nat): (es: seq<Entry>) {
    seq(n, i => e)
  }

  /** `CinderExtraVolMounts.Propagate`. */
  function Propagated(entries: seq<Entry>, svc: seq<string>, filter: Filter): (es: seq<Entry>) {
    if entries == [] then []
    else
      var e := entries[|entries| - 1];
      Propagated(entries[..|entries| - 1], svc, filter) + Copies(e, filter(e, svc))
  }

  function Selected(extraVol: seq<seq<Entry>>, svc: seq<string>, filter: Filter): (es: seq<Entry>) {
    if extraVol == [] then []
    else Selected(extraVol[..|extraVol| - 1], svc, filter) + Propagated(extraVol[|extraVol| - 1], svc, filter)
  }

  function VolumesOf(es: seq<Entry>): (vs: seq<Volume>) {
    if es == [] then [] else VolumesOf(es[..|es| - 1]) + es[|es| - 1].volumes
  }

  function MountsOf(es: seq<Entry>): (ms: seq<Mount>) {
    if es == [] then [] else MountsOf(es[..|es| - 1]) + es[|es| - 1].mounts
  }

  lemma {:induction false} VolumesAppend(a: seq<Entry>, b: seq<Entry>)
    ensures VolumesOf(a + b) == VolumesOf(a) + VolumesOf(b)
  {
    if b == [] {
      assert a + b == a;
    } else {
      var n := |b| - 1;
      VolumesAppend(a, b[..n]);
      assert (a + b)[..|a + b| - 1] == a + b[..n] && (a + b)[|a + b| - 1] == b[n];
      Associates(VolumesOf(a), VolumesOf(b[..n]), b[n].volumes);
    }
  }

  lemma {:induction false} MountsAppend(a: seq<Entry>, b: seq<Entry>)
    ensures MountsOf(a + b) == MountsOf(a) + MountsOf(b)
  {
    if b == [] {
      assert a + b == a;
    } else {
      var n := |b| - 1;
      MountsAppend(a, b[..n]);
      assert (a + b)[..|a + b| - 1] == a + b[..n] && (a + b)[|a + b| - 1] == b[n];
      Associates(MountsOf(a), MountsOf(b[..n]), b[n].mounts);
    }
  }

  lemma OfOneMore(es: seq<Entry>, i: nat)
    requires i < |es|
    ensures VolumesOf(es[..i + 1]) == VolumesOf(es[..i]) + es[i].volumes
    ensures MountsOf(es[..i + 1]) == MountsOf(es[..i]) + es[i].mounts
  {
    assert es[..i + 1][..i] == es[..i];
  }

  lemma SelectedOneMore(extraVol: seq<seq<Entry>>, svc: seq<string>, filter: Filter, i: nat)
    requires i < |extraVol|
    ensures var a, b := Selected(extraVol[..i], svc, filter), Selected(extraVol[..i + 1], svc, filter);
            var es := Propagated(extraVol[i], svc, filter);
            VolumesOf(b) == VolumesOf(a) + VolumesOf(es) && MountsOf(b) == MountsOf(a) + MountsOf(es)
  {
    assert extraVol[..i + 1][..i] == extraVol[..i];
    VolumesAppend(Selected(extraVol[..i], svc, filter), Propagated(extraVol[i], svc, filter));
    MountsAppend(Selected(extraVol[..i], svc, filter), Propagated(extraVol[i], svc, filter));
  }

  // ---------------------------------------------------------------- the methods

  method Propagate(volMounts: seq<Entry>, svc: seq<string>, filter: Filter) returns (vl: seq<Entry>)
    ensures vl == Propagated(volMounts, svc, filter)
  {
    vl := [];
    var i := 0;
    while i < |volMounts|
      invariant 0 <= i <= |volMounts|
      invariant vl == Propagated(volMounts[..i], svc, filter)
    {
      assert volMounts[..i + 1][..i] == volMounts[..i];
      vl := vl + Copies(volMounts[i], filter(volMounts[i], svc));
      i := i + 1;
    }
    assert volMounts[..i] == volMounts;
  }

  /** The volumes of the entries, one by one. */
  method AppendVolumes(start: seq<Volume>, es: seq<Entry>) returns (res: seq<Volume>)
    ensures res == start + VolumesOf(es)
  {
    res := start;
    var i := 0;
    while i < |es|
      invariant 0 <= i <= |es|
      invariant res == start + VolumesOf(es[..i])
    {
      OfOneMore(es, i);
      ghost var before := res;
      var j, vs := 0, es[i].volumes;
      while j < |vs|
        invariant 0 <= j <= |vs|
        invariant res == before + vs[..j]
      {
        res := res + [vs[j]];
        j := j + 1;
      }
      assert vs[..j] == vs;
      i := i + 1;
    }
    assert es[..i] == es;
  }

  method AppendMounts(start: seq<Mount>, es: seq<Entry>) returns (res: seq<Mount>)
    ensures res == start + MountsOf(es)
  {
    res := start;
    var i := 0;
    while i < |es|
      invariant 0 <= i <= |es|
      invariant res == start + MountsOf(es[..i])
    {
      OfOneMore(es, i);
      res := res + es[i].mounts;
      i := i + 1;
    }
    assert es[..i] == es;
  }

  method AppendExtraVolumes(start: seq<Volume>, extraVol: seq<seq<Entry>>, svc: seq<string>, filter: Filter)
      returns (res: seq<Volume>)
    ensures res == start + VolumesOf(Selected(extraVol, svc, filter))
  {
    res := start;
    var i := 0;
    while i < |extraVol|
      invariant 0 <= i <= |extraVol|
      invariant res == start + VolumesOf(Selected(extraVol[..i], svc, filter))
    {
      var es := Propagate(extraVol[i], svc, filter);
      SelectedOneMore(extraVol, svc, filter, i);
      Associates(start, VolumesOf(Selected(extraVol[..i], svc, filter)), VolumesOf(es));
      res := AppendVolumes(res, es);
      i := i + 1;
    }
    assert extraVol[..i] == extraVol;
  }

  method GetVolumes(name: string, storageSvc: bool, extraVol: seq<seq<Entry>>, svc: seq<string>, filter: Filter,
      tmp: Tmp)
    returns (res: seq<Volume>)
    ensures res == AllVolumes(name, storageSvc, extraVol, svc, filter, tmp)
  {
    res := CommonVolumes(name, tmp);
    if storageSvc {
      res := res + StorageVolumes();
    }
    res := AppendExtraVolumes(res, extraVol, svc, filter);
  }

  method AppendExtraMounts(start: seq<Mount>, extraVol: seq<seq<Entry>>, svc: seq<string>, filter: Filter)
      returns (res: seq<Mount>)
    ensures res == start + MountsOf(Selected(extraVol, svc, filter))
  {
    res := start;
    var i := 0;
    while i < |extraVol|
      invariant 0 <= i <= |extraVol|
      invariant res == start + MountsOf(Selected(extraVol[..i], svc, filter))
    {
      var es := Propagate(extraVol[i], svc, filter);
      SelectedOneMore(extraVol, svc, filter, i);
      Associates(start, MountsOf(Selected(extraVol[..i], svc, filter)), MountsOf(es));
      res := AppendMounts(res, es);
      i := i + 1;
    }
    assert extraVol[..i] == extraVol;
  }

  method GetVolumeMounts(storageSvc: bool, extraVol: seq<seq<Entry>>, svc: seq<string>, filter: Filter, tmp: Tmp)
    returns (res: seq<Mount>)
    ensures res == AllMounts(storageSvc, extraVol, svc, filter, tmp)
  {
    res := CommonMounts(tmp);
    if storageSvc {
      res := res + StorageMounts();
    }
    res := AppendExtraMounts(res, extraVol, svc, filter);
  }

  // ---------------------------------------------------------------- closure

  function AllVolumes(name: string, storageSvc: bool, extraVol: seq<seq<Entry>>, svc: seq<string>, filter: Filter,
      tmp: Tmp): (vs: seq<Volume>) {
    BaseVolumes(name, storageSvc, tmp) + VolumesOf(Selected(extraVol, svc, filter))
  }

  function AllMounts(storageSvc: bool, extraVol: seq<seq<Entry>>, svc: seq<string>, filter: Filter,
      tmp: Tmp): (ms: seq<Mount>) {
    BaseMounts(storageSvc, tmp) + MountsOf(Selected(extraVol, svc, filter))
  }

  function VolumePropagation(instance: string): (svc: seq<string>) {
    ["Cinder", "CinderVolume", instance]
  }

  /** The lists of the volume service, whose own name is one of the groups it belongs to. */
  function VolumeServiceVolumes(parent: string, name: string, extraVol: seq<seq<Entry>>, instance: string,
      filter: Filter, tmp: Tmp): (vs: seq<Volume>) {
    AllVolumes(parent, true, extraVol, VolumePropagation(instance), filter, tmp)
    + [Volume("config-data-custom", SecretSource(name + "-config-data", 0x120))]
  }

  function VolumeServiceMounts(extraVol: seq<seq<Entry>>, usesLVM: bool, instance: string, filter: Filter,
      tmp: Tmp): (ms: seq<Mount>) {
    AllMounts(true, extraVol, VolumePropagation(instance), filter, tmp)
    + [Mount("config-data-custom", "/etc/cinder/cinder.conf.d", "", true),
       RunOnHost("/usr/sbin/multipath"), RunOnHost("/usr/sbin/multipathd"), RunOnHost("/usr/sbin/iscsiadm"),
       RunOnHost("/lib/udev/scsi_id"), RunOnHost("/usr/sbin/cryptsetup"), RunOnHost("/usr/sbin/nvme")]
    + if usesLVM then [RunOnHost("/usr/sbin/lvm")] else []
  }

  predicate Names(vs: seq<Volume>, name: string) {
    exists i :: 0 <= i < |vs| && vs[i].name == name
  }

  /** Every mount names a volume. */
  predicate Closed(ms: seq<Mount>, vs: seq<Volume>) {
    forall i :: 0 <= i < |ms| ==> Names(vs, ms[i].name)
  }

  /** The mounts of every propagated entry name volumes of the list. */
  predicate EntriesClosed(es: seq<Entry>, vs: seq<Volume>) {
    forall i :: 0 <= i < |es| ==> Closed(es[i].mounts, vs)
  }

  lemma ClosedWider(ms: seq<Mount>, a: seq<Volume>, vs: seq<Volume>, b: seq<Volume>)
    requires Closed(ms, vs)
    ensures Closed(ms, a + vs + b)
  {
    forall i | 0 <= i < |ms| ensures Names(a + vs + b, ms[i].name) {
      assert Names(vs, ms[i].name);
      var k :| 0 <= k < |vs| && vs[k].name == ms[i].name;
      assert (a + vs + b)[|a| + k] == vs[k];
    }
  }

  lemma ClosedBoth(ms: seq<Mount>, ns: seq<Mount>, vs: seq<Volume>)
    ensures Closed(ms + ns, vs) <==> Closed(ms, vs) && Closed(ns, vs)
  {
    if Closed(ms + ns, vs) {
      forall i | 0 <= i < |ms| ensures Names(vs, ms[i].name) { assert (ms + ns)[i] == ms[i]; }
      forall i | 0 <= i < |ns| ensures Names(vs, ns[i].name) { assert (ms + ns)[|ms| + i] == ns[i]; }
    }
  }

  lemma {:induction false} MountsClosed(es: seq<Entry>, vs: seq<Volume>)
    ensures Closed(MountsOf(es), vs) <==> EntriesClosed(es, vs)
  {
    if es != [] {
      var n := |es| - 1;
      MountsClosed(es[..n], vs);
      ClosedBoth(MountsOf(es[..n]), es[n].mounts, vs);
      assert forall i :: 0 <= i < n ==> es[..n][i] == es[i];
    }
  }

  lemma CommonClosed(name: string, tmp: Tmp)
    ensures Closed(CommonMounts(tmp), CommonVolumes(name, tmp))
  {
    var vs, ms := CommonVolumes(name, tmp), CommonMounts(tmp);
    assert forall i :: 0 <= i < |ms| ==> vs[i].name == ms[i].name;
  }

  lemma StorageClosed()
    ensures Closed(StorageMounts(), StorageVolumes())
  {
    var vs, ms := StorageVolumes(), StorageMounts();
    assert forall i :: 0 <= i < |ms| ==> vs[i].name == ms[i].name;
  }

  lemma BaseClosed(name: string, storageSvc: bool, tmp: Tmp)
    ensures Closed(BaseMounts(storageSvc, tmp), BaseVolumes(name, storageSvc, tmp))
  {
    CommonClosed(name, tmp);
    var vs := BaseVolumes(name, storageSvc, tmp);
    if storageSvc {
      StorageClosed();
      ClosedWider(CommonMounts(tmp), [], CommonVolumes(name, tmp), StorageVolumes());
      ClosedWider(StorageMounts(), CommonVolumes(name, tmp), StorageVolumes(), []);
      assert [] + CommonVolumes(name, tmp) + StorageVolumes() == vs;
      assert CommonVolumes(name, tmp) + StorageVolumes() + [] == vs;
      ClosedBoth(CommonMounts(tmp), StorageMounts(), vs);
    } else {
      assert BaseMounts(storageSvc, tmp) == CommonMounts(tmp) && vs == CommonVolumes(name, tmp);
    }
  }

  /** For storage services and others, and whatever the filter: every mount names a volume, if and only if the mounts
      of every propagated entry do. */
  lemma MountClosure(name: string, storageSvc: bool, extraVol: seq<seq<Entry>>, svc: seq<string>, filter: Filter,
      tmp: Tmp)
    ensures var vs := AllVolumes(name, storageSvc, extraVol, svc, filter, tmp);
            Closed(AllMounts(storageSvc, extraVol, svc, filter, tmp), vs) <==>
                EntriesClosed(Selected(extraVol, svc, filter), vs)
  {
    var vs, es := AllVolumes(name, storageSvc, extraVol, svc, filter, tmp), Selected(extraVol, svc, filter);
    BaseClosed(name, storageSvc, tmp);
    ClosedWider(BaseMounts(storageSvc, tmp), [], BaseVolumes(name, storageSvc, tmp), VolumesOf(es));
    assert [] + BaseVolumes(name, storageSvc, tmp) + VolumesOf(es) == vs;
    ClosedBoth(BaseMounts(storageSvc, tmp), MountsOf(es), vs);
    MountsClosed(es, vs);
  }

  lemma {:induction false} OwnVolumes(es: seq<Entry>, i: nat)
    requires i < |es| && Closed(es[i].mounts, es[i].volumes)
    ensures Closed(es[i].mounts, VolumesOf(es))
  {
    var n := |es| - 1;
    var a, b := VolumesOf(es[..n]), es[n].volumes;
    if i < n {
      OwnVolumes(es[..n], i);
      ClosedWider(es[i].mounts, [], a, b);
      assert [] + a + b == a + b;
    } else {
      ClosedWider(es[i].mounts, a, b, []);
      assert a + b + [] == a + b;
    }
  }

  predicate AllOwn(es: seq<Entry>) {
    forall i :: 0 <= i < |es| ==> Closed(es[i].mounts, es[i].volumes)
  }

  lemma {:induction false} PropagatedOwn(entries: seq<Entry>, svc: seq<string>, filter: Filter)
    requires AllOwn(entries)
    ensures AllOwn(Propagated(entries, svc, filter))
  {
    if entries != [] {
      PropagatedOwn(entries[..|entries| - 1], svc, filter);
    }
  }

  lemma {:induction false} SelectedOwn(extraVol: seq<seq<Entry>>, svc: seq<string>, filter: Filter)
    requires forall i :: 0 <= i < |extraVol| ==> AllOwn(extraVol[i])
    ensures AllOwn(Selected(extraVol, svc, filter))
  {
    if extraVol != [] {
      SelectedOwn(extraVol[..|extraVol| - 1], svc, filter);
      PropagatedOwn(extraVol[|extraVol| - 1], svc, filter);
    }
  }

  /** So it is enough that every entry brings the volumes that it mounts. */
  lemma OwnEntriesClose(name: string, storageSvc: bool, extraVol: seq<seq<Entry>>, svc: seq<string>, filter: Filter,
      tmp: Tmp)
    requires forall i :: 0 <= i < |extraVol| ==> AllOwn(extraVol[i])
    ensures Closed(AllMounts(storageSvc, extraVol, svc, filter, tmp),
                   AllVolumes(name, storageSvc, extraVol, svc, filter, tmp))
  {
    var es, base := Selected(extraVol, svc, filter), BaseVolumes(name, storageSvc, tmp);
    SelectedOwn(extraVol, svc, filter);
    forall i | 0 <= i < |es| ensures Closed(es[i].mounts, base + VolumesOf(es)) {
      OwnVolumes(es, i);
      ClosedWider(es[i].mounts, base, VolumesOf(es), []);
      assert base + VolumesOf(es) + [] == base + VolumesOf(es);
    }
    MountClosure(name, storageSvc, extraVol, svc, filter, tmp);
  }

  lemma OwnMountsClosed(vs: seq<Volume>, name: string, own: seq<Mount>)
    requires Names(vs, "scripts")
    requires forall i :: 0 <= i < |own| ==> own[i].name == "scripts" || own[i].name == "config-data-custom"
    ensures Closed(own, vs + [Volume("config-data-custom", SecretSource(name + "-config-data", 0x120))])
  {
    var custom := Volume("config-data-custom", SecretSource(name + "-config-data", 0x120));
    var k :| 0 <= k < |vs| && vs[k].name == "scripts";
    assert (vs + [custom])[k].name == "scripts" && (vs + [custom])[|vs|].name == "config-data-custom";
  }

  /** The same for the volume service, with and without LVM and with the propagation to its own name. */
  lemma VolumeServiceClosure(parent: string, name: string, extraVol: seq<seq<Entry>>, usesLVM: bool,
      instance: string, filter: Filter, tmp: Tmp)
    ensures var vs := VolumeServiceVolumes(parent, name, extraVol, instance, filter, tmp);
            Closed(VolumeServiceMounts(extraVol, usesLVM, instance, filter, tmp), vs) <==>
              EntriesClosed(Selected(extraVol, VolumePropagation(instance), filter), vs)
  {
    var svc := VolumePropagation(instance);
    var es, vs := Selected(extraVol, svc, filter), VolumeServiceVolumes(parent, name, extraVol, instance, filter, tmp);
    var all := AllVolumes(parent, true, extraVol, svc, filter, tmp);
    var ms := VolumeServiceMounts(extraVol, usesLVM, instance, filter, tmp);
    var fixed := AllMounts(true, extraVol, svc, filter, tmp);
    var own := ms[|fixed|..];
    assert ms == fixed + own;
    assert all[1].name == "scripts";
    OwnMountsClosed(all, name, own);
    ClosedBoth(fixed, own, vs);
    BaseClosed(parent, true, tmp);
    ClosedWider(BaseMounts(true, tmp), [], BaseVolumes(parent, true, tmp), vs[|BaseVolumes(parent, true, tmp)|..]);
    assert [] + BaseVolumes(parent, true, tmp) + vs[|BaseVolumes(parent, true, tmp)|..] == vs;
    ClosedBoth(BaseMounts(true, tmp), MountsOf(es), vs);
    MountsClosed(es, vs);
  }

  // ---------------------------------------------------------------- nothing is missing

  /** Some mount gives the container this volume, a host directory at its own path and a secret read-only. */
  predicate Mounted(v: Volume, ms: seq<Mount>) {
    exists i :: 0 <= i < |ms| && ms[i].name == v.name && (v.source.HostPath? ==> ms[i].path == v.source.path)
      && (v.source.SecretSource? ==> ms[i].readOnly)
  }

  predicate AllMounted(vs: seq<Volume>, ms: seq<Mount>) {
    forall i :: 0 <= i < |vs| ==> Mounted(vs[i], ms)
  }

  lemma MountedWider(v: Volume, a: seq<Mount>, ms: seq<Mount>, b: seq<Mount>)
    requires Mounted(v, ms)
    ensures Mounted(v, a + ms + b)
  {
    var i :| 0 <= i < |ms| && ms[i].name == v.name && (v.source.HostPath? ==> ms[i].path == v.source.path)
      && (v.source.SecretSource? ==> ms[i].readOnly);
    assert (a + ms + b)[|a| + i] == ms[i];
  }

  lemma CommonMounted(name: string, tmp: Tmp)
    ensures AllMounted(CommonVolumes(name, tmp), CommonMounts(tmp))
  {
    var vs, ms := CommonVolumes(name, tmp), CommonMounts(tmp);
    forall i | 0 <= i < |vs| ensures Mounted(vs[i], ms) {
      assert ms[i].name == vs[i].name && (vs[i].source.HostPath? ==> ms[i].path == vs[i].source.path);
    }
  }

  lemma StorageMounted()
    ensures AllMounted(StorageVolumes(), StorageMounts())
  {
    var vs, ms := StorageVolumes(), StorageMounts();
    forall i | 0 <= i < |vs| ensures Mounted(vs[i], ms) {
      assert ms[i].name == vs[i].name && (vs[i].source.HostPath? ==> ms[i].path == vs[i].source.path);
    }
  }

  /** Every fixed volume of a pod is mounted: host directories at their own path, secrets read-only. */
  lemma BaseMounted(name: string, storageSvc: bool, tmp: Tmp)
    ensures AllMounted(BaseVolumes(name, storageSvc, tmp), BaseMounts(storageSvc, tmp))
  {
    var vs, ms := BaseVolumes(name, storageSvc, tmp), BaseMounts(storageSvc, tmp);
    var common := CommonVolumes(name, tmp);
    CommonMounted(name, tmp);
    StorageMounted();
    forall i | 0 <= i < |vs| ensures Mounted(vs[i], ms) {
      if i < |common| {
        assert vs[i] == common[i];
        MountedWider(vs[i], [], CommonMounts(tmp), if storageSvc then StorageMounts() else []);
        assert [] + CommonMounts(tmp) + (if storageSvc then StorageMounts() else []) == ms;
      } else {
        assert vs[i] == StorageVolumes()[i - |common|];
        MountedWider(vs[i], CommonMounts(tmp), StorageMounts(), []);
        assert CommonMounts(tmp) + StorageMounts() + [] == ms;
      }
    }
  }

  /** The host directories that a pod gets: those for storage only if it serves storage. */
  predicate OnHost(vs: seq<Volume>, path: string) {
    exists i :: 0 <= i < |vs| && vs[i].source.HostPath? && vs[i].source.path == path
  }

  const STORAGE_PATHS := {
    "/var/lib/cinder", "/etc/nvme", "/etc/iscsi", "/dev", "/lib/modules", "/run", "/sys",
    "/var/locks/openstack/os-brick", "/var/locks/openstack/cinder"
  }

  lemma StorageOnHost(path: string)
    ensures OnHost(StorageVolumes(), path) <==> path in STORAGE_PATHS
  {
    var vs := StorageVolumes();
    if path in STORAGE_PATHS {
      assert || vs[0].source.path == path || vs[1].source.path == path || vs[2].source.path == path
             || vs[3].source.path == path || vs[4].source.path == path || vs[5].source.path == path
             || vs[6].source.path == path || vs[7].source.path == path || vs[8].source.path == path;
    }
  }

  lemma OnHostBoth(a: seq<Volume>, b: seq<Volume>, path: string)
    ensures OnHost(a + b, path) <==> OnHost(a, path) || OnHost(b, path)
  {
    if OnHost(a, path) {
      var i :| 0 <= i < |a| && a[i].source.HostPath? && a[i].source.path == path;
      assert (a + b)[i] == a[i];
    } else if OnHost(b, path) {
      var i :| 0 <= i < |b| && b[i].source.HostPath? && b[i].source.path == path;
      assert (a + b)[|a| + i] == b[i];
    }
  }

  /** A pod sees the machine id and, exactly if it serves storage, the directories that storage needs. */
  lemma HostDirectories(name: string, storageSvc: bool, tmp: Tmp, path: string)
    ensures OnHost(BaseVolumes(name, storageSvc, tmp), path) <==>
              path == "/etc/machine-id" || (storageSvc && path in STORAGE_PATHS)
  {
    var common := CommonVolumes(name, tmp);
    assert common[0].source.HostPath? && common[0].source.path == "/etc/machine-id";
    assert OnHost(common, path) <==> path == "/etc/machine-id";
    StorageOnHost(path);
    OnHostBoth(common, if storageSvc then StorageVolumes() else [], path);
  }

  // ---------------------------------------------------------------- what is propagated

  predicate Within(extraVol: seq<seq<Entry>>, e: Entry) {
    exists i :: 0 <= i < |extraVol| && e in extraVol[i]
  }

  lemma {:induction false} PropagatedExactly(entries: seq<Entry>, svc: seq<string>, filter: Filter, e: Entry)
    ensures e in Propagated(entries, svc, filter) <==> e in entries && filter(e, svc) > 0
  {
    if entries != [] {
      var n := |entries| - 1;
      PropagatedExactly(entries[..n], svc, filter, e);
      assert entries == entries[..n] + [entries[n]];
      var cs := Copies(entries[n], filter(entries[n], svc));
      if filter(entries[n], svc) > 0 { assert cs[0] == entries[n]; }
    }
  }

  /** An entry is propagated exactly when a user added it, in whichever list, and the filter lets it through. */
  lemma {:induction false} SelectedExactly(extraVol: seq<seq<Entry>>, svc: seq<string>, filter: Filter, e: Entry)
    ensures e in Selected(extraVol, svc, filter) <==> Within(extraVol, e) && filter(e, svc) > 0
  {
    if extraVol != [] {
      var n := |extraVol| - 1;
      SelectedExactly(extraVol[..n], svc, filter, e);
      PropagatedExactly(extraVol[n], svc, filter, e);
      if i :| 0 <= i < |extraVol| && e in extraVol[i] {
        if i < n { assert extraVol[..n][i] == extraVol[i]; }
      }
    }
  }

  predicate Shares(a: seq<string>, b: set<string>) {
    exists p <- a :: p in b
  }

  /** An entry reaches the volume service of a backend exactly when it is for all of Cinder, for all volume services or
      for this backend, for every filter that goes by the groups. */
  lemma ReachesBackend(extraVol: seq<seq<Entry>>, instance: string, filter: Filter, e: Entry)
    requires forall x: Entry, svc: seq<string> :: filter(x, svc) > 0 <==> Shares(x.propagation, set p | p in svc)
    ensures e in Selected(extraVol, VolumePropagation(instance), filter) <==>
              Within(extraVol, e) && Shares(e.propagation, {"Cinder", "CinderVolume", instance})
  {
    var svc := VolumePropagation(instance);
    SelectedExactly(extraVol, svc, filter, e);
    assert svc[0] == "Cinder" && svc[1] == "CinderVolume" && svc[2] == instance;
    assert (set p | p in svc) == {"Cinder", "CinderVolume", instance};
  }

  /** The use of LVM adds the LVM tool of the host, and nothing else. */
  lemma LVMAddsItsTool(extraVol: seq<seq<Entry>>, instance: string, filter: Filter, tmp: Tmp)
    ensures VolumeServiceMounts(extraVol, true, instance, filter, tmp)
            == VolumeServiceMounts(extraVol, false, instance, filter, tmp)
               + [Mount("scripts", "/usr/sbin/lvm", "run-on-host", false)]
  {
  }

  /** The volume service mounts its own config, from its own secret and not from that of its Cinder. */
  lemma OwnConfigMounted(parent: string, name: string, extraVol: seq<seq<Entry>>, usesLVM: bool, instance: string,
      filter: Filter, tmp: Tmp)
    ensures var vs := VolumeServiceVolumes(parent, name, extraVol, instance, filter, tmp);
            var v := vs[|vs| - 1];
            && v.source.SecretSource? && v.source.secret == name + "-config-data"
            && Mounted(v, VolumeServiceMounts(extraVol, usesLVM, instance, filter, tmp))
  {
    var fixed := AllMounts(true, extraVol, VolumePropagation(instance), filter, tmp);
    var ms := VolumeServiceMounts(extraVol, usesLVM, instance, filter, tmp);
    assert ms[|fixed|].name == "config-data-custom" && ms[|fixed|].readOnly;
  }

  // ---------------------------------------------------------------- access

  /** The scripts can be executed; configs can only be read. */
  lemma SecretModes(name: string, storageSvc: bool, tmp: Tmp, i: nat)
    requires i < |BaseVolumes(name, storageSvc, tmp)| && BaseVolumes(name, storageSvc, tmp)[i].source.SecretSource?
    ensures var v := BaseVolumes(name, storageSvc, tmp)[i];
            v.source.mode == if v.source.secret == name + "-scripts" then 493 else 288
  {
    assert (name + "-scripts")[|name| + 1] == 's' && (name + "-config-data")[|name| + 1] == 'c';
  }

  /** Of the host's directories for storage a container may write all but two. */
  lemma StorageWritable(i: nat)
    requires i < |StorageMounts()|
    ensures StorageMounts()[i].readOnly <==> StorageMounts()[i].path in {"/etc/iscsi", "/lib/modules"}
  {
  }

  const HOST_TOOLS := [
    "/usr/sbin/multipath", "/usr/sbin/multipathd", "/usr/sbin/iscsiadm", "/lib/udev/scsi_id", "/usr/sbin/cryptsetup",
    "/usr/sbin/nvme"
  ]

  /** The volume service can run every storage tool of the host, through the script that enters the host. */
  lemma ToolsMounted(extraVol: seq<seq<Entry>>, usesLVM: bool, instance: string, filter: Filter, tmp: Tmp, i: nat)
    requires i < |HOST_TOOLS|
    ensures Mount("scripts", HOST_TOOLS[i], "run-on-host", false)
            in VolumeServiceMounts(extraVol, usesLVM, instance, filter, tmp)
  {
    var fixed := AllMounts(true, extraVol, VolumePropagation(instance), filter, tmp);
    var ms := VolumeServiceMounts(extraVol, usesLVM, instance, filter, tmp);
    assert ms[|fixed| + 1 + i] == RunOnHost(HOST_TOOLS[i]);
  }
}
