/** The names that one Cinder gives to its services, and the bound that the webhook puts on volume keys. */
module Names {

  datatype Service = Api | Scheduler | Backup | BackupOf(key: string) | VolumeOf(key: string)

  function Suffix(s: Service): (suffix: string) {
    match s
    case Api => "-api"
    case Scheduler => "-scheduler"
    case Backup => "-backup"
    case BackupOf(key) => "-backup-" + key
    case VolumeOf(key) => "-volume-" + key
  }

  function ServiceName(cinder: string, s: Service): (name: string) {
    cinder + Suffix(s)
  }

  lemma SuffixStart(s: Service)
    ensures |Suffix(s)| >= 4
    ensures Suffix(s)[1] == match s { case Api => 'a' case Scheduler => 's' case VolumeOf(_) => 'v' case _ => 'b' }
    ensures s.Backup? ==> |Suffix(s)| == 7
    ensures s.BackupOf? ==> |Suffix(s)| >= 8
  {
  }

  lemma SuffixInjective(s: Service, t: Service)
    requires Suffix(s) == Suffix(t)
    ensures s == t
  {
    SuffixStart(s);
    SuffixStart(t);
    if s.BackupOf? && t.BackupOf? {
      assert s.key == Suffix(s)[8..] && t.key == Suffix(t)[8..];
    } else if s.VolumeOf? && t.VolumeOf? {
      assert s.key == Suffix(s)[8..] && t.key == Suffix(t)[8..];
    }
  }

  /** The services of one Cinder have pairwise distinct names. */
  lemma NamesInjective(cinder: string, s: Service, t: Service)
    ensures ServiceName(cinder, s) == ServiceName(cinder, t) <==> s == t
  {
    if ServiceName(cinder, s) == ServiceName(cinder, t) {
      assert Suffix(s) == ServiceName(cinder, s)[|cinder|..] && Suffix(t) == ServiceName(cinder, t)[|cinder|..];
      SuffixInjective(s, t);
    }
  }

  /** Of two Cinders this is not so: the listed backup of one can have the name of a service of the other. */
  lemma NamesOfTwoCindersCollide(cinder: string)
    ensures ServiceName(cinder, BackupOf("api")) == ServiceName(cinder + "-backup", Api)
  {
    assert cinder + ("-backup-" + "api") == (cinder + "-backup") + "-api";
  }

  // ---------------------------------------------------------------- the label bound

  const LABEL_MAX := 63

  predicate AlphaNum(c: char) { 'a' <= c <= 'z' || '0' <= c <= '9' }

  /** A DNS label: section 2.1 of RFC 1123. */
  predicate IsLabel(s: string) {
    0 < |s| <= LABEL_MAX && Shaped(s)
  }

  predicate Shaped(s: string) {
    && s != "" && AlphaNum(s[0]) && AlphaNum(s[|s| - 1])
    && forall i :: 0 <= i < |s| ==> AlphaNum(s[i]) || s[i] == '-'
  }

  function GetCrMaxLengthCorrection(name: string): (n: nat) {
    11 + |name| + 8
  }

  /** What the webhook demands of a key of CinderVolumes. */
  predicate Accepted(cinder: string, key: string) {
    |key| <= LABEL_MAX - GetCrMaxLengthCorrection(cinder) && IsLabel(key)
  }

  lemma ShapedJoin(a: string, mid: string, b: string)
    requires Shaped(a) && Shaped(b) && (forall i :: 0 <= i < |mid| ==> AlphaNum(mid[i]) || mid[i] == '-')
    ensures Shaped(a + mid + b)
  {
    var s := a + mid + b;
    assert s[0] == a[0] && s[|s| - 1] == b[|b| - 1];
    forall i | 0 <= i < |s| ensures AlphaNum(s[i]) || s[i] == '-' {
      if i < |a| {
        assert s[i] == a[i];
      } else if i < |a| + |mid| {
        assert s[i] == mid[i - |a|];
      } else {
        assert s[i] == b[i - |a| - |mid|];
      }
    }
  }

  /** The revision label of the pods, the StatefulSet's name with a hyphen and a revision of ten characters, is a DNS
      label for exactly the keys that the webhook accepts. */
  lemma RevisionLabelFits(cinder: string, key: string, revision: string)
    requires Shaped(cinder) && Shaped(key) && Shaped(revision) && |revision| == 10
    ensures IsLabel(ServiceName(cinder, VolumeOf(key)) + "-" + revision) <==> Accepted(cinder, key)
  {
    var name := ServiceName(cinder, VolumeOf(key));
    assert name == cinder + "-volume-" + key;
    ShapedJoin(cinder, "-volume-", key);
    ShapedJoin(name, "-", revision);
  }
}
