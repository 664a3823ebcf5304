/** The input hash of a service: what changes it, and when a pass reports a change. The hash of the collected
    variables is taken to be injective and is therefore represented by the variables themselves. */
module InputHash {
  import opened Common
  import Mounts

  datatype Read = Found(hash: string) | NotFound | Failed

  /** What the API server answers: the hash of the expected fields of a secret, and of all its data. */
  datatype Secrets = Secrets(fields: map<string, Read>, data: map<string, Read>)

  /** How a step of a pass ends: `Wait` returns without a result or an error, `Requeue` asks for another pass. */
  datatype Outcome = Done | Wait | Requeue | Error

  type Env = map<string, string>

  function Lookup(m: map<string, Read>, name: string): (r: Read) {
    if name in m then m[name] else NotFound
  }

  function HashOf(m: map<string, Read>, name: string): (hash: string) {
    match Lookup(m, name) case Found(hash) => hash case _ => ""
  }

  function Answer(r: Read): (o: Outcome) {
    match r case Found(_) => Done case NotFound => Requeue case Failed => Error
  }

  /** What else goes into the hash: the CA bundle if one is named, the certificates of the API, and the files that
      the pass generates (none if that fails). The names of the two variables are constants of a library. */
  datatype Extra = Extra(caBundle: string, ca: Read, certs: Option<Read>, files: Option<Env>, caKey: string,
      certsKey: string)

  function Waiting(r: Read): (o: Outcome) {
    match r case Found(_) => Done case NotFound => Wait case Failed => Error
  }

  function ExtraOutcome(x: Extra): (o: Outcome) {
    if x.caBundle != "" && !x.ca.Found? then Waiting(x.ca)
    else if x.certs.Some? && !x.certs.value.Found? then Waiting(x.certs.value)
    else if x.files.None? then Error
    else Done
  }

  /** An empty hash of the bundle is not a variable. */
  function BundleEnv(x: Extra): (env: Env) {
    if x.caBundle != "" && x.ca.Found? && x.ca.hash != "" then map[x.caKey := x.ca.hash] else map[]
  }

  function CertsEnv(x: Extra): (env: Env) {
    if x.certs.Some? && x.certs.value.Found? then map[x.certsKey := x.certs.value.hash] else map[]
  }

  function ExtraEnv(x: Extra): (env: Env) {
    BundleEnv(x) + CertsEnv(x) + (if x.files.Some? then x.files.value else map[])
  }

  lemma SumsAgree(e: Env, a: Env, b: Env, c: Env)
    ensures e + a + b + c == e + (a + b + c)
  {
  }

  lemma PutIsSum(e: Env, k: string, v: string)
    ensures e[k := v] == e + map[k := v]
  {
  }

  function Key(name: string): (key: string) { "secret-" + name }

  /** The variables that the config secrets set; empty names are skipped. */
  function Keys(names: seq<string>): (keys: set<string>) {
    set n | n in names && n != "" :: Key(n)
  }

  lemma KeyBack(name: string)
    ensures Key(name)[7..] == name
  {
  }

  lemma KeysLong(names: seq<string>)
    ensures forall k <- Keys(names) :: |k| >= 7 && k[7..] in names && k[7..] != "" && Key(k[7..]) == k
  {
    forall k <- Keys(names) ensures |k| >= 7 && k[7..] in names && k[7..] != "" && Key(k[7..]) == k {
      var n :| n in names && n != "" && Key(n) == k;
      KeyBack(n);
    }
  }

  function ConfigEnv(names: seq<string>, data: map<string, Read>): (env: Env) {
    KeysLong(names);
    map k | k in Keys(names) :: HashOf(data, k[7..])
  }

  /** The first name that cannot be read. */
  function FirstBad(names: seq<string>, data: map<string, Read>): (i: nat)
    ensures i <= |names|
    ensures i < |names| ==> names[i] != "" && !Lookup(data, names[i]).Found?
    ensures forall j :: 0 <= j < i ==> names[j] == "" || Lookup(data, names[j]).Found?
  {
    if names == [] then 0
    else if names[0] != "" && !Lookup(data, names[0]).Found? then 0
    else 1 + FirstBad(names[1..], data)
  }

  lemma FirstBadUnique(names: seq<string>, data: map<string, Read>, i: nat)
    requires i <= |names| && (i < |names| ==> names[i] != "" && !Lookup(data, names[i]).Found?)
    requires forall j :: 0 <= j < i ==> names[j] == "" || Lookup(data, names[j]).Found?
    ensures i == FirstBad(names, data)
  {
  }

  lemma ConfigEnvStep(names: seq<string>, data: map<string, Read>, i: nat)
    requires i < |names|
    ensures ConfigEnv(names[..i + 1], data)
            == if names[i] == "" then ConfigEnv(names[..i], data)
               else ConfigEnv(names[..i], data)[Key(names[i]) := HashOf(data, names[i])]
  {
    var a, b, n := names[..i], names[..i + 1], names[i];
    assert b == a + [n];
    assert Keys(b) == Keys(a) + if n == "" then {} else {Key(n)};
    KeyBack(n);
  }

  lemma CollectStep(env: Env, names: seq<string>, data: map<string, Read>, i: nat)
    requires i < |names|
    ensures var before := env + ConfigEnv(names[..i], data);
            env + ConfigEnv(names[..i + 1], data)
            == if names[i] == "" then before else before[Key(names[i]) := HashOf(data, names[i])]
  {
    ConfigEnvStep(names, data, i);
  }

  lemma CollectNone(env: Env, names: seq<string>, data: map<string, Read>)
    ensures env + ConfigEnv(names[..0], data) == env
  {
    assert Keys(names[..0]) == {};
    assert ConfigEnv(names[..0], data) == map[];
  }

  /** The variable of every config secret, with its prefix, has the hash of the secret; empty names have none. */
  predicate Carried(names: seq<string>, data: map<string, Read>, env: Env) {
    forall n <- names :: n != "" ==>
      "secret-" + n in env && Lookup(data, n).Found? && env["secret-" + n] == Lookup(data, n).hash
  }

  lemma ConfigCarried(env: Env, names: seq<string>, data: map<string, Read>)
    requires FirstBad(names, data) == |names|
    ensures Carried(names, data, env + ConfigEnv(names, data))
  {
    forall n <- names | n != ""
      ensures "secret-" + n in env + ConfigEnv(names, data) && Lookup(data, n).Found?
      ensures (env + ConfigEnv(names, data))["secret-" + n] == Lookup(data, n).hash
    {
      ConfigValue(names, data, n);
      assert Key(n) == "secret-" + n;
    }
  }

  /** One service instance, during a pass. */
  class Instance {
    var envVars: Env
    var inputReady: Option<bool>
    var tlsReady: Option<bool>
    var recorded: Option<Env>

    constructor ()
      ensures envVars == map[] && inputReady == None && tlsReady == None && recorded == None
    {
      envVars, inputReady, tlsReady, recorded := map[], None, None, None;
    }

    method VerifyServiceSecret(secret: string, s: Secrets) returns (r: Outcome)
      modifies this`envVars, this`inputReady
      ensures r == Answer(Lookup(s.fields, secret))
      ensures r == Requeue <==> Lookup(s.fields, secret).NotFound?
      ensures r == Error <==> Lookup(s.fields, secret).Failed?
      ensures r == Done ==> envVars == old(envVars)[secret := HashOf(s.fields, secret)] && inputReady == old(inputReady)
      ensures r != Done ==> envVars == old(envVars) && inputReady == Some(false)
    {
      var read := Lookup(s.fields, secret);
      r := Answer(read);
      if read.Found? {
        envVars := envVars[secret := read.hash];
      } else {
        inputReady := Some(false);
      }
    }

    /** Stops at the first name that cannot be read, and has then set the variables of those before it. */
    method VerifyConfigSecrets(secretNames: seq<string>, s: Secrets) returns (r: Outcome)
      modifies this`envVars, this`inputReady
      ensures var i := FirstBad(secretNames, s.data);
              && envVars == old(envVars) + ConfigEnv(secretNames[..i], s.data)
              && r == (if i == |secretNames| then Done else Answer(Lookup(s.data, secretNames[i])))
              && inputReady == (if i == |secretNames| then old(inputReady) else Some(false))
              && (r == Requeue <==> i < |secretNames| && Lookup(s.data, secretNames[i]).NotFound?)
              && (r == Error <==> i < |secretNames| && Lookup(s.data, secretNames[i]).Failed?)
      ensures r == Done ==> Carried(secretNames, s.data, envVars)
    {
      CollectNone(envVars, secretNames, s.data);
      var i := 0;
      while i < |secretNames|
        invariant 0 <= i <= |secretNames|
        invariant forall j :: 0 <= j < i ==> secretNames[j] == "" || Lookup(s.data, secretNames[j]).Found?
        invariant envVars == old(envVars) + ConfigEnv(secretNames[..i], s.data)
        invariant inputReady == old(inputReady)
      {
        var secretName := secretNames[i];
        CollectStep(old(envVars), secretNames, s.data, i);
        if secretName != "" {
          var read := Lookup(s.data, secretName);
          if !read.Found? {
            FirstBadUnique(secretNames, s.data, i);
            inputReady := Some(false);
            r := Answer(read);
            return;
          }
          envVars := envVars[Key(secretName) := read.hash];
        }
        i := i + 1;
      }
      FirstBadUnique(secretNames, s.data, i);
      assert secretNames[..i] == secretNames;
      ConfigCarried(old(envVars), secretNames, s.data);
      r := Done;
    }

    method CreateHashOfInputHashes() returns (changed: bool)
      modifies this`recorded
      ensures recorded == Some(envVars)
      ensures changed <==> old(recorded) != recorded
    {
      changed := recorded != Some(envVars);
      if changed {
        recorded := Some(envVars);
      }
    }

    method CollectBundle(x: Extra) returns (r: Outcome)
      modifies this`envVars, this`tlsReady
      ensures r == (if x.caBundle != "" && !x.ca.Found? then Waiting(x.ca) else Done)
      ensures r == Done ==> envVars == old(envVars) + BundleEnv(x) && tlsReady == old(tlsReady)
      ensures r != Done ==> tlsReady == Some(false)
    {
      r := Done;
      if x.caBundle != "" {
        if !x.ca.Found? {
          tlsReady := Some(false);
          return Waiting(x.ca);
        }
        if x.ca.hash != "" {
          PutIsSum(envVars, x.caKey, x.ca.hash);
          envVars := envVars[x.caKey := x.ca.hash];
        }
      }
    }

    method CollectCerts(x: Extra) returns (r: Outcome)
      modifies this`envVars, this`tlsReady
      ensures r == (if x.certs.Some? && !x.certs.value.Found? then Waiting(x.certs.value) else Done)
      ensures r == Done ==> envVars == old(envVars) + CertsEnv(x) && tlsReady == old(tlsReady)
      ensures r != Done ==> tlsReady == Some(false)
    {
      r := Done;
      if x.certs.Some? {
        if !x.certs.value.Found? {
          tlsReady := Some(false);
          return Waiting(x.certs.value);
        }
        PutIsSum(envVars, x.certsKey, x.certs.value.hash);
        envVars := envVars[x.certsKey := x.certs.value.hash];
      }
    }

    /** Certificates and generated files; the first that is missing or fails ends the pass. */
    method CollectExtra(x: Extra) returns (r: Outcome)
      modifies this`envVars, this`tlsReady
      ensures r == ExtraOutcome(x)
      ensures x.caBundle != "" && !x.ca.Found? ==> r == if x.ca.NotFound? then Wait else Error
      ensures (x.caBundle == "" || x.ca.Found?) && x.certs.Some? && !x.certs.value.Found? ==>
                r == if x.certs.value.NotFound? then Wait else Error
      ensures (x.caBundle == "" || x.ca.Found?) && (x.certs.None? || x.certs.value.Found?) ==>
                r == if x.files.None? then Error else Done
      ensures r == Done ==> envVars == old(envVars) + ExtraEnv(x)
      ensures tlsReady == Some((x.caBundle == "" || x.ca.Found?) && (x.certs.None? || x.certs.value.Found?))
    {
      r := CollectBundle(x);
      if r != Done { return; }
      r := CollectCerts(x);
      if r != Done { return; }
      tlsReady := Some(true);
      if x.files.None? {
        return Error;
      }
      SumsAgree(old(envVars), BundleEnv(x), CertsEnv(x), x.files.value);
      envVars := envVars + x.files.value;
    }

    /** A pass up to the hash: it is recorded if and only if everything could be read. */
    method CollectInputs(secret: string, names: seq<string>, s: Secrets, x: Extra) returns (r: Outcome, changed: bool)
      modifies this
      ensures r == Done <==> Readable(secret, names, s) && ExtraOutcome(x) == Done
      ensures Readable(secret, names, s) ==> r == ExtraOutcome(x)
      ensures inputReady == Some(Readable(secret, names, s))
      ensures r == Done ==> recorded == Some(Inputs(secret, names, s, ExtraEnv(x)))
      ensures r != Done ==> recorded == old(recorded)
      ensures changed <==> old(recorded) != recorded
    {
      envVars, changed := map[], false;
      r := VerifyServiceSecret(secret, s);
      if r != Done {
        return;
      }
      r := VerifyConfigSecrets(names, s);
      if r != Done {
        assert names[FirstBad(names, s.data)] in names;
        return;
      }
      assert names[..|names|] == names;
      inputReady := Some(true);
      r := CollectExtra(x);
      if r == Done {
        changed := CreateHashOfInputHashes();
      }
    }
  }

  // ---------------------------------------------------------------- change detection

  predicate Readable(secret: string, names: seq<string>, s: Secrets) {
    Lookup(s.fields, secret).Found? && forall n <- names :: n == "" || Lookup(s.data, n).Found?
  }

  /** What a pass hashes. */
  function Inputs(secret: string, names: seq<string>, s: Secrets, rest: Env): (env: Env) {
    map[secret := HashOf(s.fields, secret)] + ConfigEnv(names, s.data) + rest
  }

  /** No variable is set twice. */
  predicate Separate(secret: string, names: seq<string>, rest: Env) {
    secret !in Keys(names) && secret !in rest && rest.Keys !! Keys(names)
  }

  predicate SomeSecretDiffers(secret: string, names: seq<string>, s: Secrets, t: Secrets) {
    || HashOf(s.fields, secret) != HashOf(t.fields, secret)
    || exists n <- names :: n != "" && HashOf(s.data, n) != HashOf(t.data, n)
  }

  lemma ConfigValue(names: seq<string>, data: map<string, Read>, n: string)
    requires n in names && n != ""
    ensures Key(n) in ConfigEnv(names, data) && ConfigEnv(names, data)[Key(n)] == HashOf(data, n)
  {
    KeyBack(n);
  }

  lemma ConfigDiffers(names: seq<string>, d: map<string, Read>, e: map<string, Read>)
    ensures ConfigEnv(names, d) != ConfigEnv(names, e) <==> exists n <- names :: n != "" && HashOf(d, n) != HashOf(e, n)
  {
    KeysLong(names);
    if n :| n in names && n != "" && HashOf(d, n) != HashOf(e, n) {
      ConfigValue(names, d, n);
      ConfigValue(names, e, n);
    } else {
      assert ConfigEnv(names, d) == ConfigEnv(names, e);
    }
  }

  lemma SumDiffers(a: Env, b: Env, c: Env, x: Env, y: Env, z: Env)
    requires a.Keys == x.Keys && b.Keys == y.Keys && a.Keys !! b.Keys
    requires c.Keys !! a.Keys && c.Keys !! b.Keys && z.Keys !! a.Keys && z.Keys !! b.Keys
    ensures a + b + c == x + y + z <==> a == x && b == y && c == z
  {
    var l, r := a + b + c, x + y + z;
    if l == r {
      forall k | k in a ensures a[k] == x[k] { assert l[k] == r[k]; }
      forall k | k in b ensures b[k] == y[k] { assert l[k] == r[k]; }
      forall k ensures k in c <==> k in z {
        assert k in l <==> k in r;
      }
      forall k | k in c ensures c[k] == z[k] { assert l[k] == r[k]; }
    }
  }

  /** With separate variables the input hash changes exactly when something that was read changes. */
  lemma ChangeDetected(secret: string, names: seq<string>, s: Secrets, t: Secrets, rest: Env, rest': Env)
    requires Separate(secret, names, rest) && Separate(secret, names, rest')
    ensures Inputs(secret, names, s, rest) != Inputs(secret, names, t, rest')
            <==> SomeSecretDiffers(secret, names, s, t) || rest != rest'
  {
    var a, x := map[secret := HashOf(s.fields, secret)], map[secret := HashOf(t.fields, secret)];
    ConfigDiffers(names, s.data, t.data);
    SumDiffers(a, ConfigEnv(names, s.data), rest, x, ConfigEnv(names, t.data), rest');
    assert a[secret] == HashOf(s.fields, secret) && x[secret] == HashOf(t.fields, secret);
  }

  // ---------------------------------------------------------------- certificates and files

  /** The hash of the bundle, empty when none is named or it has none. */
  function BundleHash(x: Extra): (hash: string) {
    if x.caBundle == "" then "" else match x.ca case Found(hash) => hash case _ => ""
  }

  /** Certificates and files set different variables. */
  predicate OwnKeys(x: Extra) {
    x.caKey != x.certsKey && (x.files.Some? ==> x.caKey !in x.files.value && x.certsKey !in x.files.value)
  }

  predicate SomeExtraDiffers(x: Extra, y: Extra) {
    BundleHash(x) != BundleHash(y) || x.certs != y.certs || x.files != y.files
  }

  lemma EnvPart(x: Extra)
    requires ExtraOutcome(x) == Done && OwnKeys(x)
    ensures var env := ExtraEnv(x);
            && (x.caKey in env <==> BundleHash(x) != "") && (x.caKey in env ==> env[x.caKey] == BundleHash(x))
            && (x.certsKey in env <==> x.certs.Some?) && (x.certsKey in env ==> env[x.certsKey] == x.certs.value.hash)
            && (forall k :: k != x.caKey && k != x.certsKey ==>
                  (k in env <==> k in x.files.value) && (k in env ==> env[k] == x.files.value[k]))
  {
  }

  /** What certificates and generated files set differs exactly when the hash of the bundle, a certificate or a file
      differs. */
  lemma ExtraDetected(x: Extra, y: Extra)
    requires ExtraOutcome(x) == Done && ExtraOutcome(y) == Done && OwnKeys(x) && OwnKeys(y)
    requires x.caKey == y.caKey && x.certsKey == y.certsKey
    ensures ExtraEnv(x) != ExtraEnv(y) <==> SomeExtraDiffers(x, y)
  {
    EnvPart(x);
    EnvPart(y);
    if ExtraEnv(x) == ExtraEnv(y) {
      FilesSame(x, y);
    }
  }

  lemma FilesSame(x: Extra, y: Extra)
    requires ExtraOutcome(x) == Done && ExtraOutcome(y) == Done && OwnKeys(x) && OwnKeys(y)
    requires x.caKey == y.caKey && x.certsKey == y.certsKey && ExtraEnv(x) == ExtraEnv(y)
    ensures x.files == y.files
  {
    EnvPart(x);
    EnvPart(y);
    forall k ensures k in x.files.value <==> k in y.files.value {
      assert k in ExtraEnv(x) <==> k in ExtraEnv(y);
    }
    forall k | k in x.files.value ensures x.files.value[k] == y.files.value[k] {
      assert ExtraEnv(x)[k] == ExtraEnv(y)[k];
    }
    assert x.files.value == y.files.value;
  }

  /** The whole pass: with every variable set once, the hash that is recorded differs exactly when the service secret, a
      config secret, the bundle, a certificate or a generated file differs. */
  lemma EveryChangeDetected(secret: string, names: seq<string>, s: Secrets, t: Secrets, x: Extra, y: Extra)
    requires ExtraOutcome(x) == Done && ExtraOutcome(y) == Done && OwnKeys(x) && OwnKeys(y)
    requires x.caKey == y.caKey && x.certsKey == y.certsKey
    requires Separate(secret, names, ExtraEnv(x)) && Separate(secret, names, ExtraEnv(y))
    ensures Inputs(secret, names, s, ExtraEnv(x)) != Inputs(secret, names, t, ExtraEnv(y)) <==>
              SomeSecretDiffers(secret, names, s, t) || SomeExtraDiffers(x, y)
  {
    ChangeDetected(secret, names, s, t, ExtraEnv(x), ExtraEnv(y));
    ExtraDetected(x, y);
  }

  // ---------------------------------------------------------------- what is hashed and what is mounted

  /** The config secrets of a service. */
  function SecretNames(parent: string, t: string, n: string, custom: seq<string>): (names: seq<string>) {
    [n, t, parent + "-scripts", parent + "-config-data"] + custom
  }

  /** Every secret that the pod templates of a service mount from its Cinder is hashed, and so are both transport
      secrets and all custom ones: a change of any of them changes the input. */
  lemma MountedSecretsAreHashed(parent: string, t: string, n: string, custom: seq<string>, storageSvc: bool,
      tmp: Mounts.Tmp, i: nat)
    requires i < |Mounts.BaseVolumes(parent, storageSvc, tmp)|
    ensures var v, names := Mounts.BaseVolumes(parent, storageSvc, tmp)[i], SecretNames(parent, t, n, custom);
            && (v.source.SecretSource? ==> v.source.secret in names && v.source.secret != "")
            && t in names && n in names && forall x <- custom :: x in names
  {
    var names := SecretNames(parent, t, n, custom);
    assert names[0] == n && names[1] == t && names[2] == parent + "-scripts" && names[3] == parent + "-config-data";
  }

  // ---------------------------------------------------------------- when a change goes unseen

  /** Every change of a secret is seen, next to the given other variables. */
  ghost predicate SeesEverySecret(secret: string, names: seq<string>, rest: Env) {
    forall s, t ::
      Readable(secret, names, s) && Readable(secret, names, t) && SomeSecretDiffers(secret, names, s, t) ==>
        Inputs(secret, names, s, rest) != Inputs(secret, names, t, rest)
  }

  /** All config secrets hash to nothing, except one. */
  function Sample(secret: string, names: seq<string>, fields: string, name: string, data: string): (s: Secrets) {
    Secrets(map[secret := Found(fields)], map n | n in names :: Found(if n == name then data else ""))
  }

  /** Two states of the secrets that differ in the fields of the service secret only. */
  lemma ServiceSecretHidden(secret: string, names: seq<string>, rest: Env)
    requires secret in Keys(names) || secret in rest
    ensures !SeesEverySecret(secret, names, rest)
  {
    var s, t := Sample(secret, names, "a", "", ""), Sample(secret, names, "b", "", "");
    assert Readable(secret, names, s) && Readable(secret, names, t) && SomeSecretDiffers(secret, names, s, t);
    assert ConfigEnv(names, s.data) == ConfigEnv(names, t.data);
    Overridden(secret, "a", "b", ConfigEnv(names, s.data), rest);
    assert Inputs(secret, names, s, rest) == Inputs(secret, names, t, rest);
  }

  lemma Overridden(key: string, v: string, w: string, x: Env, rest: Env)
    requires key in x || key in rest
    ensures map[key := v] + x + rest == map[key := w] + x + rest
  {
  }

  /** The samples for two values of one config secret agree on all other variables. */
  lemma SamplesAgree(secret: string, names: seq<string>, n: string, k: string)
    requires n in names && n != "" && k in Keys(names) && k != Key(n)
    ensures ConfigEnv(names, Sample(secret, names, "", n, "a").data)[k]
            == ConfigEnv(names, Sample(secret, names, "", n, "b").data)[k]
  {
    KeysLong(names);
    assert k[7..] != n;
  }

  lemma SameUnder(e: Env, x: Env, y: Env, rest: Env, key: string)
    requires x.Keys == y.Keys && key in rest && forall k <- x :: k != key ==> x[k] == y[k]
    ensures e + x + rest == e + y + rest
  {
    var l, r := e + x + rest, e + y + rest;
    forall k | k in l ensures l[k] == r[k] {
      if k in rest {
      } else if k in x {
        assert l[k] == x[k] && r[k] == y[k];
      } else {
        assert l[k] == e[k] && r[k] == e[k];
      }
    }
  }

  /** Two states that differ in one config secret only, whose variable is set again. */
  lemma ConfigSecretHidden(secret: string, names: seq<string>, rest: Env, n: string)
    requires n in names && n != "" && Key(n) in rest
    ensures !SeesEverySecret(secret, names, rest)
  {
    var s, t := Sample(secret, names, "", n, "a"), Sample(secret, names, "", n, "b");
    assert Readable(secret, names, s) && Readable(secret, names, t);
    assert HashOf(s.data, n) != HashOf(t.data, n);
    var x, y := ConfigEnv(names, s.data), ConfigEnv(names, t.data);
    forall k | k in x && k != Key(n) ensures x[k] == y[k] { SamplesAgree(secret, names, n, k); }
    SameUnder(map[secret := ""], x, y, rest, Key(n));
    assert Inputs(secret, names, s, rest) == Inputs(secret, names, t, rest);
  }

  /** Every change of a secret is seen, if and only if no variable is set twice: the service secret is named like the
      variable of no config secret, and certificates and generated files set none of these variables again. */
  lemma DetectionExact(secret: string, names: seq<string>, rest: Env)
    ensures SeesEverySecret(secret, names, rest) <==> Separate(secret, names, rest)
  {
    if Separate(secret, names, rest) {
      forall s, t | Readable(secret, names, s) && Readable(secret, names, t) && SomeSecretDiffers(secret, names, s, t)
        ensures Inputs(secret, names, s, rest) != Inputs(secret, names, t, rest)
      {
        ChangeDetected(secret, names, s, t, rest, rest);
      }
    } else if secret in Keys(names) || secret in rest {
      ServiceSecretHidden(secret, names, rest);
    } else {
      var k :| k in rest && k in Keys(names);
      KeysLong(names);
      ConfigSecretHidden(secret, names, rest, k[7..]);
    }
  }
}
