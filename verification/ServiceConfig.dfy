/** `processCustomServiceConfig`: the INI text of a volume service gets an `enabled_backends` list if it has
    none, and the use of the LVM driver is inferred from it. */
module ServiceConfig {
  import opened Text

  // ---------------------------------------------------------------- the line grammar

  datatype Line =
    | Skip                  // blank or comment
    | Enabled               // enabled_backends
    | Default               // [DEFAULT]
    | Section(name: string)
    | Backend               // volume_backend_name
    | Driver(lvm: bool)     // volume_driver
    | Other

  /** What stands before the first equals sign. */
  function Token(raw: string): (token: string) {
    TrimSpace(Before(TrimSpace(raw), '='))
  }

  function Classify(raw: string): (l: Line) {
    KindOf(Token(raw), TrimSpace(raw))
  }

  function KindOf(token: string, line: string): (l: Line) {
    if token == "" || HasPrefix(token, "#") then Skip
    else if token == "enabled_backends" then Enabled
    else if token == "[DEFAULT]" then Default
    else if HasPrefix(token, "[") && HasSuffix(token, "]") then Section(TrimBrackets(token))
    else if token == "volume_backend_name" then Backend
    else if token == "volume_driver" then Driver(HasSuffix(line, ".LVMVolumeDriver"))
    else Other
  }

  function Kinds(lines: seq<string>): (ls: seq<Line>)
    ensures |ls| == |lines|
  {
    seq(|lines|, i requires 0 <= i < |lines| => Classify(lines[i]))
  }

  // ---------------------------------------------------------------- what the scan collects

  predicate HasEnabled(ls: seq<Line>) { Enabled in ls }

  /** The last [DEFAULT] line, or -1. */
  function DefaultIdx(ls: seq<Line>): (d: int)
    ensures -1 <= d < |ls|
    ensures d >= 0 ==> ls[d] == Default
    ensures forall i :: d < i < |ls| ==> ls[i] != Default
  {
    if ls == [] then -1
    else if ls[|ls| - 1] == Default then |ls| - 1
    else DefaultIdx(ls[..|ls| - 1])
  }

  /** The section name that the scan remembers: [DEFAULT] does not change it. */
  function LastSection(ls: seq<Line>): (name: string) {
    if ls == [] then ""
    else if ls[|ls| - 1].Section? then ls[|ls| - 1].name
    else LastSection(ls[..|ls| - 1])
  }

  function Backends(ls: seq<Line>): (names: seq<string>) {
    if ls == [] then []
    else
      var prev := ls[..|ls| - 1];
      Backends(prev) + if ls[|ls| - 1] == Backend then [LastSection(prev)] else []
  }

  function Drivers(ls: seq<Line>): (n: nat) {
    if ls == [] then 0
    else Drivers(ls[..|ls| - 1]) + if ls[|ls| - 1].Driver? then 1 else 0
  }

  predicate ExplicitLVM(ls: seq<Line>) { Driver(true) in ls }

  predicate UsesLVM(ls: seq<Line>) {
    ExplicitLVM(ls) || Drivers(ls) < |Backends(ls)|
  }

  predicate Extends(ls: seq<Line>) {
    !HasEnabled(ls) && Backends(ls) != []
  }

  function EnabledLine(names: seq<string>): (s: string) {
    "enabled_backends=" + Join(names, ',')
  }

  function Extended(text: string): (s: string) {
    var lines := Split(text, '\n');
    var ls := Kinds(lines);
    var d := DefaultIdx(ls);
    if !Extends(ls) then text
    else if d == -1 then "[DEFAULT]" + ['\n'] + EnabledLine(Backends(ls)) + ['\n'] + text
    else Join(lines[d := "[DEFAULT]" + ['\n'] + EnabledLine(Backends(ls))], '\n')
  }

  /** What one more line adds to the scan. */
  lemma ScanStep(ls: seq<Line>, idx: nat)
    requires idx < |ls|
    ensures var a, b, l := ls[..idx], ls[..idx + 1], ls[idx];
            && HasEnabled(b) == (HasEnabled(a) || l == Enabled)
            && ExplicitLVM(b) == (ExplicitLVM(a) || l == Driver(true))
            && Drivers(b) == Drivers(a) + (if l.Driver? then 1 else 0)
            && DefaultIdx(b) == (if l == Default then idx else DefaultIdx(a))
            && LastSection(b) == (if l.Section? then l.name else LastSection(a))
            && Backends(b) == Backends(a) + (if l == Backend then [LastSection(a)] else [])
  {
    assert ls[..idx + 1] == ls[..idx] + [ls[idx]] && ls[..idx + 1][..idx] == ls[..idx];
  }

  datatype Scan = Scan(hasEnabledBackends: bool, usesLVM: bool, numDrivers: nat, defaultSectionIdx: int,
                       backendNames: seq<string>)

  /** The scan over the lines. */
  method ScanLines(svcConfigLines: seq<string>) returns (r: Scan)
    ensures var ls := Kinds(svcConfigLines);
            r == Scan(HasEnabled(ls), ExplicitLVM(ls), Drivers(ls), DefaultIdx(ls), Backends(ls))
  {
    ghost var ls := Kinds(svcConfigLines);
    var hasEnabledBackends, usesLVM, numDrivers, defaultSectionIdx := false, false, 0, -1;
    var sectionName, backendNames: seq<string> := "", [];
    var idx := 0;
    while idx < |svcConfigLines|
      invariant 0 <= idx <= |svcConfigLines|
      invariant hasEnabledBackends == HasEnabled(ls[..idx])
      invariant usesLVM == ExplicitLVM(ls[..idx])
      invariant numDrivers == Drivers(ls[..idx])
      invariant defaultSectionIdx == DefaultIdx(ls[..idx])
      invariant sectionName == LastSection(ls[..idx])
      invariant backendNames == Backends(ls[..idx])
    {
      ScanStep(ls, idx);
      var l := Classify(svcConfigLines[idx]);
      assert l == ls[idx];
      match l {
        case Skip =>
        case Enabled => hasEnabledBackends := true;
        case Default => defaultSectionIdx := idx;
        case Section(name) => sectionName := name;
        case Backend => backendNames := backendNames + [sectionName];
        case Driver(lvm) =>
          numDrivers := numDrivers + 1;
          if lvm {
            usesLVM := true;
          }
        case Other =>
      }
      idx := idx + 1;
    }
    assert ls[..idx] == ls;
    r := Scan(hasEnabledBackends, usesLVM, numDrivers, defaultSectionIdx, backendNames);
  }

  /** The whole function: whether LVM is used, and the text with the backends enabled. */
  method ProcessCustomServiceConfig(customServiceConfig: string) returns (usesLVM: bool, extendedConfig: string)
    ensures usesLVM == UsesLVM(Kinds(Split(customServiceConfig, '\n')))
    ensures extendedConfig == Extended(customServiceConfig)
  {
    var svcConfigLines := Split(customServiceConfig, '\n');
    var r := ScanLines(svcConfigLines);
    usesLVM := r.usesLVM;
    if r.numDrivers < |r.backendNames| {
      usesLVM := true;
    }
    if r.hasEnabledBackends || |r.backendNames| == 0 {
      extendedConfig := customServiceConfig;
    } else if r.defaultSectionIdx == -1 {
      extendedConfig := "[DEFAULT]" + ['\n'] + EnabledLine(r.backendNames) + ['\n'] + customServiceConfig;
    } else {
      svcConfigLines := svcConfigLines[r.defaultSectionIdx := "[DEFAULT]" + ['\n'] + EnabledLine(r.backendNames)];
      extendedConfig := Join(svcConfigLines, '\n');
    }
  }
}
