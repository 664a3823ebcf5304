/** What `processCustomServiceConfig` promises: the text keeps its meaning, the function is idempotent, the
    generated list can be read back, and the inference of LVM is exact. */
module ServiceConfigLaws {
  import opened Common
  import opened Text
  import opened ServiceConfig
  import opened LineGrammar

  // ---------------------------------------------------------------- the lines of the output

  lemma KindsAppend(a: seq<string>, b: seq<string>)
    ensures Kinds(a + b) == Kinds(a) + Kinds(b)
  {
  }

  lemma KindsSlices(lines: seq<string>, d: nat)
    requires d < |lines|
    ensures Kinds(lines[..d]) == Kinds(lines)[..d] && Kinds(lines[d + 1..]) == Kinds(lines)[d + 1..]
  {
  }

  lemma TokenWithin(raw: string)
    ensures Text.Within(Token(raw), raw)
  {
    TrimSpaceWithin(raw);
    BeforeWithin(TrimSpace(raw), '=');
    TrimSpaceWithin(Before(TrimSpace(raw), '='));
  }

  lemma SectionNameWithin(raw: string)
    requires Classify(raw).Section?
    ensures Text.Within(Classify(raw).name, raw)
  {
    TokenWithin(raw);
    TrimBracketsWithin(Token(raw));
  }

  predicate NamesFree(ls: seq<Line>) {
    forall i :: 0 <= i < |ls| && ls[i].Section? ==> Free(ls[i].name, '\n')
  }

  lemma SectionNamesFree(lines: seq<string>)
    requires AllFree(lines, '\n')
    ensures NamesFree(Kinds(lines))
  {
    forall i | 0 <= i < |lines| && Kinds(lines)[i].Section? ensures Free(Kinds(lines)[i].name, '\n') {
      SectionNameWithin(lines[i]);
    }
  }

  lemma {:induction false} BackendsFree(ls: seq<Line>)
    requires NamesFree(ls)
    ensures Free(LastSection(ls), '\n') && AllFree(Backends(ls), '\n')
  {
    if ls != [] { BackendsFree(ls[..|ls| - 1]); }
  }

  lemma {:induction false} JoinFree(parts: seq<string>, sep: char, c: char)
    requires AllFree(parts, c) && sep != c
    ensures Free(Join(parts, sep), c)
  {
    if |parts| > 1 { JoinFree(parts[1..], sep, c); }
  }

  /** The lines of the text that results: two lines take the place of the last [DEFAULT] line, or come first;
      every other line is kept, in order. */
  function OutLines(lines: seq<string>): (r: seq<string>) {
    var ls := Kinds(lines);
    var d := DefaultIdx(ls);
    if !Extends(ls) then lines
    else if d == -1 then ["[DEFAULT]", EnabledLine(Backends(ls))] + lines
    else lines[..d] + ["[DEFAULT]", EnabledLine(Backends(ls))] + lines[d + 1..]
  }

  lemma TwoLinesFirst(x: string, y: string, text: string)
    requires Free(x, '\n') && Free(y, '\n')
    ensures Split(x + ['\n'] + y + ['\n'] + text, '\n') == [x, y] + Split(text, '\n')
  {
    SplitFree(x, '\n');
    SplitFree(y, '\n');
    SplitAppend(x, y + ['\n'] + text, '\n');
    SplitAppend(y, text, '\n');
    Associates(x + ['\n'], y, ['\n'] + text);
    Associates(x + ['\n'] + y, ['\n'], text);
    Associates(y, ['\n'], text);
    Associates([x], [y], Split(text, '\n'));
  }

  lemma TwoLinesAt(lines: seq<string>, d: nat, x: string, y: string)
    requires d < |lines| && AllFree(lines, '\n') && Free(x, '\n') && Free(y, '\n')
    ensures Split(Join(lines[d := x + ['\n'] + y], '\n'), '\n') == lines[..d] + [x, y] + lines[d + 1..]
  {
    var a, b := lines[..d], lines[d + 1..];
    assert lines[d := x + ['\n'] + y] == a + [x + ['\n'] + y] + b;
    JoinInner(a, x, y, b, '\n');
    SplitJoinFree(a + [x, y] + b, '\n');
  }

  lemma OutputLines(text: string)
    ensures Split(Extended(text), '\n') == OutLines(Split(text, '\n'))
  {
    var lines := Split(text, '\n');
    var ls := Kinds(lines);
    if Extends(ls) {
      SplitParts(text, '\n');
      SectionNamesFree(lines);
      BackendsFree(ls);
      JoinFree(Backends(ls), ',', '\n');
      var y := EnabledLine(Backends(ls));
      assert Free(y, '\n') && Free("[DEFAULT]", '\n');
      if DefaultIdx(ls) == -1 {
        TwoLinesFirst("[DEFAULT]", y, text);
      } else {
        TwoLinesAt(lines, DefaultIdx(ls), "[DEFAULT]", y);
      }
    }
  }

  lemma ClassifyDefault()
    ensures Classify("[DEFAULT]") == Default
  {
    DefaultReads("", "");
    assert "" + "[DEFAULT]" + "" == "[DEFAULT]";
  }

  lemma ClassifyEnabled(names: seq<string>)
    ensures Classify(EnabledLine(names)) == Enabled
  {
    EnabledReads("", "", Join(names, ','));
    assert EnabledLine(names) == Entry("", "enabled_backends", "", Join(names, ','));
  }

  lemma KindsPair(x: string, y: string)
    ensures Kinds([x, y]) == [Classify(x), Classify(y)]
  {
  }

  lemma KindsOfTwo(names: seq<string>)
    ensures Kinds(["[DEFAULT]", EnabledLine(names)]) == [Default, Enabled]
  {
    KindsPair("[DEFAULT]", EnabledLine(names));
    ClassifyDefault();
    ClassifyEnabled(names);
  }

  /** The kinds of the lines of the output. */
  lemma OutKinds(lines: seq<string>)
    requires Extends(Kinds(lines))
    ensures var ls, d := Kinds(lines), DefaultIdx(Kinds(lines));
            && (d == -1 ==> Kinds(OutLines(lines)) == [Default, Enabled] + ls)
            && (d >= 0 ==> Kinds(OutLines(lines)) == ls[..d] + [Default, Enabled] + ls[d + 1..])
  {
    var ls := Kinds(lines);
    var d := DefaultIdx(ls);
    var two := ["[DEFAULT]", EnabledLine(Backends(ls))];
    KindsOfTwo(Backends(ls));
    if d == -1 {
      KindsAppend(two, lines);
    } else {
      KindsAppend(lines[..d] + two, lines[d + 1..]);
      KindsAppend(lines[..d], two);
      KindsSlices(lines, d);
    }
  }

  // ---------------------------------------------------------------- idempotence

  function Count(ls: seq<Line>, driver: bool): (n: nat) {
    if ls == [] then 0
    else Count(ls[..|ls| - 1], driver)
         + if (driver && ls[|ls| - 1].Driver?) || (!driver && ls[|ls| - 1] == Backend) then 1 else 0
  }

  lemma {:induction false} Counts(ls: seq<Line>)
    ensures |Backends(ls)| == Count(ls, false) && Drivers(ls) == Count(ls, true)
  {
    if ls != [] { Counts(ls[..|ls| - 1]); }
  }

  lemma {:induction false} CountAppend(a: seq<Line>, b: seq<Line>, driver: bool)
    ensures Count(a + b, driver) == Count(a, driver) + Count(b, driver)
  {
    if b == [] {
      assert a + b == a;
    } else {
      CountAppend(a, b[..|b| - 1], driver);
      assert (a + b)[..|a + b| - 1] == a + b[..|b| - 1];
    }
  }

  lemma CountTwo(driver: bool)
    ensures Count([Default, Enabled], driver) == 0 && Count([Default], driver) == 0
  {
    var one, two := [Default], [Default, Enabled];
    assert two[..|two| - 1] == one && one[..|one| - 1] == [];
    assert Count(one, driver) == 0;
  }

  lemma SameCounts(ls: seq<Line>, out: seq<Line>, d: int)
    requires -1 <= d < |ls| && (d >= 0 ==> ls[d] == Default)
    requires out == if d == -1 then [Default, Enabled] + ls else ls[..d] + [Default, Enabled] + ls[d + 1..]
    ensures UsesLVM(out) == UsesLVM(ls)
  {
    Counts(ls);
    Counts(out);
    forall driver: bool ensures Count(out, driver) == Count(ls, driver) {
      CountTwo(driver);
      if d == -1 {
        CountAppend([Default, Enabled], ls, driver);
      } else {
        var a, b := ls[..d], ls[d + 1..];
        assert ls == a + [Default] + b;
        CountAppend(a + [Default, Enabled], b, driver);
        CountAppend(a, [Default, Enabled], driver);
        CountAppend(a + [Default], b, driver);
        CountAppend(a, [Default], driver);
      }
    }
    SameDrivers(ls, out, d);
  }

  lemma SameDrivers(ls: seq<Line>, out: seq<Line>, d: int)
    requires -1 <= d < |ls| && (d >= 0 ==> ls[d] == Default)
    requires out == if d == -1 then [Default, Enabled] + ls else ls[..d] + [Default, Enabled] + ls[d + 1..]
    ensures ExplicitLVM(out) == ExplicitLVM(ls)
  {
    var x := Driver(true);
    if d >= 0 {
      assert ls == ls[..d] + [Default] + ls[d + 1..];
      assert x in ls <==> x in ls[..d] || x in ls[d + 1..];
    }
  }

  /** Idempotence, for every text: the second application changes neither the text nor the verdict on LVM. */
  lemma Idempotent(text: string)
    ensures Extended(Extended(text)) == Extended(text)
    ensures UsesLVM(Kinds(Split(Extended(text), '\n'))) == UsesLVM(Kinds(Split(text, '\n')))
  {
    var lines := Split(text, '\n');
    OutputLines(text);
    if Extends(Kinds(lines)) { OutStable(lines); }
  }

  lemma OutStable(lines: seq<string>)
    requires Extends(Kinds(lines))
    ensures !Extends(Kinds(OutLines(lines))) && UsesLVM(Kinds(OutLines(lines))) == UsesLVM(Kinds(lines))
  {
    OutKinds(lines);
    var out, d := Kinds(OutLines(lines)), DefaultIdx(Kinds(lines));
    SameCounts(Kinds(lines), out, d);
    EnabledIn(Kinds(lines), out, d);
  }

  lemma EnabledIn(ls: seq<Line>, out: seq<Line>, d: int)
    requires -1 <= d < |ls|
    requires out == if d == -1 then [Default, Enabled] + ls else ls[..d] + [Default, Enabled] + ls[d + 1..]
    ensures HasEnabled(out)
  {
    assert out[d + if d == -1 then 2 else 1] == Enabled;
  }

  // ---------------------------------------------------------------- meaning

  function Trimmed(lines: seq<string>): (ts: seq<string>)
    ensures |ts| == |lines|
  {
    seq(|lines|, i requires 0 <= i < |lines| => TrimSpace(lines[i]))
  }

  function SectionStep(section: string, l: Line): (r: string) {
    if l.Default? then "DEFAULT" else if l.Section? then l.name else section
  }

  function EntryOf(l: Line, t: string, section: string): (es: seq<(string, string)>) {
    if l.Skip? || l.Default? || l.Section? then [] else [(section, t)]
  }

  /** The entries among classified lines, each with its section. */
  function Entries(ls: seq<Line>, ts: seq<string>, section: string): (es: seq<(string, string)>)
    requires |ls| == |ts|
  {
    if ls == [] then []
    else EntryOf(ls[0], ts[0], section) + Entries(ls[1..], ts[1..], SectionStep(section, ls[0]))
  }

  function SectionAfter(ls: seq<Line>, section: string): (r: string) {
    if ls == [] then section
    else
      var l := ls[|ls| - 1];
      if l.Default? then "DEFAULT" else if l.Section? then l.name else SectionAfter(ls[..|ls| - 1], section)
  }

  function EntriesOf(lines: seq<string>): (es: seq<(string, string)>) {
    Entries(Kinds(lines), Trimmed(lines), "DEFAULT")
  }

  /** The meaning of a text: its entries with their sections; what comes before any header belongs to DEFAULT. */
  function Meaning(text: string): (es: seq<(string, string)>) {
    EntriesOf(Split(text, '\n'))
  }

  lemma {:induction false} SectionAfterFirst(ls: seq<Line>, section: string)
    requires ls != []
    ensures SectionAfter(ls, section) == SectionAfter(ls[1..], SectionStep(section, ls[0]))
  {
    if |ls| > 1 {
      SectionAfterFirst(ls[..|ls| - 1], section);
      assert ls[..|ls| - 1][1..] == ls[1..][..|ls| - 2];
    }
  }

  lemma EntriesStep(ls: seq<Line>, ts: seq<string>, ms: seq<Line>, us: seq<string>, section: string)
    requires |ls| == |ts| && |ms| == |us| && ls != []
    ensures Entries(ls + ms, ts + us, section)
            == EntryOf(ls[0], ts[0], section) + Entries(ls[1..] + ms, ts[1..] + us, SectionStep(section, ls[0]))
  {
    assert (ls + ms)[1..] == ls[1..] + ms && (ts + us)[1..] == ts[1..] + us;
  }

  lemma {:induction false} EntriesAppend(ls: seq<Line>, ts: seq<string>, ms: seq<Line>, us: seq<string>,
      section: string)
    requires |ls| == |ts| && |ms| == |us|
    ensures Entries(ls + ms, ts + us, section) == Entries(ls, ts, section) + Entries(ms, us, SectionAfter(ls, section))
    decreases |ls|
  {
    if ls == [] {
      assert ls + ms == ms && ts + us == us;
    } else {
      var next := SectionStep(section, ls[0]);
      var a, b := Entries(ls[1..], ts[1..], next), Entries(ms, us, SectionAfter(ls[1..], next));
      EntriesAppend(ls[1..], ts[1..], ms, us, next);
      SectionAfterFirst(ls, section);
      EntriesStep(ls, ts, ms, us, section);
      Associates(EntryOf(ls[0], ts[0], section), a, b);
    }
  }

  /** [DEFAULT] and one entry. */
  lemma TwoMean(t: string, u: string, section: string)
    ensures Entries([Default, Enabled], [t, u], section) == [("DEFAULT", u)]
    ensures SectionAfter([Default, Enabled], section) == "DEFAULT"
  {
    assert [Default, Enabled][1..] == [Enabled] && [t, u][1..] == [u] && [Enabled][1..] == [] && [u][1..] == [];
    assert Entries([Enabled], [u], "DEFAULT") == [("DEFAULT", u)];
    var two, one := [Default, Enabled], [Default];
    assert two[..|two| - 1] == one;
    assert SectionAfter(one, section) == "DEFAULT";
  }

  lemma MeaningFirst(ls: seq<Line>, ts: seq<string>, t: string, u: string)
    requires |ls| == |ts|
    ensures Entries([Default, Enabled] + ls, [t, u] + ts, "DEFAULT") == [("DEFAULT", u)] + Entries(ls, ts, "DEFAULT")
  {
    TwoMean(t, u, "DEFAULT");
    EntriesAppend([Default, Enabled], [t, u], ls, ts, "DEFAULT");
  }

  lemma HeaderFirst(ls: seq<Line>, ts: seq<string>, section: string)
    requires |ls| == |ts| && ls != [] && ls[0] == Default
    ensures Entries(ls, ts, section) == Entries(ls[1..], ts[1..], "DEFAULT")
  {
  }

  lemma HeaderAfter(ls: seq<Line>, ts: seq<string>, ms: seq<Line>, us: seq<string>)
    requires |ls| == |ts| && |ms| == |us| && ms != [] && ms[0] == Default
    ensures Entries(ls + ms, ts + us, "DEFAULT") == Entries(ls, ts, "DEFAULT") + Entries(ms[1..], us[1..], "DEFAULT")
  {
    EntriesAppend(ls, ts, ms, us, "DEFAULT");
    HeaderFirst(ms, us, SectionAfter(ls, "DEFAULT"));
  }

  lemma HeaderMeans(ls: seq<Line>, ts: seq<string>, d: nat)
    requires |ls| == |ts| && d < |ls| && ls[d] == Default
    ensures Entries(ls, ts, "DEFAULT")
            == Entries(ls[..d], ts[..d], "DEFAULT") + Entries(ls[d + 1..], ts[d + 1..], "DEFAULT")
  {
    Around(ls, d);
    Around(ts, d);
    HeaderAfter(ls[..d], ts[..d], ls[d..], ts[d..]);
  }

  lemma MeaningAt(ls: seq<Line>, ts: seq<string>, d: nat, t: string, u: string)
    requires |ls| == |ts| && d < |ls| && ls[d] == Default
    ensures Entries(ls[..d] + [Default, Enabled] + ls[d + 1..], ts[..d] + [t, u] + ts[d + 1..], "DEFAULT")
            == Entries(ls[..d], ts[..d], "DEFAULT") + [("DEFAULT", u)] + Entries(ls[d + 1..], ts[d + 1..], "DEFAULT")
  {
    var two, section := [Default, Enabled], SectionAfter(ls[..d], "DEFAULT");
    TwoMean(t, u, section);
    EntriesAppend(two, [t, u], ls[d + 1..], ts[d + 1..], section);
    EntriesAppend(ls[..d], ts[..d], two + ls[d + 1..], [t, u] + ts[d + 1..], "DEFAULT");
    assert ls[..d] + two + ls[d + 1..] == ls[..d] + (two + ls[d + 1..]);
    assert ts[..d] + [t, u] + ts[d + 1..] == ts[..d] + ([t, u] + ts[d + 1..]);
  }

  /** The inserted entry. */
  function Insertion(ls: seq<Line>): (e: (string, string)) {
    ("DEFAULT", TrimSpace(EnabledLine(Backends(ls))))
  }

  lemma TrimmedAppend(a: seq<string>, b: seq<string>)
    ensures Trimmed(a + b) == Trimmed(a) + Trimmed(b)
  {
  }

  lemma TrimmedSlices(lines: seq<string>, d: nat)
    requires d < |lines|
    ensures Trimmed(lines[..d]) == Trimmed(lines)[..d] && Trimmed(lines[d + 1..]) == Trimmed(lines)[d + 1..]
  {
  }

  lemma TrimmedPair(x: string, y: string)
    ensures Trimmed([x, y]) == [TrimSpace(x), TrimSpace(y)]
  {
  }

  lemma OutTrimmed(lines: seq<string>)
    requires Extends(Kinds(lines))
    ensures var ts, d, t, u := Trimmed(lines), DefaultIdx(Kinds(lines)), TrimSpace("[DEFAULT]"),
        Insertion(Kinds(lines)).1;
            && (d == -1 ==> Trimmed(OutLines(lines)) == [t, u] + ts)
            && (d >= 0 ==> Trimmed(OutLines(lines)) == ts[..d] + [t, u] + ts[d + 1..])
  {
    var ls := Kinds(lines);
    var d := DefaultIdx(ls);
    var two := ["[DEFAULT]", EnabledLine(Backends(ls))];
    TrimmedPair("[DEFAULT]", EnabledLine(Backends(ls)));
    if d == -1 {
      TrimmedAppend(two, lines);
    } else {
      TrimmedAppend(lines[..d] + two, lines[d + 1..]);
      TrimmedAppend(lines[..d], two);
      TrimmedSlices(lines, d);
    }
  }

  predicate OneInserted(out: seq<(string, string)>, m: seq<(string, string)>, e: (string, string)) {
    exists k :: 0 <= k <= |m| && out == m[..k] + [e] + m[k..]
  }

  lemma InsertedBetween(a: seq<(string, string)>, b: seq<(string, string)>, e: (string, string))
    ensures OneInserted(a + [e] + b, a + b, e)
  {
    var m := a + b;
    assert a + [e] + b == m[..|a|] + [e] + m[|a|..];
  }

  lemma InsertFirst(ls: seq<Line>, ts: seq<string>, t: string, u: string)
    requires |ls| == |ts|
    ensures OneInserted(Entries([Default, Enabled] + ls, [t, u] + ts, "DEFAULT"), Entries(ls, ts, "DEFAULT"),
        ("DEFAULT", u))
  {
    var m, e := Entries(ls, ts, "DEFAULT"), ("DEFAULT", u);
    MeaningFirst(ls, ts, t, u);
    InsertedBetween([], m, e);
    assert [] + [e] + m == [e] + m && [] + m == m;
  }

  lemma InsertAt(ls: seq<Line>, ts: seq<string>, d: nat, t: string, u: string)
    requires |ls| == |ts| && d < |ls| && ls[d] == Default
    ensures OneInserted(Entries(ls[..d] + [Default, Enabled] + ls[d + 1..], ts[..d] + [t, u] + ts[d + 1..], "DEFAULT"),
                        Entries(ls, ts, "DEFAULT"), ("DEFAULT", u))
  {
    HeaderMeans(ls, ts, d);
    MeaningAt(ls, ts, d, t, u);
    InsertedBetween(Entries(ls[..d], ts[..d], "DEFAULT"), Entries(ls[d + 1..], ts[d + 1..], "DEFAULT"), ("DEFAULT", u));
  }

  lemma EntriesPreserved(lines: seq<string>)
    requires Extends(Kinds(lines))
    ensures OneInserted(EntriesOf(OutLines(lines)), EntriesOf(lines), Insertion(Kinds(lines)))
  {
    OutKinds(lines);
    OutTrimmed(lines);
    var ls, ts, t, u := Kinds(lines), Trimmed(lines), TrimSpace("[DEFAULT]"), Insertion(Kinds(lines)).1;
    if DefaultIdx(ls) == -1 {
      InsertFirst(ls, ts, t, u);
    } else {
      InsertAt(ls, ts, DefaultIdx(ls), t, u);
    }
  }

  lemma {:induction false} BackendsEmpty(ls: seq<Line>)
    ensures Backends(ls) != [] <==> Backend in ls
  {
    if ls != [] {
      BackendsEmpty(ls[..|ls| - 1]);
      assert ls == ls[..|ls| - 1] + [ls[|ls| - 1]];
    }
  }

  lemma ExtendsMeans(ls: seq<Line>)
    ensures Extends(ls) <==> Enabled !in ls && Backend in ls
  {
    BackendsEmpty(ls);
  }

  /** Afterwards backends are enabled whenever the text names any: the purpose of the function. */
  lemma BackendsEnabled(text: string)
    ensures var ls, out := Kinds(Split(text, '\n')), Kinds(Split(Extended(text), '\n'));
            Enabled in out <==> Enabled in ls || Backend in ls
  {
    var lines := Split(text, '\n');
    ExtendsMeans(Kinds(lines));
    OutputLines(text);
    if Extends(Kinds(lines)) {
      OutKinds(lines);
      EnabledIn(Kinds(lines), Kinds(OutLines(lines)), DefaultIdx(Kinds(lines)));
    }
  }

  /** The text keeps its meaning: its entries, each with its section, are those of the input in the same order,
      with one entry of DEFAULT inserted exactly when the input enables no backends and names some. */
  lemma MeaningPreserved(text: string)
    ensures var ls := Kinds(Split(text, '\n'));
            if Enabled !in ls && Backend in ls then OneInserted(Meaning(Extended(text)), Meaning(text), Insertion(ls))
            else Extended(text) == text
  {
    var lines := Split(text, '\n');
    ExtendsMeans(Kinds(lines));
    if Extends(Kinds(lines)) {
      OutputLines(text);
      EntriesPreserved(lines);
    }
  }

  // ---------------------------------------------------------------- reading the list back

  /** `name` is the nearest section header above line `i`, [DEFAULT] not counting; empty when there is none. */
  predicate Nearest(ls: seq<Line>, i: nat, name: string)
    requires i <= |ls|
  {
    || (exists j :: 0 <= j < i && ls[j] == Section(name) && forall k :: j < k < i ==> !ls[k].Section?)
    || (name == "" && forall k :: 0 <= k < i ==> !ls[k].Section?)
  }

  function OneMore(r: seq<nat>, i: nat, l: Line): (q: seq<nat>) {
    if l == Backend then r + [i] else r
  }

  /** The indices of the `volume_backend_name` lines, in order. */
  function BackendLines(ls: seq<Line>): (r: seq<nat>) {
    if ls == [] then []
    else OneMore(BackendLines(ls[..|ls| - 1]), |ls| - 1, ls[|ls| - 1])
  }

  /** `r` lists, in order, the positions of the `volume_backend_name` lines. */
  predicate ListsBackends(r: seq<nat>, ls: seq<Line>) {
    && (forall k :: 0 <= k < |r| ==> r[k] < |ls| && ls[r[k]] == Backend)
    && (forall j, k :: 0 <= j < k < |r| ==> r[j] < r[k])
    && (forall i :: 0 <= i < |ls| && ls[i] == Backend ==> i in r)
  }

  lemma ListsOneMore(r: seq<nat>, ls: seq<Line>, l: Line)
    requires ListsBackends(r, ls)
    ensures ListsBackends(OneMore(r, |ls|, l), ls + [l])
  {
    var q, ms := OneMore(r, |ls|, l), ls + [l];
    forall k | 0 <= k < |q| ensures q[k] < |ms| && ms[q[k]] == Backend {
      if k < |r| { assert q[k] == r[k]; }
    }
    forall i | 0 <= i < |ms| && ms[i] == Backend ensures i in q {
      if i < |ls| {
        assert ls[i] == Backend;
        var k :| 0 <= k < |r| && r[k] == i;
        assert q[k] == i;
      } else {
        assert q[|r|] == i;
      }
    }
  }

  lemma {:induction false} BackendLinesComplete(ls: seq<Line>)
    ensures ListsBackends(BackendLines(ls), ls)
  {
    if ls != [] {
      var prev, l := ls[..|ls| - 1], ls[|ls| - 1];
      BackendLinesComplete(prev);
      ListsOneMore(BackendLines(prev), prev, l);
      assert ls == prev + [l];
    }
  }

  lemma NearestOneMore(prev: seq<Line>, l: Line, name: string)
    requires Nearest(prev, |prev|, name) && !l.Section?
    ensures Nearest(prev + [l], |prev| + 1, name)
  {
    var ls := prev + [l];
    if j :| 0 <= j < |prev| && prev[j] == Section(name) && forall k :: j < k < |prev| ==> !prev[k].Section? {
      assert ls[j] == Section(name);
      forall k | j < k < |ls| ensures !ls[k].Section? { assert k < |prev| ==> ls[k] == prev[k]; }
    } else {
      forall k | 0 <= k < |ls| ensures !ls[k].Section? { assert k < |prev| ==> ls[k] == prev[k]; }
    }
  }

  lemma {:induction false} LastSectionNearest(ls: seq<Line>)
    ensures Nearest(ls, |ls|, LastSection(ls))
  {
    if ls != [] {
      var prev, l := ls[..|ls| - 1], ls[|ls| - 1];
      assert ls == prev + [l];
      if l.Section? {
        assert ls[|ls| - 1] == Section(LastSection(ls));
      } else {
        LastSectionNearest(prev);
        NearestOneMore(prev, l, LastSection(prev));
      }
    }
  }

  lemma NearestPrefix(ls: seq<Line>, i: nat, name: string)
    requires i <= |ls| && Nearest(ls[..i], i, name)
    ensures Nearest(ls, i, name)
  {
    if j :| 0 <= j < i && ls[..i][j] == Section(name) && forall k :: j < k < i ==> !ls[..i][k].Section? {
      assert ls[j] == Section(name);
      forall k | j < k < i ensures !ls[k].Section? { assert ls[..i][k] == ls[k]; }
    } else {
      forall k | 0 <= k < i ensures !ls[k].Section? { assert ls[..i][k] == ls[k]; }
    }
  }

  lemma {:induction false} BackendsNearest(ls: seq<Line>)
    ensures |Backends(ls)| == |BackendLines(ls)|
    ensures forall k :: 0 <= k < |Backends(ls)| ==>
              BackendLines(ls)[k] <= |ls| && Nearest(ls, BackendLines(ls)[k], Backends(ls)[k])
  {
    if ls != [] {
      var prev := ls[..|ls| - 1];
      BackendsNearest(prev);
      forall k | 0 <= k < |Backends(ls)|
        ensures BackendLines(ls)[k] <= |ls| && Nearest(ls, BackendLines(ls)[k], Backends(ls)[k])
      {
        if k < |Backends(prev)| {
          var i := BackendLines(prev)[k];
          NearestWider(prev, ls, i, Backends(prev)[k]);
        } else {
          LastSectionNearest(prev);
          NearestPrefix(ls, |ls| - 1, LastSection(prev));
        }
      }
    }
  }

  lemma NearestWider(a: seq<Line>, b: seq<Line>, i: nat, name: string)
    requires a <= b && i <= |a| && Nearest(a, i, name)
    ensures Nearest(b, i, name)
  {
    assert a[..i] == b[..i];
    if j :| 0 <= j < i && a[j] == Section(name) && forall k :: j < k < i ==> !a[k].Section? {
      assert b[j] == Section(name);
      forall k | j < k < i ensures !b[k].Section? { assert a[k] == b[k]; }
    } else {
      forall k | 0 <= k < i ensures !b[k].Section? { assert a[k] == b[k]; }
    }
  }

  /** The generated list reads back, split at the commas, as the names of the sections of the backends, one for
      each `volume_backend_name` line and in their order, if and only if no such name contains a comma. */
  lemma EnabledBackendsRoundTrip(text: string)
    requires var ls := Kinds(Split(text, '\n')); Enabled !in ls && Backend in ls
    ensures var ls := Kinds(Split(text, '\n'));
            var value := EnabledLine(Backends(ls))[|"enabled_backends="|..];
            && EnabledLine(Backends(ls)) in Split(Extended(text), '\n')
            && (AllFree(Backends(ls), ',') <==> Split(value, ',') == Backends(ls))
            && ListsBackends(BackendLines(ls), ls)
            && |Backends(ls)| == |BackendLines(ls)|
            && (forall k :: 0 <= k < |Backends(ls)| ==>
                  BackendLines(ls)[k] <= |ls| && Nearest(ls, BackendLines(ls)[k], Backends(ls)[k]))
  {
    var ls := Kinds(Split(text, '\n'));
    ExtendsMeans(ls);
    OutputLines(text);
    SplitJoin(Backends(ls), ',');
    BackendsNearest(ls);
    BackendLinesComplete(ls);
    assert EnabledLine(Backends(ls))[|"enabled_backends="|..] == Join(Backends(ls), ',');
    var out := OutLines(Split(text, '\n'));
    assert EnabledLine(Backends(ls)) in ["[DEFAULT]", EnabledLine(Backends(ls))];
  }

  // ---------------------------------------------------------------- LVM

  /** The section that line `i` is in. */
  function SectionAt(ls: seq<Line>, i: nat): (r: string)
    requires i <= |ls|
  {
    SectionAfter(ls[..i], "DEFAULT")
  }

  predicate Is(l: Line, driver: bool) {
    if driver then l.Driver? else l == Backend
  }

  /** No section has two such lines. */
  predicate OnePerSection(ls: seq<Line>, driver: bool) {
    forall i, j :: 0 <= i < j < |ls| && Is(ls[i], driver) && Is(ls[j], driver) ==> SectionAt(ls, i) != SectionAt(ls, j)
  }

  function SectionsWith(ls: seq<Line>, driver: bool): (r: set<string>) {
    set i | 0 <= i < |ls| && Is(ls[i], driver) :: SectionAt(ls, i)
  }

  lemma SectionAtPrefix(ls: seq<Line>, i: nat, n: nat)
    requires i <= n <= |ls|
    ensures SectionAt(ls[..n], i) == SectionAt(ls, i)
  {
    assert ls[..n][..i] == ls[..i];
  }

  /** With at most one line in a section there are as many sections as lines. */
  lemma {:induction false} SectionsCounted(ls: seq<Line>, driver: bool)
    requires OnePerSection(ls, driver)
    ensures |SectionsWith(ls, driver)| == Count(ls, driver)
  {
    if ls != [] {
      var n := |ls| - 1;
      OneFewer(ls, driver);
      SectionsCounted(ls[..n], driver);
      SectionsGrow(ls, driver);
    }
  }

  lemma OneFewer(ls: seq<Line>, driver: bool)
    requires OnePerSection(ls, driver) && ls != []
    ensures var n := |ls| - 1;
            OnePerSection(ls[..n], driver) && (Is(ls[n], driver) ==> SectionAt(ls, n) !in SectionsWith(ls[..n], driver))
  {
    var n := |ls| - 1;
    forall i | 0 <= i <= n ensures SectionAt(ls[..n], i) == SectionAt(ls, i) { SectionAtPrefix(ls, i, n); }
  }

  lemma SectionsGrow(ls: seq<Line>, driver: bool)
    requires ls != []
    ensures var n := |ls| - 1;
            SectionsWith(ls, driver)
            == SectionsWith(ls[..n], driver) + if Is(ls[n], driver) then {SectionAt(ls, n)} else {}
  {
    var n := |ls| - 1;
    var prev := ls[..n];
    forall i | 0 <= i <= n ensures SectionAt(prev, i) == SectionAt(ls, i) { SectionAtPrefix(ls, i, n); }
    forall x <- SectionsWith(ls, driver)
      ensures x in SectionsWith(prev, driver) + if Is(ls[n], driver) then {SectionAt(ls, n)} else {}
    {
      var i :| 0 <= i < |ls| && Is(ls[i], driver) && x == SectionAt(ls, i);
      if i < n { assert prev[i] == ls[i]; }
    }
    forall x <- SectionsWith(prev, driver) ensures x in SectionsWith(ls, driver) {
      var i :| 0 <= i < n && Is(prev[i], driver) && x == SectionAt(prev, i);
      assert ls[i] == prev[i];
    }
  }

  /** Some backend section has no driver, so that LVM is its default, or names the LVM driver. */
  predicate SomeBackendOnLVM(ls: seq<Line>) {
    exists b :: 0 <= b < |ls| && ls[b] == Backend &&
      (|| SectionAt(ls, b) !in SectionsWith(ls, true)
       || exists i :: 0 <= i < |ls| && ls[i] == Driver(true) && SectionAt(ls, i) == SectionAt(ls, b))
  }

  /** An explicit LVM driver stands in a backend section. */
  predicate LVMInBackend(ls: seq<Line>) {
    exists i :: 0 <= i < |ls| && ls[i] == Driver(true) && SectionAt(ls, i) in SectionsWith(ls, false)
  }

  /** Sections with a driver that are no backends, against backends without a driver. */
  lemma CountsCompared(d: set<string>, b: set<string>)
    ensures |d| < |b| <==> |d - b| < |b - d|
  {
    assert d == (d - b) + (d * b) && b == (b - d) + (d * b);
  }

  lemma OnLVMMeans(ls: seq<Line>)
    ensures SomeBackendOnLVM(ls) <==> LVMInBackend(ls) || !(SectionsWith(ls, false) <= SectionsWith(ls, true))
  {
    if SomeBackendOnLVM(ls) {
      var b :| 0 <= b < |ls| && ls[b] == Backend &&
        (SectionAt(ls, b) !in SectionsWith(ls, true) ||
         exists i :: 0 <= i < |ls| && ls[i] == Driver(true) && SectionAt(ls, i) == SectionAt(ls, b));
      assert Is(ls[b], false) && SectionAt(ls, b) in SectionsWith(ls, false);
    }
    if LVMInBackend(ls) {
      var i :| 0 <= i < |ls| && ls[i] == Driver(true) && SectionAt(ls, i) in SectionsWith(ls, false);
      var b :| 0 <= b < |ls| && Is(ls[b], false) && SectionAt(ls, b) == SectionAt(ls, i);
      assert SomeBackendOnLVM(ls);
    } else if x :| x in SectionsWith(ls, false) && x !in SectionsWith(ls, true) {
      var b :| 0 <= b < |ls| && Is(ls[b], false) && SectionAt(ls, b) == x;
      assert SomeBackendOnLVM(ls);
    }
  }

  /** With at most one backend name and one driver in a section, the inference of LVM by counting is right in
      exactly these cases: with an explicit LVM driver, when that stands in a backend section or some backend has no
      driver; without one, when every backend has a driver or the backends without a driver outnumber the sections
      with a driver that are no backends. */
  lemma LVMInferenceExactly(ls: seq<Line>)
    requires OnePerSection(ls, false) && OnePerSection(ls, true)
    ensures var d, b := SectionsWith(ls, true), SectionsWith(ls, false);
            (UsesLVM(ls) <==> SomeBackendOnLVM(ls)) <==>
              if ExplicitLVM(ls) then LVMInBackend(ls) || !(b <= d) else b <= d || |d - b| < |b - d|
  {
    var d, b := SectionsWith(ls, true), SectionsWith(ls, false);
    Counts(ls);
    SectionsCounted(ls, true);
    SectionsCounted(ls, false);
    CountsCompared(d, b);
    OnLVMMeans(ls);
    if b <= d { assert b - d == {}; }
  }

  /** So it is exact when, besides, drivers occur only in backend sections. */
  lemma LVMInferenceExact(ls: seq<Line>)
    requires OnePerSection(ls, false) && OnePerSection(ls, true)
    requires SectionsWith(ls, true) <= SectionsWith(ls, false)
    ensures UsesLVM(ls) <==> SomeBackendOnLVM(ls)
  {
    var d, b := SectionsWith(ls, true), SectionsWith(ls, false);
    LVMInferenceExactly(ls);
    assert d - b == {};
    if ExplicitLVM(ls) {
      var i :| 0 <= i < |ls| && ls[i] == Driver(true);
      assert Is(ls[i], true) && SectionAt(ls, i) in d;
    } else if !(b <= d) {
      var x :| x in b && x !in d;
      assert x in b - d;
    }
  }

  // ---------------------------------------------------------------- texts for which it is wrong

  /** Entries with any spaces around the key. */
  function BackendLine(a: string, b: string, value: string): (line: string) {
    Entry(a, "volume_backend_name", b, value)
  }

  function DriverLine(a: string, b: string, value: string): (line: string) {
    Entry(a, "volume_driver", b, value)
  }

  /** Spaces that stay on their line. */
  predicate Padding(s: string) { Spaces(s) && Free(s, '\n') }

  /** The value of a driver line, and whether it names the LVM driver. */
  predicate IsDriver(value: string, lvm: bool) {
    Free(value, '\n') && HasSuffix(TrimRight(value), ".LVMVolumeDriver") == lvm
  }

  lemma BackendLineReads(a: string, b: string, value: string)
    requires Padding(a) && Padding(b) && Free(value, '\n')
    ensures Classify(BackendLine(a, b, value)) == Backend && Free(BackendLine(a, b, value), '\n')
  {
    BackendReads(a, b, value);
  }

  lemma DriverLineReads(a: string, b: string, value: string, lvm: bool)
    requires Padding(a) && Padding(b) && IsDriver(value, lvm)
    ensures Classify(DriverLine(a, b, value)) == Driver(lvm) && Free(DriverLine(a, b, value), '\n')
  {
    DriverReads(a, b, value);
  }

  lemma HeaderLineReads(name: string)
    requires IsName(name)
    ensures Classify(Header(name)) == Section(name)
  {
    HeaderReads("", name, "");
    assert "" + Header(name) + "" == Header(name);
  }

  /** The lines of a text read back. */
  lemma TextReadsBack(lines: seq<string>)
    requires lines != [] && AllFree(lines, '\n')
    ensures Kinds(Split(Join(lines, '\n'), '\n')) == Kinds(lines)
  {
    SplitJoinFree(lines, '\n');
  }

  lemma SectionsOf(a: string, b: string, l: Line, m: Line, n: Line)
    requires !l.Section? && !l.Default? && !m.Section? && !m.Default?
    ensures var ls := [Section(a), l, m, Section(b), n];
            SectionAt(ls, 1) == a && SectionAt(ls, 2) == a && SectionAt(ls, 4) == b
  {
    var ls := [Section(a), l, m, Section(b), n];
    assert ls[..4] == [Section(a), l, m, Section(b)] && ls[..2] == [Section(a), l] && ls[..1] == [Section(a)];
    assert ls[..2][..1] == ls[..1];
  }

  /** A backend `a` without a driver, and the driver `v` in a section `b` that is no backend. */
  function HidingText(a: string, b: string, v: string, p: string, q: string): (text: string) {
    Join([Header(a), BackendLine(p, q, a), "", Header(b), DriverLine(p, q, v)], '\n')
  }

  /** A backend `a` with the driver `v`, and the driver `u` in a section `b` that is no backend. */
  function StrayText(a: string, b: string, v: string, u: string, p: string, q: string): (text: string) {
    Join([Header(a), BackendLine(p, q, a), DriverLine(p, q, v), Header(b), DriverLine(p, q, u)], '\n')
  }

  lemma FiveLines(v: string, w: string, x: string, y: string, z: string)
    requires Free(v, '\n') && Free(w, '\n') && Free(x, '\n') && Free(y, '\n') && Free(z, '\n')
    ensures Kinds(Split(Join([v, w, x, y, z], '\n'), '\n'))
        == [Classify(v), Classify(w), Classify(x), Classify(y), Classify(z)]
  {
    TextReadsBack([v, w, x, y, z]);
  }

  lemma HidingKinds(a: string, b: string, v: string, p: string, q: string)
    requires Padding(p) && Padding(q) && IsName(a) && IsName(b) && IsDriver(v, false)
    ensures Kinds(Split(HidingText(a, b, v, p, q), '\n')) == [Section(a), Backend, Skip, Section(b), Driver(false)]
  {
    HeaderLineReads(a);
    HeaderLineReads(b);
    BackendLineReads(p, q, a);
    DriverLineReads(p, q, v, false);
    BlankReads("");
    FiveLines(Header(a), BackendLine(p, q, a), "", Header(b), DriverLine(p, q, v));
  }

  lemma StrayKinds(a: string, b: string, v: string, u: string, p: string, q: string)
    requires Padding(p) && Padding(q) && IsName(a) && IsName(b) && IsDriver(v, false) && IsDriver(u, true)
    ensures Kinds(Split(StrayText(a, b, v, u, p, q), '\n'))
            == [Section(a), Backend, Driver(false), Section(b), Driver(true)]
  {
    HeaderLineReads(a);
    HeaderLineReads(b);
    BackendLineReads(p, q, a);
    DriverLineReads(p, q, v, false);
    DriverLineReads(p, q, u, true);
    FiveLines(Header(a), BackendLine(p, q, a), DriverLine(p, q, v), Header(b), DriverLine(p, q, u));
  }

  /** The two ways in which it is wrong, as texts, for all section names and drivers. A driver in a section that is
      no backend hides a backend that falls back to LVM; an LVM driver in such a section is taken for a backend. */
  lemma StrayDriverMisleads(a: string, b: string, v: string, u: string, p: string, q: string)
    requires Padding(p) && Padding(q) && IsName(a) && IsName(b) && a != b && IsDriver(v, false) && IsDriver(u, true)
    ensures var ls := Kinds(Split(HidingText(a, b, v, p, q), '\n'));
            OnePerSection(ls, false) && OnePerSection(ls, true) && SomeBackendOnLVM(ls) && !UsesLVM(ls)
    ensures var ls := Kinds(Split(StrayText(a, b, v, u, p, q), '\n'));
            OnePerSection(ls, false) && OnePerSection(ls, true) && !SomeBackendOnLVM(ls) && UsesLVM(ls)
  {
    HidingKinds(a, b, v, p, q);
    StrayKinds(a, b, v, u, p, q);
    HidingLines(a, b);
    StrayLines(a, b);
  }

  lemma HidingLines(a: string, b: string)
    requires a != b
    ensures var ls := [Section(a), Backend, Skip, Section(b), Driver(false)];
            OnePerSection(ls, false) && OnePerSection(ls, true) && SomeBackendOnLVM(ls) && !UsesLVM(ls)
  {
    var ls := [Section(a), Backend, Skip, Section(b), Driver(false)];
    SectionsOf(a, b, Backend, Skip, Driver(false));
    assert OnePerSection(ls, false) && OnePerSection(ls, true);
    assert SectionsWith(ls, true) == {b} by { assert ls[4].Driver?; }
    assert SectionsWith(ls, false) == {a} by { assert ls[1] == Backend; }
    Counts(ls);
    SectionsCounted(ls, true);
    SectionsCounted(ls, false);
    OnLVMMeans(ls);
  }

  lemma StrayLines(a: string, b: string)
    requires a != b
    ensures var ls := [Section(a), Backend, Driver(false), Section(b), Driver(true)];
            OnePerSection(ls, false) && OnePerSection(ls, true) && !SomeBackendOnLVM(ls) && UsesLVM(ls)
  {
    var ls := [Section(a), Backend, Driver(false), Section(b), Driver(true)];
    SectionsOf(a, b, Backend, Driver(false), Driver(true));
    assert OnePerSection(ls, false) && OnePerSection(ls, true);
    assert SectionsWith(ls, true) == {a, b} by { assert ls[2].Driver? && ls[4].Driver?; }
    assert SectionsWith(ls, false) == {a} by { assert ls[1] == Backend; }
    OnLVMMeans(ls);
    assert ls[4] == Driver(true);
  }

  // ---------------------------------------------------------------- one backend, from the text to the result

  /** The shortest text with a backend, with any spaces around the key. */
  function OneBackend(name: string, p: string, q: string, y: string): (text: string) {
    Join([Header(name), BackendLine(p, q, y)], '\n')
  }

  lemma OneBackendKinds(name: string, p: string, q: string, y: string)
    requires IsName(name) && Padding(p) && Padding(q) && Free(y, '\n')
    ensures Kinds(Split(OneBackend(name, p, q, y), '\n')) == [Section(name), Backend]
  {
    HeaderLineReads(name);
    BackendLineReads(p, q, y);
    TextReadsBack([Header(name), BackendLine(p, q, y)]);
    KindsPair(Header(name), BackendLine(p, q, y));
  }

  lemma OneBackendScan(name: string)
    ensures var ls := [Section(name), Backend];
            Backends(ls) == [name] && DefaultIdx(ls) == -1 && Enabled !in ls && UsesLVM(ls)
  {
    var ls, one := [Section(name), Backend], [Section(name)];
    assert ls[..|ls| - 1] == one && one[..|one| - 1] == [];
    assert LastSection(one) == name && Backends(one) == [] && Drivers(one) == 0;
  }

  /** Its backend is enabled in a new section in front, and taken for LVM. */
  lemma OneBackendEnabled(name: string, p: string, q: string, y: string)
    requires IsName(name) && Padding(p) && Padding(q) && Free(y, '\n')
    ensures var text := OneBackend(name, p, q, y);
            && Extended(text) == "[DEFAULT]" + ['\n'] + ("enabled_backends=" + name) + ['\n'] + text
            && UsesLVM(Kinds(Split(text, '\n')))
  {
    OneBackendKinds(name, p, q, y);
    OneBackendScan(name);
    ExtendsMeans([Section(name), Backend]);
    assert Join([name], ',') == name;
  }
}
