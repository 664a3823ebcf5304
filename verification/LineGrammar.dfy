/** How the lines of the INI text read, whatever spaces stand around keys, headers and comments. */
module LineGrammar {
  import opened Common
  import opened Text
  import opened ServiceConfig

  /** A line `key = value`, with any spaces before and after the key. */
  function Entry(a: string, key: string, b: string, y: string): (line: string) {
    a + (key + b + ['='] + y)
  }

  lemma SpacesFree(s: string)
    requires Spaces(s)
    ensures Free(s, '=')
  {
  }

  lemma TightStart(key: string, z: string)
    requires Tight(key)
    ensures key + z != "" && !IsSpace((key + z)[0])
  {
  }

  lemma TrimEntry(a: string, p: string, y: string)
    requires Spaces(a) && p != "" && !IsSpace(p[0]) && !IsSpace(p[|p| - 1])
    ensures TrimSpace(a + (p + y)) == p + TrimRight(y)
  {
    TrimLeftSpaces(a, p + y);
    TrimRightAfter(p, y);
  }

  /** The key of an entry is what stands before the equals sign, without the spaces around it. */
  lemma TokenOfEntry(a: string, key: string, b: string, y: string)
    requires Tight(key) && Free(key, '=') && Spaces(a) && Spaces(b)
    ensures Token(Entry(a, key, b, y)) == key
    ensures TrimSpace(Entry(a, key, b, y)) == key + b + ['='] + TrimRight(y)
  {
    var p := key + b + ['='];
    assert p[0] == key[0] && p[|p| - 1] == '=';
    TrimEntry(a, p, y);
    TokenFrom(Entry(a, key, b, y), key, b, TrimRight(y));
  }

  lemma TokenFrom(raw: string, key: string, b: string, z: string)
    requires Tight(key) && Free(key, '=') && Spaces(b) && TrimSpace(raw) == key + b + ['='] + z
    ensures Token(raw) == key
  {
    SpacesFree(b);
    BeforeFree(key + b, z, '=');
    TrimRightPadded(key, b);
  }

  lemma TrimRightPadded(s: string, b: string)
    requires Tight(s) && Spaces(b)
    ensures TrimSpace(s + b) == s
  {
    TrimPadded("", s, b);
    assert "" + s + b == s + b;
  }

  lemma ClassifyEntry(a: string, key: string, b: string, y: string)
    requires Tight(key) && Free(key, '=') && Spaces(a) && Spaces(b)
    ensures Classify(Entry(a, key, b, y)) == KindOf(key, key + b + ['='] + TrimRight(y))
  {
    TokenOfEntry(a, key, b, y);
  }

  lemma TrimPadded(a: string, s: string, b: string)
    requires Tight(s) && Spaces(a) && Spaces(b)
    ensures TrimSpace(a + s + b) == s
  {
    TightStart(s, b);
    assert a + s + b == a + (s + b);
    TrimLeftSpaces(a, s + b);
    TrimRightAfter(s, b);
    TrimRightSpaces(b);
    assert s + "" == s;
  }

  /** A line without an equals sign is its own token. */
  lemma TokenAlone(a: string, s: string, b: string)
    requires Tight(s) && Free(s, '=') && Spaces(a) && Spaces(b)
    ensures Token(a + s + b) == s && TrimSpace(a + s + b) == s
  {
    TrimPadded(a, s, b);
    BeforeFree(s, "", '=');
    TrimTight(s);
  }

  lemma ClassifyAlone(a: string, s: string, b: string)
    requires Tight(s) && Free(s, '=') && Spaces(a) && Spaces(b)
    ensures Classify(a + s + b) == KindOf(s, s)
  {
    TokenAlone(a, s, b);
  }

  // ---------------------------------------------------------------- entries

  lemma KnownKeys(key: string, line: string)
    ensures key == "enabled_backends" ==> KindOf(key, line) == Enabled
    ensures key == "[DEFAULT]" ==> KindOf(key, line) == Default
    ensures key == "volume_backend_name" ==> KindOf(key, line) == Backend
    ensures key == "volume_driver" ==> KindOf(key, line) == Driver(HasSuffix(line, ".LVMVolumeDriver"))
  {
    if HasPrefix(key, "#") { assert key[0] == '#'; }
    if HasPrefix(key, "[") { assert key[0] == '['; }
  }

  lemma EnabledReads(a: string, b: string, y: string)
    requires Spaces(a) && Spaces(b)
    ensures Classify(Entry(a, "enabled_backends", b, y)) == Enabled
  {
    ClassifyEntry(a, "enabled_backends", b, y);
    KnownKeys("enabled_backends", "enabled_backends" + b + ['='] + TrimRight(y));
  }

  lemma BackendReads(a: string, b: string, y: string)
    requires Spaces(a) && Spaces(b)
    ensures Classify(Entry(a, "volume_backend_name", b, y)) == Backend
  {
    ClassifyEntry(a, "volume_backend_name", b, y);
    KnownKeys("volume_backend_name", "volume_backend_name" + b + ['='] + TrimRight(y));
  }

  /** A driver is LVM when its value, without the spaces after it, ends in the name of the LVM driver. */
  lemma DriverReads(a: string, b: string, y: string)
    requires Spaces(a) && Spaces(b)
    ensures Classify(Entry(a, "volume_driver", b, y)) == Driver(HasSuffix(TrimRight(y), ".LVMVolumeDriver"))
  {
    ClassifyEntry(a, "volume_driver", b, y);
    KnownKeys("volume_driver", "volume_driver" + b + ['='] + TrimRight(y));
    SuffixAfter("volume_driver" + b, '=', TrimRight(y), ".LVMVolumeDriver");
  }

  /** Every other key makes an entry that the scan passes over. */
  lemma OtherReads(a: string, key: string, b: string, y: string)
    requires Tight(key) && Free(key, '=') && Spaces(a) && Spaces(b) && key[0] != '#' && key[0] != '['
    requires key != "enabled_backends" && key != "volume_backend_name" && key != "volume_driver"
    ensures Classify(Entry(a, key, b, y)) == Other
  {
    ClassifyEntry(a, key, b, y);
    OtherKind(key, key + b + ['='] + TrimRight(y));
  }

  lemma OtherKind(key: string, line: string)
    requires key != "" && key[0] != '#' && key[0] != '['
    requires key != "enabled_backends" && key != "volume_backend_name" && key != "volume_driver"
    ensures KindOf(key, line) == Other
  {
  }

  // ---------------------------------------------------------------- blank lines, comments, headers

  lemma BlankReads(a: string)
    requires Spaces(a)
    ensures Classify(a) == Skip
  {
    TrimLeftSpaces(a, "");
    assert a + "" == a;
  }

  lemma CommentReads(a: string, y: string)
    requires Spaces(a)
    ensures Classify(a + (['#'] + y)) == Skip
  {
    var s := ['#'] + y;
    TrimLeftSpaces(a, s);
    TrimRightAfter(['#'], y);
    assert TrimSpace(a + s) == ['#'] + TrimRight(y);
    var z := Before(['#'] + TrimRight(y), '=');
    assert z[0] == '#';
    TrimRightAfter(['#'], z[1..]);
    assert z == ['#'] + z[1..];
    CommentKind(TrimSpace(z), TrimSpace(a + s));
  }

  lemma CommentKind(token: string, line: string)
    requires token != "" && token[0] == '#'
    ensures KindOf(token, line) == Skip
  {
    assert "#" <= token;
  }

  lemma DefaultReads(a: string, b: string)
    requires Spaces(a) && Spaces(b)
    ensures Classify(a + "[DEFAULT]" + b) == Default
  {
    ClassifyAlone(a, "[DEFAULT]", b);
    KnownKeys("[DEFAULT]", "[DEFAULT]");
  }

  /** A name that a section other than DEFAULT can have. */
  predicate IsName(name: string) {
    && name != "DEFAULT" && Free(name, '=') && Free(name, '\n')
    && (name != "" ==> !IsBracket(name[0]) && !IsBracket(name[|name| - 1]))
  }

  function Header(name: string): (line: string) { ['['] + name + [']'] }

  /** The grammar reads a header back: `[name]` opens the section of that name. */
  lemma HeaderReads(a: string, name: string, b: string)
    requires IsName(name) && Spaces(a) && Spaces(b)
    ensures Classify(a + Header(name) + b) == Section(name)
  {
    var raw := Header(name);
    ClassifyAlone(a, raw, b);
    TrimBracketsInner(name);
    HeaderKind(name, raw);
  }

  lemma HeaderKind(name: string, raw: string)
    requires name != "DEFAULT" && raw == ['['] + name + [']']
    ensures KindOf(raw, raw) == Section(TrimBrackets(raw))
  {
    assert raw[0] == '[' && raw[|raw| - 1..] == "]";
    assert raw[1..|raw| - 1] == name;
    assert "[DEFAULT]"[1..8] == "DEFAULT";
  }
}
