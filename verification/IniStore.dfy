/** The INI parser, and the strategy-state store written for it. */
module IniStore {
  import opened Text
  import opened Domain

  // ---- Lines ----

  /** How many characters precede the first `c`. */
  function IndexOf(s: string, c: char): (n: nat)
    ensures n <= |s| && (n < |s| ==> s[n] == c) && c !in s[..n]
  {
    if s == "" || s[0] == c then 0
    else
      var n := 1 + IndexOf(s[1..], c);
      assert s[..n] == [s[0]] + s[1..][..n - 1];
      n
  }

  /** What `getline` reads: the text cut at newlines, where a last line may lack one. */
  function Lines(text: string): seq<string>
    decreases |text|
  {
    if text == "" then []
    else
      var n := IndexOf(text, '\n');
      if n == |text| then [text] else [text[..n]] + Lines(text[n + 1..])
  }

  function Joined(lines: seq<string>): string {
    if lines == [] then "" else lines[0] + "\n" + Joined(lines[1..])
  }

  predicate OnOneLine(s: string) {
    '\n' !in s
  }

  lemma {:induction false} IndexOfFirst(s: string, c: char, t: string)
    requires c !in s
    ensures IndexOf(s + [c] + t, c) == |s|
  {
    if s != "" {
      IndexOfFirst(s[1..], c, t);
      assert (s + [c] + t)[1..] == s[1..] + [c] + t;
    }
  }

  function AfterFirstLine(text: string): string {
    var n := IndexOf(text, '\n');
    if n == |text| then "" else text[n + 1..]
  }

  lemma FirstLine(text: string)
    requires text != ""
    ensures Lines(text) == [text[..IndexOf(text, '\n')]] + Lines(AfterFirstLine(text))
    ensures |AfterFirstLine(text)| < |text|
  {
    assert text[..|text|] == text;
  }

  lemma {:induction false} LinesOfJoined(lines: seq<string>)
    requires forall line :: line in lines ==> OnOneLine(line)
    ensures Lines(Joined(lines)) == lines
  {
    if lines != [] {
      assert OnOneLine(lines[0]);
      IndexOfFirst(lines[0], '\n', Joined(lines[1..]));
      var text := Joined(lines);
      assert text == lines[0] + ['\n'] + Joined(lines[1..]);
      assert text[..|lines[0]|] == lines[0] && text[|lines[0]| + 1..] == Joined(lines[1..]);
      LinesOfJoined(lines[1..]);
    }
  }

  // ---- The parser ----

  datatype Parsed = Skip | Header(name: string) | Pair(key: string, value: string)

  /** What one line of an INI file says. */
  function ParseLine(line: string): Parsed {
    var t := Trim(line);
    if t == "" || t[0] == '#' || t[0] == ';' then Skip
    else if t[0] == '[' && t[|t| - 1] == ']' then Header(Trim(t[1..|t| - 1]))
    else
      var n := IndexOf(t, '=');
      if n == |t| then Skip else Pair(Trim(t[..n]), Trim(t[n + 1..]))
  }

  type Section = map<string, string>

  datatype Reading = Reading(sections: map<string, Section>, current: string)

  const NOTHING_READ := Reading(map[], "")

  function SectionAt(sections: map<string, Section>, name: string): Section {
    if name in sections then sections[name] else map[]
  }

  function ReadLine(r: Reading, line: string): Reading {
    match ParseLine(line)
    case Skip => r
    case Header(name) => Reading(r.sections[name := SectionAt(r.sections, name)], name)
    case Pair(key, value) => r.(sections := r.sections[r.current := SectionAt(r.sections, r.current)[key := value]])
  }

  function ReadLines(r: Reading, lines: seq<string>): Reading
    decreases |lines|
  {
    if lines == [] then r else ReadLines(ReadLine(r, lines[0]), lines[1..])
  }

  class IniFile {
    var sections: map<string, Section>

    /** `IniFile::parse`. */
    constructor (text: string)
      ensures sections == ReadLines(NOTHING_READ, Lines(text)).sections
    {
      new;
      hide ReadLine, AfterFirstLine, IndexOf;
      sections := map[];
      var current, rest := "", text;
      while rest != ""
        invariant ReadLines(Reading(sections, current), Lines(rest)) == ReadLines(NOTHING_READ, Lines(text))
        decreases |rest|
      {
        FirstLine(rest);
        var line := rest[..IndexOf(rest, '\n')];
        rest := AfterFirstLine(rest);
        current := ParseOne(line, current);
      }
    }

    /** One turn of the loop of `IniFile::parse`. */
    method ParseOne(line: string, current: string) returns (next: string)
      modifies this
      ensures Reading(sections, next) == ReadLine(Reading(old(sections), current), line)
    {
      hide Trim;
      next := current;
      var trimmed := Trim(line);
      if trimmed == "" || trimmed[0] == '#' || trimmed[0] == ';' {
        return;
      }
      if trimmed[0] == '[' && trimmed[|trimmed| - 1] == ']' {
        next := Trim(trimmed[1..|trimmed| - 1]);
        sections := sections[next := SectionAt(sections, next)];
        return;
      }
      var delimiter := IndexOf(trimmed, '=');
      if delimiter == |trimmed| {
        return;
      }
      var key, value := Trim(trimmed[..delimiter]), Trim(trimmed[delimiter + 1..]);
      sections := sections[current := SectionAt(sections, current)[key := value]];
    }

    function SectionsWithPrefix(prefix: string): set<string>
      reads this
    {
      set name | name in sections && prefix <= name
    }
  }

  // ---- One line ----

  lemma {:induction false} TrimRightIsTrimmed(s: string)
    ensures var t := TrimRight(s); (t != [] ==> !IsSpace(t[|t| - 1])) && t <= s
  {
    if s != [] && IsSpace(s[|s| - 1]) {
      TrimRightIsTrimmed(s[..|s| - 1]);
    }
  }

  lemma {:induction false} TrimLeftStartsClean(s: string)
    ensures TrimLeft(s) != [] ==> !IsSpace(TrimLeft(s)[0])
  {
    if s != [] && IsSpace(s[0]) {
      TrimLeftStartsClean(s[1..]);
    }
  }

  lemma TrimIsTrimmed(s: string)
    ensures Trimmed(Trim(s))
  {
    TrimLeftStartsClean(s);
    TrimRightIsTrimmed(TrimLeft(s));
  }

  /** An entry that survives on a line of its own. */
  predicate SafeEntry(key: string, value: string) {
    && Trimmed(key) && Trimmed(value) && '=' !in key
    && (key != "" ==> key[0] != '#' && key[0] != ';' && !(key[0] == '[' && value != "" && value[|value| - 1] == ']'))
  }

  lemma {:induction false} TrimLeftIsSuffix(s: string)
    ensures |TrimLeft(s)| <= |s| && TrimLeft(s) == s[|s| - |TrimLeft(s)|..]
  {
    if s != [] && IsSpace(s[0]) {
      TrimLeftIsSuffix(s[1..]);
    }
  }

  /** Trimming adds no character. */
  lemma TrimAddsNothing(s: string, c: char)
    requires c !in s
    ensures c !in Trim(s)
  {
    TrimLeftIsSuffix(s);
    TrimRightIsTrimmed(TrimLeft(s));
  }

  lemma SafeReadsBack(key: string, value: string)
    requires SafeEntry(key, value)
    ensures ParseLine(key + "=" + value) == Pair(key, value)
  {
    hide Trim;
    var line := key + "=" + value;
    assert Trimmed(line);
    TrimmedIsFixed(line);
    assert line == key + ['='] + value;
    IndexOfFirst(key, '=', value);
    assert line[..|key|] == key && line[|key| + 1..] == value;
    TrimmedIsFixed(key);
    TrimmedIsFixed(value);
  }

  lemma ReadBackIsSafe(key: string, value: string)
    requires ParseLine(key + "=" + value) == Pair(key, value)
    ensures SafeEntry(key, value)
  {
    hide Trim;
    var line := key + "=" + value;
    var t := Trim(line);
    var n := IndexOf(t, '=');
    TrimIsTrimmed(t[..n]);
    TrimIsTrimmed(t[n + 1..]);
    TrimAddsNothing(t[..n], '=');
    assert Trimmed(line);
    TrimmedIsFixed(line);
  }

  /** A printed entry reads back as itself exactly when it is safe: key and value trimmed, no '=' in the key, and the
      line not mistaken for a comment or a section header. */
  lemma EntryReadsBack(key: string, value: string)
    ensures ParseLine(key + "=" + value) == Pair(key, value) <==> SafeEntry(key, value)
  {
    hide ParseLine, SafeEntry;
    if SafeEntry(key, value) {
      SafeReadsBack(key, value);
    } else if ParseLine(key + "=" + value) == Pair(key, value) {
      ReadBackIsSafe(key, value);
    }
  }

  /** A key that needs no trimming survives whatever follows its '=', although the value may be trimmed. */
  lemma KeyReadsBack(key: string, value: string)
    requires key != "" && Trimmed(key) && '=' !in key && key[0] != '#' && key[0] != ';' && key[0] != '['
    ensures ParseLine(key + "=" + value).Pair? && ParseLine(key + "=" + value).key == key
  {
    hide TrimRight;
    var start := key + "=";
    var line := start + value;
    TrimRightStops(start, value);
    assert Trim(line) == key + ['='] + TrimRight(value);
    IndexOfFirst(key, '=', TrimRight(value));
    assert Trim(line)[..|key|] == key;
    TrimmedIsFixed(key);
  }

  /** A header reads back as its name when that ends in no space. */
  lemma HeaderReadsBack(name: string)
    requires Trimmed(name)
    ensures ParseLine("[" + name + "]") == Header(name)
  {
    hide Trim;
    var line := "[" + name + "]";
    assert Trimmed(line);
    TrimmedIsFixed(line);
    assert line[1..|line| - 1] == name;
    TrimmedIsFixed(name);
  }

  // ---- The strategy-state store ----

  datatype Entry = Entry(key: string, value: string)

  /** A live strategy and its captured state, as a list in key order. */
  datatype LiveStrategy = LiveStrategy(strategyId: string, accountId: string, name: string, state: seq<Entry>)
  {
    /** `telemetry_attachment_key`. */
    function Key(): string { strategyId + "::" + accountId }
  }

  const PREFIX := "strategy_state."

  /** Keys the store keeps for itself; a strategy's own entries under them are not written. */
  predicate Reserved(key: string) {
    key == "" || "__" <= key
  }

  function EntryLines(state: seq<Entry>): seq<string> {
    if state == [] then []
    else
      (if Reserved(state[0].key) then [] else [state[0].key + "=" + state[0].value]) + EntryLines(state[1..])
  }

  /** The lines of one strategy: a header, two reserved entries, its state, and a blank line. */
  function Block(s: LiveStrategy, now: string): seq<string> {
    ["[" + PREFIX + s.Key() + "]", "__updated_at=" + now, "__strategy_name=" + s.name] + EntryLines(s.state) + [""]
  }

  function Blocks(strategies: seq<LiveStrategy>, now: string): seq<string> {
    if strategies == [] then []
    else (if strategies[0].state == [] then [] else Block(strategies[0], now)) + Blocks(strategies[1..], now)
  }

  function StoreLines(strategies: seq<LiveStrategy>, now: string): seq<string> {
    ["[strategy_state_store]", "updated_at=" + now, ""] + Blocks(strategies, now)
  }

  lemma {:induction false} JoinedConcat(a: seq<string>, b: seq<string>)
    ensures Joined(a + b) == Joined(a) + Joined(b)
  {
    if a == [] {
      assert a + b == b;
    } else {
      assert (a + b)[1..] == a[1..] + b;
      JoinedConcat(a[1..], b);
    }
  }

  lemma JoinedLine(line: string)
    ensures Joined([line]) == line + "\n"
  {
    assert [line][1..] == [];
  }

  method WriteEntries(output: string, state: seq<Entry>) returns (text: string)
    ensures text == output + Joined(EntryLines(state))
  {
    hide Reserved;
    text := output;
    for n := 0 to |state|
      invariant text == output + Joined(EntryLines(state[..n]))
    {
      var entry := state[n];
      OneMoreEntryLine(state[..n], entry);
      assert state[..n + 1] == state[..n] + [entry];
      if !Reserved(entry.key) {
        text := text + (entry.key + "=" + entry.value + "\n");
      }
    }
    assert state[..|state|] == state;
  }

  lemma {:induction false} EntryLinesConcat(a: seq<Entry>, b: seq<Entry>)
    ensures EntryLines(a + b) == EntryLines(a) + EntryLines(b)
  {
    hide Reserved;
    if a == [] {
      assert a + b == b;
    } else {
      assert (a + b)[1..] == a[1..] + b;
      EntryLinesConcat(a[1..], b);
    }
  }

  lemma OneMoreEntryLine(state: seq<Entry>, entry: Entry)
    ensures Joined(EntryLines(state + [entry]))
         == Joined(EntryLines(state)) + if Reserved(entry.key) then "" else entry.key + "=" + entry.value + "\n"
  {
    hide Reserved;
    EntryLinesConcat(state, [entry]);
    JoinedConcat(EntryLines(state), EntryLines([entry]));
    assert [entry][1..] == [];
    if !Reserved(entry.key) {
      assert EntryLines([entry]) == [entry.key + "=" + entry.value];
      JoinedLine(entry.key + "=" + entry.value);
    }
  }

  /** `write_strategy_state_store`. */
  method WriteStrategyStateStore(strategies: seq<LiveStrategy>, now: string) returns (text: string)
    ensures text == Joined(StoreLines(strategies, now))
  {
    hide Block, EntryLines;
    text := "[strategy_state_store]\n" + "updated_at=" + now + "\n\n";
    TitleText(now);
    for n := 0 to |strategies|
      invariant text == Joined(StoreLines(strategies[..n], now))
    {
      var strategy := strategies[n];
      OneMoreBlock(strategies[..n], strategy, now);
      assert strategies[..n + 1] == strategies[..n] + [strategy];
      if strategy.state != [] {
        BlockText(strategy, now);
        var body := WriteEntries(HeaderText(strategy, now), strategy.state);
        text := text + (body + "\n");
      }
    }
    assert strategies[..|strategies|] == strategies;
  }

  lemma TitleText(now: string)
    ensures "[strategy_state_store]\n" + "updated_at=" + now + "\n\n" == Joined(StoreLines([], now))
  {
    var updated := "updated_at=" + now;
    assert StoreLines([], now) == ["[strategy_state_store]", updated, ""];
    assert ["[strategy_state_store]", updated, ""][1..] == [updated, ""];
    assert [updated, ""][1..] == [""];
    JoinedLine("");
  }

  lemma {:induction false} BlocksConcat(a: seq<LiveStrategy>, b: seq<LiveStrategy>, now: string)
    ensures Blocks(a + b, now) == Blocks(a, now) + Blocks(b, now)
  {
    hide Block;
    if a == [] {
      assert a + b == b;
    } else {
      assert (a + b)[1..] == a[1..] + b;
      BlocksConcat(a[1..], b, now);
    }
  }

  lemma OneMoreBlock(strategies: seq<LiveStrategy>, s: LiveStrategy, now: string)
    ensures Joined(StoreLines(strategies + [s], now))
         == Joined(StoreLines(strategies, now)) + if s.state == [] then "" else Joined(Block(s, now))
  {
    hide Block, Joined;
    BlocksConcat(strategies, [s], now);
    assert [s][1..] == [];
    assert Blocks([s], now) == if s.state == [] then [] else Block(s, now);
    assert StoreLines(strategies + [s], now) == StoreLines(strategies, now) + Blocks([s], now);
    JoinedConcat(StoreLines(strategies, now), Blocks([s], now));
    NothingJoined();
  }

  lemma NothingJoined()
    ensures Joined([]) == ""
  {
  }

  lemma JoinedCons(line: string, rest: seq<string>)
    ensures Joined([line] + rest) == line + "\n" + Joined(rest)
  {
    assert ([line] + rest)[1..] == rest;
  }

  lemma BlockText(s: LiveStrategy, now: string)
    ensures Joined(Block(s, now)) == HeaderText(s, now) + Joined(EntryLines(s.state)) + "\n"
  {
    hide EntryLines, Joined;
    var first, second, third := "[" + PREFIX + s.Key() + "]", "__updated_at=" + now, "__strategy_name=" + s.name;
    var rest := EntryLines(s.state) + [""];
    assert Block(s, now) == [first] + ([second] + ([third] + rest));
    JoinedCons(first, [second] + ([third] + rest));
    JoinedCons(second, [third] + rest);
    JoinedCons(third, rest);
    JoinedConcat(EntryLines(s.state), [""]);
    JoinedLine("");
    FourParts(first + "\n", second + "\n", third + "\n", Joined(EntryLines(s.state)) + "\n");
  }

  /** The header and the reserved entries of a strategy's block. */
  function HeaderText(s: LiveStrategy, now: string): string {
    ("[" + PREFIX + s.Key() + "]" + "\n") + ("__updated_at=" + now + "\n") + ("__strategy_name=" + s.name + "\n")
  }

  lemma FourParts(a: string, b: string, c: string, d: string)
    ensures a + (b + (c + d)) == a + b + c + d
  {
  }

  // ---- Reading the store ----

  function Unreserved(section: Section): Section {
    map key | key in section && !Reserved(key) :: section[key]
  }

  /** `read_strategy_state_store`: the sections under the prefix, by attachment key, without reserved entries. */
  function StoreOf(sections: map<string, Section>): map<string, Section> {
    map key | key in AttachmentKeys(sections) :: Unreserved(sections[PREFIX + key])
  }

  function AttachmentKeys(sections: map<string, Section>): (keys: set<string>)
    ensures forall key :: key in keys <==> key != "" && PREFIX + key in sections
  {
    var keys := set name | name in sections && PREFIX < name :: name[|PREFIX|..];
    assert forall name :: PREFIX < name ==> PREFIX + name[|PREFIX|..] == name;
    assert forall key :: (PREFIX + key)[|PREFIX|..] == key;
    keys
  }

  method ReadStrategyStateStore(ini: IniFile) returns (store: map<string, Section>)
    ensures store == StoreOf(ini.sections)
  {
    hide Unreserved;
    store := map[];
    var rest := ini.SectionsWithPrefix(PREFIX);
    ghost var keys := AttachmentKeys(ini.sections);
    assert forall key :: key in keys ==> PREFIX <= PREFIX + key;
    while rest != {}
      invariant forall name :: name in rest ==> name in ini.sections && PREFIX <= name
      invariant forall key :: key in store <==> key in keys && PREFIX + key !in rest
      invariant forall key :: key in store ==> store[key] == Unreserved(ini.sections[PREFIX + key])
      decreases |rest|
    {
      var name :| name in rest;
      var key := name[|PREFIX|..];
      assert name == PREFIX + key;
      assert forall other :: PREFIX + other == name ==> (PREFIX + other)[|PREFIX|..] == key && other == key;
      rest := rest - {name};
      if key != "" {
        store := store[key := Unreserved(ini.sections[name])];
      }
    }
  }

  // ---- What a text sets ----

  /** The section that the lines end in. */
  function EndsIn(lines: seq<string>): string {
    if lines == [] then ""
    else
      var last := ParseLine(lines[|lines| - 1]);
      if last.Header? then last.name else EndsIn(lines[..|lines| - 1])
  }

  /** What the lines set a key of a section to: the last setting counts. */
  function Setting(lines: seq<string>, name: string, key: string): Option<string> {
    if lines == [] then None
    else
      var front, last := lines[..|lines| - 1], ParseLine(lines[|lines| - 1]);
      if last.Pair? && last.key == key && EndsIn(front) == name then Some(last.value) else Setting(front, name, key)
  }

  function Stored(sections: map<string, Section>, name: string, key: string): Option<string> {
    if name in sections && key in sections[name] then Some(sections[name][key]) else None
  }

  /** A text read holds, section by section and key by key, the last setting, wherever in the text parts of the section
      are; and no other. */
  lemma {:induction false} LastSettingCounts(lines: seq<string>, name: string, key: string)
    ensures ReadLines(NOTHING_READ, lines).current == EndsIn(lines)
    ensures Stored(ReadLines(NOTHING_READ, lines).sections, name, key) == Setting(lines, name, key)
  {
    hide ParseLine;
    if lines != [] {
      var front, last := lines[..|lines| - 1], lines[|lines| - 1];
      LastSettingCounts(front, name, key);
      ReadLinesConcat(NOTHING_READ, front, [last]);
      ReadOneLine(ReadLines(NOTHING_READ, front), last, []);
      assert front + [last] == lines && [last] + [] == [last];
    }
  }

  // ---- The round trip ----

  /** The entries a strategy captured, without reserved keys. */
  function Captured(state: seq<Entry>): Section {
    Added(map[], state)
  }

  function Added(section: Section, state: seq<Entry>): Section
    decreases |state|
  {
    if state == [] then section
    else Added(if Reserved(state[0].key) then section else section[state[0].key := state[0].value], state[1..])
  }

  function CapturedStore(strategies: seq<LiveStrategy>): map<string, Section> {
    if strategies == [] then map[]
    else
      var rest := CapturedStore(strategies[1..]);
      if strategies[0].state == [] then rest else rest[strategies[0].Key() := Captured(strategies[0].state)]
  }

  /** A strategy whose identifiers, name and state fit on lines of their own, and whose entries read back. */
  predicate Storable(s: LiveStrategy) {
    && OnOneLine(s.strategyId) && OnOneLine(s.accountId) && OnOneLine(s.name)
    && (s.accountId != "" ==> !IsSpace(s.accountId[|s.accountId| - 1]))
    && (forall e :: e in s.state && !Reserved(e.key) ==>
          SafeEntry(e.key, e.value) && OnOneLine(e.key) && OnOneLine(e.value))
  }

  lemma {:induction false} ReadLinesConcat(r: Reading, a: seq<string>, b: seq<string>)
    ensures ReadLines(r, a + b) == ReadLines(ReadLines(r, a), b)
    decreases |a|
  {
    hide ReadLine;
    if a == [] {
      assert a + b == b;
    } else {
      assert (a + b)[1..] == a[1..] + b;
      ReadLinesConcat(ReadLine(r, a[0]), a[1..], b);
    }
  }

  lemma ReadOneLine(r: Reading, line: string, rest: seq<string>)
    ensures ReadLines(r, [line] + rest) == ReadLines(ReadLine(r, line), rest)
  {
    assert ([line] + rest)[1..] == rest;
  }

  lemma {:induction false} EntriesReadBack(r: Reading, state: seq<Entry>)
    requires r.current in r.sections
    requires forall e :: e in state && !Reserved(e.key) ==> SafeEntry(e.key, e.value)
    ensures ReadLines(r, EntryLines(state))
         == r.(sections := r.sections[r.current := Added(r.sections[r.current], state)])
    decreases |state|
  {
    hide ParseLine, SafeEntry, Reserved;
    if state == [] {
      assert r.sections[r.current := r.sections[r.current]] == r.sections;
    } else {
      var e, rest := state[0], EntryLines(state[1..]);
      if Reserved(e.key) {
        assert [] + rest == rest;
        EntriesReadBack(r, state[1..]);
      } else {
        var next := ReadLine(r, e.key + "=" + e.value);
        EntryReadsBack(e.key, e.value);
        ReadOneLine(r, e.key + "=" + e.value, rest);
        EntriesReadBack(next, state[1..]);
      }
    }
  }

  /** The section a block leaves behind. */
  lemma {:induction false} UnreservedAdded(section: Section, state: seq<Entry>)
    ensures Unreserved(Added(section, state)) == Added(Unreserved(section), state)
    decreases |state|
  {
    hide Reserved;
    if state != [] && Reserved(state[0].key) {
      UnreservedAdded(section, state[1..]);
    } else if state != [] {
      var e := state[0];
      UnreservedAdded(section[e.key := e.value], state[1..]);
      assert Unreserved(section[e.key := e.value]) == Unreserved(section)[e.key := e.value];
    }
  }

  lemma ReservedKeys()
    ensures Reserved("__updated_at") && Reserved("__strategy_name")
  {
    assert "__updated_at"[..2] == "__" && "__strategy_name"[..2] == "__";
  }

  lemma ReservedEntryReads(r: Reading, key: string, value: string)
    requires Reserved(key) && key != "" && Trimmed(key) && '=' !in key && r.current in r.sections
    requires Unreserved(r.sections[r.current]) == map[]
    ensures var next := ReadLine(r, key + "=" + value);
      && next.current == r.current && r.current in next.sections
      && next.sections == r.sections[r.current := next.sections[r.current]]
      && Unreserved(next.sections[r.current]) == map[]
  {
    hide ParseLine;
    assert key[..2] == "__";
    KeyReadsBack(key, value);
    var v := ParseLine(key + "=" + value).value;
    assert Unreserved(r.sections[r.current][key := v]) == Unreserved(r.sections[r.current]);
  }

  /** The header and the reserved entries open a new section with nothing of the strategy's own. */
  lemma HeaderReads(r: Reading, s: LiveStrategy, now: string)
    requires Storable(s) && PREFIX + s.Key() !in r.sections
    ensures var opening := ReadLines(r, ["[" + PREFIX + s.Key() + "]", "__updated_at=" + now, "__strategy_name=" + s.name]);
      && opening.current == PREFIX + s.Key() && opening.current in opening.sections
      && opening.sections == r.sections[opening.current := opening.sections[opening.current]]
      && Unreserved(opening.sections[opening.current]) == map[]
  {
    hide ParseLine, Unreserved, Reserved, SafeEntry;
    var name := PREFIX + s.Key();
    assert Trimmed(name) by {
      KeyIsTrimmed(s);
    }
    HeaderReadsBack(name);
    var first := ReadLine(r, "[" + PREFIX + s.Key() + "]");
    assert "[" + PREFIX + s.Key() + "]" == "[" + name + "]";
    assert first == Reading(r.sections[name := map[]], name);
    assert Unreserved(map[]) == map[] by {
      NothingUnreserved();
    }
    ReservedKeys();
    var second := ReadLine(first, "__updated_at=" + now);
    assert "__updated_at=" + now == "__updated_at" + "=" + now;
    assert "__strategy_name=" + s.name == "__strategy_name" + "=" + s.name;
    ReservedEntryReads(first, "__updated_at", now);
    ReservedEntryReads(second, "__strategy_name", s.name);
    ThreeLines(r, "[" + PREFIX + s.Key() + "]", "__updated_at=" + now, "__strategy_name=" + s.name);
  }

  lemma NothingUnreserved()
    ensures Unreserved(map[]) == map[]
  {
  }

  lemma KeyIsTrimmed(s: LiveStrategy)
    requires s.accountId != "" ==> !IsSpace(s.accountId[|s.accountId| - 1])
    ensures Trimmed(PREFIX + s.Key())
  {
  }

  lemma ThreeLines(r: Reading, a: string, b: string, c: string)
    ensures ReadLines(r, [a, b, c]) == ReadLine(ReadLine(ReadLine(r, a), b), c)
  {
    hide ReadLine;
    assert [a, b, c][1..] == [b, c] && [b, c][1..] == [c] && [c][1..] == [];
    assert ReadLines(ReadLine(r, a), [b, c]) == ReadLines(ReadLine(ReadLine(r, a), b), [c]);
  }

  /** A block reads back as one new section, whose own entries are those the strategy captured. */
  lemma BlockReadsBack(r: Reading, s: LiveStrategy, now: string)
    requires Storable(s) && PREFIX + s.Key() !in r.sections
    ensures var after := ReadLines(r, Block(s, now)).sections; var name := PREFIX + s.Key();
      && name in after && after == r.sections[name := after[name]] && Unreserved(after[name]) == Captured(s.state)
  {
    hide ReadLine, Unreserved, Reserved, SafeEntry, EntryLines, OnOneLine;
    var head := ["[" + PREFIX + s.Key() + "]", "__updated_at=" + now, "__strategy_name=" + s.name];
    var opening := ReadLines(r, head);
    HeaderReads(r, s, now);
    ReadLinesConcat(r, head, EntryLines(s.state) + [""]);
    ReadLinesConcat(opening, EntryLines(s.state), [""]);
    assert Block(s, now) == head + (EntryLines(s.state) + [""]);
    EntriesReadBack(opening, s.state);
    BlankReads(ReadLines(opening, EntryLines(s.state)));
    UnreservedAdded(opening.sections[opening.current], s.state);
  }

  lemma BlankReads(r: Reading)
    ensures ReadLines(r, [""]) == r
  {
    assert [""][1..] == [];
  }

  lemma NewSectionInStore(sections: map<string, Section>, key: string, section: Section)
    requires key != ""
    ensures StoreOf(sections[PREFIX + key := section]) == StoreOf(sections)[key := Unreserved(section)]
  {
    hide Unreserved;
    var after := sections[PREFIX + key := section];
    forall other ensures PREFIX + other == PREFIX + key <==> other == key {
      assert (PREFIX + other)[|PREFIX|..] == other && (PREFIX + key)[|PREFIX|..] == key;
    }
  }

  ghost predicate DistinctKeys(strategies: seq<LiveStrategy>) {
    forall i, j :: 0 <= i < j < |strategies| ==> strategies[i].Key() != strategies[j].Key()
  }

  /** Blocks add the captured states to the store, one key each. */
  lemma {:induction false} BlocksReadBack(r: Reading, strategies: seq<LiveStrategy>, now: string)
    requires DistinctKeys(strategies) && forall s :: s in strategies ==> Storable(s) && PREFIX + s.Key() !in r.sections
    ensures StoreOf(ReadLines(r, Blocks(strategies, now)).sections) == StoreOf(r.sections) + CapturedStore(strategies)
    decreases |strategies|
  {
    hide ReadLine, StoreOf, Storable, Captured, Block, Unreserved;
    if strategies == [] {
      assert StoreOf(r.sections) + map[] == StoreOf(r.sections);
    } else {
      var s, rest := strategies[0], strategies[1..];
      if s.state == [] {
        assert [] + Blocks(rest, now) == Blocks(rest, now);
        BlocksReadBack(r, rest, now);
      } else {
        var next := ReadLines(r, Block(s, now));
        ReadLinesConcat(r, Block(s, now), Blocks(rest, now));
        BlockReadsBack(r, s, now);
        assert s.Key() != "" by {
          KeyIsNotEmpty(s);
        }
        NewSectionInStore(r.sections, s.Key(), next.sections[PREFIX + s.Key()]);
        forall t | t in rest ensures PREFIX + t.Key() !in next.sections {
          OtherKeys(strategies, t);
        }
        BlocksReadBack(next, rest, now);
        LaterKeysDiffer(s, rest, Captured(s.state), StoreOf(r.sections));
      }
    }
  }

  lemma KeyIsNotEmpty(s: LiveStrategy)
    ensures s.Key() != ""
  {
    assert |s.Key()| >= 2;
  }

  lemma OtherKeys(strategies: seq<LiveStrategy>, t: LiveStrategy)
    requires strategies != [] && DistinctKeys(strategies) && t in strategies[1..]
    ensures PREFIX + t.Key() != PREFIX + strategies[0].Key()
  {
    var i :| 0 <= i < |strategies| - 1 && strategies[1..][i] == t;
    assert strategies[i + 1] == t;
    assert (PREFIX + t.Key())[|PREFIX|..] == t.Key();
    assert (PREFIX + strategies[0].Key())[|PREFIX|..] == strategies[0].Key();
  }

  lemma LaterKeysDiffer(s: LiveStrategy, rest: seq<LiveStrategy>, captured: Section, before: map<string, Section>)
    requires DistinctKeys([s] + rest)
    ensures before[s.Key() := captured] + CapturedStore(rest) == before + CapturedStore(rest)[s.Key() := captured]
  {
    hide Captured;
    CapturedKeys(rest);
    forall t | t in rest ensures t.Key() != s.Key() {
      assert ([s] + rest)[1..] == rest;
      OtherKeys([s] + rest, t);
    }
  }

  lemma {:induction false} CapturedKeys(strategies: seq<LiveStrategy>)
    ensures forall key :: key in CapturedStore(strategies) ==> exists s :: s in strategies && s.Key() == key
  {
    hide Captured, LiveStrategy.Key;
    if strategies != [] {
      CapturedKeys(strategies[1..]);
      assert strategies == [strategies[0]] + strategies[1..];
      assert strategies[0] in strategies;
    }
  }

  /** Every line of the store is one line of text. */
  lemma {:induction false} EntryLinesAreLines(state: seq<Entry>)
    requires forall e :: e in state && !Reserved(e.key) ==> OnOneLine(e.key) && OnOneLine(e.value)
    ensures forall line :: line in EntryLines(state) ==> OnOneLine(line)
  {
    hide Reserved;
    if state != [] {
      EntryLinesAreLines(state[1..]);
    }
  }

  lemma BlockIsLines(s: LiveStrategy, now: string)
    requires Storable(s) && OnOneLine(now)
    ensures forall line :: line in Block(s, now) ==> OnOneLine(line)
  {
    hide Reserved, SafeEntry, EntryLines;
    EntryLinesAreLines(s.state);
  }

  lemma {:induction false} BlocksAreLines(strategies: seq<LiveStrategy>, now: string)
    requires OnOneLine(now) && forall s :: s in strategies ==> Storable(s)
    ensures forall line :: line in Blocks(strategies, now) ==> OnOneLine(line)
  {
    hide Storable, Block, OnOneLine;
    if strategies != [] {
      BlocksAreLines(strategies[1..], now);
      BlockIsLines(strategies[0], now);
    }
  }

  /** A section with one entry, of whatever value, and a blank line. */
  lemma LoneSectionReads(title: string, key: string, value: string)
    requires Trimmed(title) && key != "" && Trimmed(key) && '=' !in key && key[0] != '#' && key[0] != ';' && key[0] != '['
    ensures ReadLines(NOTHING_READ, ["[" + title + "]", key + "=" + value, ""]).sections.Keys == {title}
  {
    hide ParseLine;
    HeaderReadsBack(title);
    KeyReadsBack(key, value);
    ThreeLines(NOTHING_READ, "[" + title + "]", key + "=" + value, "");
    assert ParseLine("") == Skip by {
      BlankIsSkipped();
    }
  }

  /** The title section stays out of the store. */
  lemma TitleReads(now: string)
    ensures var r := ReadLines(NOTHING_READ, ["[strategy_state_store]", "updated_at=" + now, ""]);
      StoreOf(r.sections) == map[] && forall key :: PREFIX + key !in r.sections
  {
    hide ReadLines, Unreserved;
    LoneSectionReads("strategy_state_store", "updated_at", now);
    assert "[strategy_state_store]" == "[" + "strategy_state_store" + "]";
    assert "updated_at=" + now == "updated_at" + "=" + now;
    forall key ensures PREFIX + key != "strategy_state_store" {
      TitleIsNoAttachment(key);
    }
  }

  lemma TitleIsNoAttachment(key: string)
    ensures PREFIX + key != "strategy_state_store"
  {
    assert (PREFIX + key)[14] == '.' && "strategy_state_store"[14] == '_';
  }

  lemma BlankIsSkipped()
    ensures ParseLine("") == Skip
  {
  }

  /** Reading a written store gives back what the strategies captured: one entry per attachment with a state, holding its
      captured map without reserved keys. */
  lemma StoreReadsBack(strategies: seq<LiveStrategy>, now: string)
    requires OnOneLine(now) && DistinctKeys(strategies) && forall s :: s in strategies ==> Storable(s)
    ensures StoreOf(ReadLines(NOTHING_READ, Lines(Joined(StoreLines(strategies, now)))).sections)
         == CapturedStore(strategies)
  {
    hide ReadLine, StoreOf, Storable, Captured, Block, Lines, Joined;
    var title := ["[strategy_state_store]", "updated_at=" + now, ""];
    BlocksAreLines(strategies, now);
    LinesOfJoined(StoreLines(strategies, now));
    ReadLinesConcat(NOTHING_READ, title, Blocks(strategies, now));
    TitleReads(now);
    BlocksReadBack(ReadLines(NOTHING_READ, title), strategies, now);
  }

  /** With distinct keys, what was captured is the map of the entries themselves. */
  lemma {:induction false} CapturedIsTheState(section: Section, state: seq<Entry>)
    requires forall i, j :: 0 <= i < j < |state| ==> state[i].key != state[j].key
    ensures forall e :: e in state && !Reserved(e.key) ==>
      e.key in Added(section, state) && Added(section, state)[e.key] == e.value
    ensures forall key :: key in Added(section, state) ==>
      key in section || (!Reserved(key) && exists e :: e in state && e.key == key)
    ensures forall key :: key in section && (forall e :: e in state ==> e.key != key) ==>
      key in Added(section, state) && Added(section, state)[key] == section[key]
    decreases |state|
  {
    hide Reserved;
    if state != [] {
      var e, rest := state[0], state[1..];
      CapturedIsTheState(if Reserved(e.key) then section else section[e.key := e.value], rest);
      assert state == [e] + rest;
      forall f | f in rest ensures f.key != e.key {
        var i :| 0 <= i < |rest| && rest[i] == f;
        assert state[i + 1] == f;
      }
    }
  }
}
