/**
 * Setup: which master key a run uses, how it merges the configuration, and the two
 * files it writes by temporary file and rename. A run can stop at any of these
 * writes, and runs can be repeated with other answers.
 */
module Setup {
  import opened Base

  const PREFIX := "GATEWAY_MASTER_KEY="

  // ---- the dotenv file ---------------------------------------------------------------

  /** The length of the first line. */
  function LineLength(b: string): (n: nat)
    ensures n <= |b| && (n < |b| ==> b[n] == '\n') && forall i | 0 <= i < n :: b[i] != '\n'
  {
    if b == "" || b[0] == '\n' then 0 else 1 + LineLength(b[1..])
  }

  /** The lines of a text; a last line need not end with a newline. */
  function Lines(b: string): seq<string> {
    if b == "" then []
    else
      var n := LineLength(b);
      if n == |b| then [b] else [b[..n]] + Lines(b[n + 1..])
  }

  lemma LineEnds(rest: string, n: nat)
    requires n < |rest| && rest[n] == '\n' && forall j | 0 <= j < n :: rest[j] != '\n'
    ensures LineLength(rest) == n
  {
    var m := LineLength(rest);
    hide LineLength;
  }

  lemma FirstLine(rest: string, n: nat)
    requires n < |rest| && rest[n] == '\n' && forall j | 0 <= j < n :: rest[j] != '\n'
    ensures Lines(rest) == [rest[..n]] + Lines(rest[n + 1..])
  {
    hide LineLength;
    LineEnds(rest, n);
    assert rest != "";
  }

  lemma LinesFrom(b: string, start: nat, i: nat)
    requires start <= i < |b| && b[i] == '\n' && forall j | start <= j < i :: b[j] != '\n'
    ensures Lines(b[start..]) == [b[start..i]] + Lines(b[i + 1..])
  {
    var rest, n := b[start..], i - start;
    assert forall j | 0 <= j <= n :: rest[j] == b[start + j];
    FirstLine(rest, n);
    assert rest[..n] == b[start..i] && rest[n + 1..] == b[i + 1..];
    hide LineLength;
  }

  /** A text without a newline is one line, if it is not empty. */
  lemma LastLine(rest: string)
    requires forall j | 0 <= j < |rest| :: rest[j] != '\n'
    ensures Lines(rest) == if rest == "" then [] else [rest]
  {
    var n := LineLength(rest);
    hide LineLength;
    assert n == |rest|;
  }

  /** Scans byte by byte with a moving start of line. */
  method SplitLines(b: string) returns (out: seq<string>)
    ensures out == Lines(b)
  {
    hide *;
    out := [];
    var start := 0;
    for i := 0 to |b|
      invariant 0 <= start <= i
      invariant forall j | start <= j < i :: b[j] != '\n'
      invariant Lines(b) == out + Lines(b[start..])
    {
      if b[i] == '\n' {
        LinesFrom(b, start, i);
        out := out + [b[start..i]];
        start := i + 1;
      }
    }
    LastLine(b[start..]);
    if start < |b| {
      out := out + [b[start..]];
    }
  }

  predicate OneLine(key: string) {
    '\n' !in key
  }

  predicate Opens(line: string, name: string) {
    |line| > |name| && line[..|name|] == name
  }

  predicate Assigns(line: string) {
    Opens(line, PREFIX)
  }

  /** The value of the first line that assigns the key; empty without one. */
  function FirstKey(lines: seq<string>): string {
    if lines == [] then "" else if Assigns(lines[0]) then lines[0][|PREFIX|..] else FirstKey(lines[1..])
  }

  function DotenvText(key: string): string {
    PREFIX + key + "\n"
  }

  function KeyIn(dotenv: Option<string>): string {
    match dotenv case None => "" case Some(text) => FirstKey(Lines(text))
  }

  /** The first line of the text is this one. */
  predicate StartsWithLine(text: string, line: string) {
    && |line| <= |text| && text[..|line|] == line && OneLine(line)
    && (|line| == |text| || text[|line|] == '\n')
  }

  /** The line that begins at position `i` is the assignment of this value. */
  predicate AssignedAt(text: string, name: string, i: nat, value: string) {
    && i <= |text| && (i == 0 || text[i - 1] == '\n')
    && value != "" && StartsWithLine(text[i..], name + value)
  }

  /** The text assigns this value, and no value before it. */
  ghost predicate FirstAssigned(text: string, name: string, value: string) {
    exists i: nat :: AssignedAt(text, name, i, value) && forall h: nat, w | h < i :: !AssignedAt(text, name, h, w)
  }

  ghost predicate NoneAssigned(text: string, name: string) {
    forall h: nat, w :: !AssignedAt(text, name, h, w)
  }

  /** On the first line a value is assigned if and only if the line starts with the name and goes on. */
  lemma AssignedFirst(b: string, name: string, value: string)
    ensures var line := b[..LineLength(b)];
      AssignedAt(b, name, 0, value) <==> Opens(line, name) && value == line[|name|..]
  {
    var n := LineLength(b);
    hide LineLength;
    assert b[0..] == b;
    if AssignedAt(b, name, 0, value) {
      var line := name + value;
      assert forall i | 0 <= i < |line| :: b[i] == line[i] && line[i] in line;
      assert n == |line| && b[..n] == line;
      assert line[..|name|] == name && line[|name|..] == value;
    }
    var line := b[..n];
    if Opens(line, name) && value == line[|name|..] {
      assert name + value == line;
      assert OneLine(line);
    }
  }

  lemma FirstKeyStep(b: string, line: string, rest: string)
    requires b != "" && line == b[..LineLength(b)]
    requires rest == if LineLength(b) < |b| then b[LineLength(b) + 1..] else ""
    ensures FirstKey(Lines(b)) == if Opens(line, PREFIX) then line[|PREFIX|..] else FirstKey(Lines(rest))
  {
    var n := LineLength(b);
    hide LineLength, Opens;
    assert n == |b| ==> line == b;
    assert Lines(b) == [line] + Lines(rest);
    assert ([line] + Lines(rest))[1..] == Lines(rest);
  }

  lemma FirstHere(b: string, name: string, key: string)
    requires AssignedAt(b, name, 0, key)
    ensures FirstAssigned(b, name, key)
  {
    hide AssignedAt;
  }

  lemma AssignedBehind(b: string, d: nat, name: string, i: nat, value: string)
    requires 0 < d <= i <= |b| && b[d - 1] == '\n'
    ensures AssignedAt(b, name, i, value) <==> AssignedAt(b[d..], name, i - d, value)
  {
    var rest, h, line := b[d..], i - d, name + value;
    hide StartsWithLine;
    assert rest[h..] == b[i..];
    assert h > 0 ==> rest[h - 1] == b[i - 1];
    assert AssignedAt(b, name, i, value) <==> b[i - 1] == '\n' && value != "" && StartsWithLine(b[i..], line);
  }

  lemma AssignedWhere(b: string, name: string, i: nat, value: string)
    requires AssignedAt(b, name, i, value)
    ensures i <= |b| && (i == 0 || b[i - 1] == '\n')
  {
    hide StartsWithLine;
  }

  /** Later assignments are those of the text after the first line. */
  lemma AssignedLater(b: string, name: string, i: nat, value: string)
    requires 0 < i
    ensures var n := LineLength(b);
      AssignedAt(b, name, i, value) <==> n < i && n < |b| && AssignedAt(b[n + 1..], name, i - n - 1, value)
  {
    var n := LineLength(b);
    hide *;
    if AssignedAt(b, name, i, value) {
      AssignedWhere(b, name, i, value);
      AssignedBehind(b, n + 1, name, i, value);
    } else if n < i && n < |b| && AssignedAt(b[n + 1..], name, i - n - 1, value) {
      AssignedWhere(b[n + 1..], name, i - n - 1, value);
      AssignedBehind(b, n + 1, name, i, value);
    }
  }

  lemma NothingAssigned(name: string, i: nat, value: string)
    ensures !AssignedAt("", name, i, value)
  {
  }

  lemma AssignedThere(b: string, name: string, line: string, rest: string, h: nat, w: string)
    requires b != "" && line == b[..LineLength(b)] && !Opens(line, name)
    requires rest == if LineLength(b) < |b| then b[LineLength(b) + 1..] else ""
    ensures AssignedAt(b, name, h, w) <==> LineLength(b) < h && AssignedAt(rest, name, h - LineLength(b) - 1, w)
  {
    hide *;
    var n := LineLength(b);
    if h == 0 {
      AssignedFirst(b, name, w);
    } else {
      AssignedLater(b, name, h, w);
    }
    if n == |b| && n < h {
      NothingAssigned(name, h - n - 1, w);
    }
  }

  lemma Shift(b: string, name: string, key: string, rest: string, d: nat)
    requires forall h: nat, w :: AssignedAt(b, name, h, w) <==> d <= h && AssignedAt(rest, name, h - d, w)
    ensures FirstAssigned(rest, name, key) ==> FirstAssigned(b, name, key)
    ensures NoneAssigned(rest, name) ==> NoneAssigned(b, name)
  {
    hide AssignedAt;
    if FirstAssigned(rest, name, key) {
      var i: nat :| AssignedAt(rest, name, i, key) && forall h: nat, w | h < i :: !AssignedAt(rest, name, h, w);
      assert i + d - d == i;
      assert AssignedAt(b, name, i + d, key);
    }
  }

  lemma FirstThere(b: string, name: string, key: string, line: string, rest: string)
    requires b != "" && line == b[..LineLength(b)] && !Opens(line, name)
    requires rest == if LineLength(b) < |b| then b[LineLength(b) + 1..] else ""
    ensures FirstAssigned(rest, name, key) ==> FirstAssigned(b, name, key)
    ensures NoneAssigned(rest, name) ==> NoneAssigned(b, name)
  {
    hide *;
    var d := LineLength(b) + 1;
    forall h: nat, w ensures AssignedAt(b, name, h, w) <==> d <= h && AssignedAt(rest, name, h - d, w) {
      AssignedThere(b, name, line, rest, h, w);
    }
    Shift(b, name, key, rest, d);
  }

  /** The key read from a text is the first value assigned in it; the empty text without one. */
  lemma {:induction false} KeyInIsFirstAssigned(b: string, key: string)
    requires key == KeyIn(Some(b))
    ensures key != "" ==> FirstAssigned(b, PREFIX, key)
    ensures key == "" ==> NoneAssigned(b, PREFIX)
    decreases |b|
  {
    if b == "" {
    } else {
      var n := LineLength(b);
      var line := b[..n];
      var rest := if n < |b| then b[n + 1..] else "";
      FirstKeyStep(b, line, rest);
      hide LineLength;
      if Opens(line, PREFIX) {
        AssignedFirst(b, PREFIX, key);
        assert key != "";
        hide *;
        FirstHere(b, PREFIX, key);
      } else {
        KeyInIsFirstAssigned(rest, key);
        hide *;
        FirstThere(b, PREFIX, key, line, rest);
      }
    }
  }

  /** A missing file has no key; None if the file cannot be read. */
  method ReadMasterKeyFromDotenv(dotenv: Option<string>, readable: bool) returns (key: Option<string>)
    ensures key == if dotenv.None? || readable then Some(KeyIn(dotenv)) else None
    ensures dotenv.None? ==> key == Some("")
    ensures dotenv.Some? && key.Some? && key.value != "" ==>
      FirstAssigned(dotenv.value, "GATEWAY_MASTER_KEY=", key.value)
    ensures dotenv.Some? && key == Some("") ==> NoneAssigned(dotenv.value, "GATEWAY_MASTER_KEY=")
  {
    if dotenv.Some? {
      KeyInIsFirstAssigned(dotenv.value, KeyIn(dotenv));
    }
    hide FirstAssigned, NoneAssigned;
    if dotenv.None? {
      return Some("");
    }
    if !readable {
      return None;
    }
    var lines := SplitLines(dotenv.value);
    for i := 0 to |lines|
      invariant FirstKey(lines) == FirstKey(lines[i..])
    {
      if Assigns(lines[i]) {
        return Some(lines[i][|PREFIX|..]);
      }
    }
    key := Some("");
  }

  lemma {:induction false} LinesHaveNoNewline(b: string)
    ensures forall line | line in Lines(b) :: OneLine(line)
    decreases |b|
  {
    if b == "" {
    } else {
      var n := LineLength(b);
      if n == |b| {
        assert Lines(b) == [b];
      } else {
        LinesHaveNoNewline(b[n + 1..]);
      }
    }
  }

  lemma {:induction false} FirstKeyHasNoNewline(lines: seq<string>)
    requires forall line | line in lines :: OneLine(line)
    ensures OneLine(FirstKey(lines))
  {
    if lines == [] {
    } else {
      if Assigns(lines[0]) {
        assert lines[0] in lines;
      } else {
        FirstKeyHasNoNewline(lines[1..]);
      }
    }
  }

  lemma KeyInIsOneLine(dotenv: Option<string>)
    ensures OneLine(KeyIn(dotenv))
  {
    if dotenv.Some? {
      LinesHaveNoNewline(dotenv.value);
      FirstKeyHasNoNewline(Lines(dotenv.value));
    }
  }

  /** Writing a key and reading the file back gives the key again exactly if it has no newline. */
  lemma DotenvRoundTrip(key: string)
    ensures KeyIn(Some(DotenvText(key))) == key <==> OneLine(key)
  {
    var text := DotenvText(key);
    if OneLine(key) {
      var line := PREFIX + key;
      assert forall i | 0 <= i < |line| :: line[i] != '\n' by {
        assert OneLine(PREFIX);
        assert forall i | 0 <= i < |PREFIX| :: PREFIX[i] in PREFIX;
        assert forall i | |PREFIX| <= i < |line| :: line[i] == key[i - |PREFIX|];
      }
      assert text[0..] == text && text[..|line|] == line && text[|line|] == '\n';
      assert forall i | 0 <= i < |line| :: text[i] == line[i];
      LinesFrom(text, 0, |line|);
      assert text[|line| + 1..] == "";
      assert Lines(text) == [line];
      assert line[..|PREFIX|] == PREFIX && line[|PREFIX|..] == key;
      assert FirstKey([line][1..]) == "";
    } else {
      KeyInIsOneLine(Some(text));
    }
  }

  // ---- the configuration --------------------------------------------------------------

  /** A ciphertext remembers the raw key it was sealed with; raw keys are numbers. */
  datatype Cipher = NoCipher | Sealed(key: nat, plain: string)

  datatype Vps = Vps(host: string, port: int, database: string, username: string, password: Cipher)

  datatype ApiKey = ApiKey(id: string, hash: string, description: string)

  datatype Config = Config(vps: Vps, keys: seq<ApiKey>, interval: string, batchSize: int, watermarkColumn: string)

  const EMPTY_CONFIG := Config(Vps("", 0, "", "", NoCipher), [], "", 0, "")
  const DEFAULT_ID := "default"

  /** The first entry with the default id is replaced; without one the new entry goes last. */
  function WithDefault(keys: seq<ApiKey>, entry: ApiKey): seq<ApiKey> {
    if keys == [] then [entry]
    else if keys[0].id == DEFAULT_ID then [entry] + keys[1..]
    else [keys[0]] + WithDefault(keys[1..], entry)
  }

  /** The first key with the id "default", if there is one, is the one at `i`. */
  predicate FirstDefaultAt(keys: seq<ApiKey>, i: nat) {
    && i <= |keys| && (i < |keys| ==> keys[i].id == "default")
    && forall j | 0 <= j < i :: keys[j].id != "default"
  }

  /** `out` is `keys` with `entry` in the place of the first default key, or at the end without one. */
  ghost predicate Installed(keys: seq<ApiKey>, entry: ApiKey, out: seq<ApiKey>) {
    exists i: nat | i <= |keys| ::
      && FirstDefaultAt(keys, i) && FirstDefaultAt(out, i)
      && out == keys[..i] + [entry] + if i < |keys| then keys[i + 1..] else []
  }

  lemma FirstDefaultBehind(first: ApiKey, keys: seq<ApiKey>, i: nat)
    requires first.id != "default" && FirstDefaultAt(keys, i)
    ensures FirstDefaultAt([first] + keys, i + 1)
  {
    assert forall j | 0 < j < |keys| + 1 :: ([first] + keys)[j] == keys[j - 1];
  }

  lemma InstalledBehind(first: ApiKey, keys: seq<ApiKey>, entry: ApiKey, out: seq<ApiKey>)
    requires first.id != "default" && Installed(keys, entry, out)
    ensures Installed([first] + keys, entry, [first] + out)
  {
    var i: nat :| i <= |keys| && FirstDefaultAt(keys, i) && FirstDefaultAt(out, i)
      && out == keys[..i] + [entry] + if i < |keys| then keys[i + 1..] else [];
    FirstDefaultBehind(first, keys, i);
    FirstDefaultBehind(first, out, i);
    hide FirstDefaultAt;
    var all := [first] + keys;
    assert all[..i + 1] == [first] + keys[..i];
    assert i < |keys| ==> all[i + 2..] == keys[i + 1..];
    assert [first] + out == all[..i + 1] + [entry] + if i + 1 < |all| then all[i + 2..] else [];
  }

  lemma {:induction false} WithDefaultInstalls(keys: seq<ApiKey>, entry: ApiKey)
    requires entry.id == "default"
    ensures Installed(keys, entry, WithDefault(keys, entry))
  {
    var out := WithDefault(keys, entry);
    if keys == [] {
      assert FirstDefaultAt(keys, 0) && FirstDefaultAt(out, 0) && out == keys[..0] + [entry] + [];
    } else if keys[0].id == "default" {
      assert FirstDefaultAt(keys, 0) && FirstDefaultAt(out, 0) && out == keys[..0] + [entry] + keys[1..];
    } else {
      WithDefaultInstalls(keys[1..], entry);
      InstalledBehind(keys[0], keys[1..], entry, WithDefault(keys[1..], entry));
      assert [keys[0]] + keys[1..] == keys;
    }
  }

  /** After it the first default key is `entry`. */
  lemma InstalledFirst(keys: seq<ApiKey>, entry: ApiKey, out: seq<ApiKey>)
    requires Installed(keys, entry, out)
    ensures exists i: nat :: i < |out| && FirstDefaultAt(out, i) && out[i] == entry
  {
    var i: nat :| i <= |keys| && FirstDefaultAt(keys, i) && FirstDefaultAt(out, i)
      && out == keys[..i] + [entry] + if i < |keys| then keys[i + 1..] else [];
    assert i < |out| && out[i] == entry;
  }

  lemma WithDefaultFrom(keys: seq<ApiKey>, entry: ApiKey, i: nat)
    requires i < |keys|
    ensures keys[..i] + WithDefault(keys[i..], entry) ==
      if keys[i].id == DEFAULT_ID then keys[i := entry] else keys[..i + 1] + WithDefault(keys[i + 1..], entry)
  {
    assert keys[i..][1..] == keys[i + 1..];
    assert keys[..i] + ([entry] + keys[i + 1..]) == keys[i := entry];
    var rest := WithDefault(keys[i + 1..], entry);
    assert keys[..i] + ([keys[i]] + rest) == keys[..i + 1] + rest;
  }

  method ReplaceOrAppend(keys: seq<ApiKey>, entry: ApiKey) returns (out: seq<ApiKey>)
    ensures out == WithDefault(keys, entry)
    ensures entry.id == "default" ==> Installed(keys, entry, out)
  {
    if entry.id == "default" {
      WithDefaultInstalls(keys, entry);
    }
    assert WithDefault([], entry) == [entry];
    hide *;
    assert keys[..0] + WithDefault(keys[0..], entry) == WithDefault(keys, entry) by {
      assert keys[0..] == keys;
    }
    for i := 0 to |keys|
      invariant WithDefault(keys, entry) == keys[..i] + WithDefault(keys[i..], entry)
    {
      WithDefaultFrom(keys, entry, i);
      if keys[i].id == DEFAULT_ID {
        return keys[i := entry];
      }
    }
    assert keys[|keys|..] == [] && keys[..|keys|] == keys;
    out := keys + [entry];
  }

  function Operators(keys: seq<ApiKey>): seq<ApiKey> {
    if keys == [] then []
    else if keys[0].id == DEFAULT_ID then Operators(keys[1..])
    else [keys[0]] + Operators(keys[1..])
  }

  predicate HasDefault(keys: seq<ApiKey>) {
    keys != [] && (keys[0].id == DEFAULT_ID || HasDefault(keys[1..]))
  }

  lemma PrependKey(first: ApiKey, rest: seq<ApiKey>)
    ensures Operators([first] + rest) == (if first.id == DEFAULT_ID then [] else [first]) + Operators(rest)
    ensures HasDefault([first] + rest) <==> first.id == DEFAULT_ID || HasDefault(rest)
  {
    assert ([first] + rest)[1..] == rest;
  }

  /** The operators' keys are those with another id, in the order of the list. */
  lemma {:induction false} OperatorsInOrder(keys: seq<ApiKey>, last: ApiKey)
    ensures Operators([]) == []
    ensures Operators(keys + [last]) == Operators(keys) + if last.id == "default" then [] else [last]
    ensures HasDefault(keys) <==> exists i :: 0 <= i < |keys| && keys[i].id == "default"
  {
    if keys == [] {
      assert [] + [last] == [last];
    } else {
      OperatorsInOrder(keys[1..], last);
      assert (keys + [last])[1..] == keys[1..] + [last];
      assert forall i | 0 < i < |keys| :: keys[i] == keys[1..][i - 1];
    }
  }

  /** Keys with other ids keep their values and their order; the list grows only by a first default key. */
  lemma {:induction false} WithDefaultKeepsOthers(keys: seq<ApiKey>, entry: ApiKey)
    requires entry.id == DEFAULT_ID
    ensures Operators(WithDefault(keys, entry)) == Operators(keys)
    ensures HasDefault(WithDefault(keys, entry))
    ensures |WithDefault(keys, entry)| == |keys| + if HasDefault(keys) then 0 else 1
  {
    if keys == [] {
      PrependKey(entry, []);
      assert [entry] + [] == [entry];
    } else if keys[0].id == DEFAULT_ID {
      PrependKey(entry, keys[1..]);
    } else {
      WithDefaultKeepsOthers(keys[1..], entry);
      PrependKey(keys[0], WithDefault(keys[1..], entry));
    }
  }

  // ---- one run ---------------------------------------------------------------------------

  /** A file being written: not there, partly written, or whole. */
  datatype Draft<T> = Absent | Torn | Whole(content: T)

  datatype Disk = Disk(
    dotenv: Option<string>, dotenvTmp: Draft<string>, config: Option<Config>, configTmp: Draft<Config>)

  /**
   * What a run meets: the answers (an unreadable port is None), whether the source
   * answers, the key in the environment, whether the files can be read, the key it
   * would generate, and after how many of the six file steps it stops.
   */
  datatype Run = Run(
    host: string, port: Option<int>, database: string, username: string, password: string, apiHash: string,
    vpsUp: bool, envKey: string, dotenvReadable: bool, freshKey: string, configLoads: bool, stop: nat)

  type Decoder = string -> Option<nat>

  /** The environment's key first, then the dotenv file's, then a fresh one. */
  function ChosenKey(disk: Disk, run: Run): string {
    if run.envKey != "" then run.envKey
    else if run.dotenvReadable && KeyIn(disk.dotenv) != "" then KeyIn(disk.dotenv)
    else run.freshKey
  }

  /** The run gets as far as writing files. */
  predicate Proceeds(disk: Disk, run: Run, decode: Decoder) {
    run.port.Some? && run.vpsUp && decode(ChosenKey(disk, run)).Some?
  }

  function Merged(disk: Disk, run: Run, key: nat): Config
    requires run.port.Some?
  {
    var cfg := if run.configLoads && disk.config.Some? then disk.config.value else EMPTY_CONFIG;
    Config(Vps(run.host, run.port.value, run.database, run.username, Sealed(key, run.password)),
           WithDefault(cfg.keys, ApiKey(DEFAULT_ID, run.apiHash, "generated by setup")),
           if cfg.interval == "" then "5m" else cfg.interval,
           if cfg.batchSize == 0 then 500 else cfg.batchSize,
           if cfg.watermarkColumn == "" then "updated_at" else cfg.watermarkColumn)
  }

  /** The disk after the first `steps` file steps of a run that writes `text` and then `cfg`. */
  function Written(disk: Disk, text: string, cfg: Config, steps: nat): Disk {
    match steps
    case 0 => disk
    case 1 => disk.(dotenvTmp := Torn)
    case 2 => disk.(dotenvTmp := Whole(text))
    case 3 => disk.(dotenvTmp := Absent, dotenv := Some(text))
    case 4 => disk.(dotenvTmp := Absent, dotenv := Some(text), configTmp := Torn)
    case 5 => disk.(dotenvTmp := Absent, dotenv := Some(text), configTmp := Whole(cfg))
    case _ => disk.(dotenvTmp := Absent, dotenv := Some(text), configTmp := Absent, config := Some(cfg))
  }

  const ALL_STEPS := 6

  /** The disk after a run. */
  function Outcome(disk: Disk, run: Run, decode: Decoder): Disk {
    if !Proceeds(disk, run, decode) then disk
    else
      var k := ChosenKey(disk, run);
      Written(disk, DotenvText(k), Merged(disk, run, decode(k).value), run.stop)
  }

  /** Which key a run takes: the environment's, else the first one in a readable dotenv file, else a fresh one. */
  ghost predicate Takes(before: Disk, run: Run, k: string) {
    var text := if before.dotenv.Some? && run.dotenvReadable then before.dotenv.value else "";
    && k != ""
    && (run.envKey != "" ==> k == run.envKey)
    && (run.envKey == "" ==>
      FirstAssigned(text, "GATEWAY_MASTER_KEY=", k)
      || (NoneAssigned(text, "GATEWAY_MASTER_KEY=") && k == run.freshKey))
  }

  /** The connection is the one answered, and only the decoded key opens the password. */
  predicate Connects(vps: Vps, run: Run, key: Option<nat>) {
    && Some(vps.port) == run.port && vps.host == run.host && vps.database == run.database
    && vps.username == run.username
    && vps.password.Sealed? && Some(vps.password.key) == key && vps.password.plain == run.password
  }

  /** Values an operator has set are kept; the others get the defaults. */
  predicate Settles(now: Config, before: Option<Config>) {
    && now.interval == (if before.Some? && before.value.interval != "" then before.value.interval else "5m")
    && now.batchSize == (if before.Some? && before.value.batchSize != 0 then before.value.batchSize else 500)
    && now.watermarkColumn ==
      (if before.Some? && before.value.watermarkColumn != "" then before.value.watermarkColumn else "updated_at")
  }

  /** The saved keys are those before, with the new default key in the place of the first old one. */
  ghost predicate Admits(now: Config, before: Option<Config>, hash: string) {
    var entry := ApiKey("default", hash, "generated by setup");
    && Installed(if before.Some? then before.value.keys else [], entry, now.keys)
    && exists i: nat :: i < |now.keys| && FirstDefaultAt(now.keys, i) && now.keys[i].hash == hash
  }

  /** What a run that came to its end leaves on disk. */
  ghost predicate Finished(before: Disk, run: Run, decode: Decoder, after: Disk) {
    var was := if run.configLoads then before.config else None;
    && run.vpsUp && after.config.Some? && after.dotenvTmp.Absent? && after.configTmp.Absent?
    && Settles(after.config.value, was) && Admits(after.config.value, was, run.apiHash)
    && exists k ::
      && Takes(before, run, k) && Connects(after.config.value.vps, run, decode(k))
      && after.dotenv == Some("GATEWAY_MASTER_KEY=" + k + "\n")
  }

  lemma ChosenIsTaken(disk: Disk, run: Run)
    requires run.freshKey != ""
    ensures Takes(disk, run, ChosenKey(disk, run))
  {
    var text := if disk.dotenv.Some? && run.dotenvReadable then disk.dotenv.value else "";
    var k := KeyIn(Some(text));
    assert KeyIn(None) == KeyIn(Some(""));
    KeyInIsFirstAssigned(text, k);
    hide FirstAssigned, NoneAssigned, KeyIn;
  }

  lemma MergedSettles(disk: Disk, run: Run, key: nat)
    requires run.port.Some?
    ensures var was, now := if run.configLoads then disk.config else None, Merged(disk, run, key);
      Settles(now, was) && Admits(now, was, run.apiHash) && Connects(now.vps, run, Some(key))
  {
    var was, now := if run.configLoads then disk.config else None, Merged(disk, run, key);
    var keys := if was.Some? then was.value.keys else [];
    var entry := ApiKey("default", run.apiHash, "generated by setup");
    assert now.keys == WithDefault(keys, entry);
    WithDefaultInstalls(keys, entry);
    InstalledFirst(keys, entry, now.keys);
    hide Installed, WithDefault, FirstDefaultAt;
  }

  lemma FullRunFinishes(disk: Disk, run: Run, decode: Decoder)
    requires run.freshKey != ""
    ensures Proceeds(disk, run, decode) && run.stop >= ALL_STEPS
      ==> Finished(disk, run, decode, Outcome(disk, run, decode))
  {
    if Proceeds(disk, run, decode) && run.stop >= ALL_STEPS {
      var k := ChosenKey(disk, run);
      ChosenIsTaken(disk, run);
      MergedSettles(disk, run, decode(k).value);
      assert DotenvText(k) == "GATEWAY_MASTER_KEY=" + k + "\n";
      hide Takes, Connects, Settles, Admits, ChosenKey, Merged, DotenvText;
    }
  }

  class Host {
    var dotenv: Option<string>
    var dotenvTmp: Draft<string>
    var config: Option<Config>
    var configTmp: Draft<Config>

    ghost function OnDisk(): Disk
      reads this
    {
      Disk(dotenv, dotenvTmp, config, configTmp)
    }

    constructor ()
      ensures OnDisk() == Disk(None, Absent, None, Absent)
    {
      dotenv, dotenvTmp, config, configTmp := None, Absent, None, Absent;
    }

    /** Writes a temporary file and renames it; stops early after `steps` steps. */
    method WriteDotenv(key: string, steps: nat)
      modifies this`dotenv, this`dotenvTmp
      ensures OnDisk() == Written(old(OnDisk()), DotenvText(key), EMPTY_CONFIG, if steps < 3 then steps else 3)
    {
      if steps == 0 {
        return;
      }
      dotenvTmp := Torn;
      if steps == 1 {
        return;
      }
      dotenvTmp := Whole(DotenvText(key));
      if steps == 2 {
        return;
      }
      dotenv, dotenvTmp := Some(dotenvTmp.content), Absent;
    }

    method SaveConfig(cfg: Config, steps: nat)
      modifies this`config, this`configTmp
      ensures steps == 0 ==> config == old(config) && configTmp == old(configTmp)
      ensures steps == 1 ==> config == old(config) && configTmp == Torn
      ensures steps == 2 ==> config == old(config) && configTmp == Whole(cfg)
      ensures steps >= 3 ==> config == Some(cfg) && configTmp == Absent
    {
      if steps == 0 {
        return;
      }
      configTmp := Torn;
      if steps == 1 {
        return;
      }
      configTmp := Whole(cfg);
      if steps == 2 {
        return;
      }
      config, configTmp := Some(configTmp.content), Absent;
    }

    /** The dotenv file first, the configuration second. */
    method WriteFiles(key: string, cfg: Config, steps: nat) returns (ok: bool)
      modifies this
      ensures OnDisk() == Written(old(OnDisk()), DotenvText(key), cfg, steps)
      ensures ok <==> steps >= ALL_STEPS
    {
      hide DotenvText;
      WriteDotenv(key, steps);
      if steps < 3 {
        return false;
      }
      SaveConfig(cfg, steps - 3);
      ok := steps >= ALL_STEPS;
    }

    /** The flow after the prompts; true when both files were written. */
    method RunPromptFlow(run: Run, decode: Decoder) returns (ok: bool)
      requires decode("").None? && run.freshKey != ""
      modifies this
      ensures OnDisk() == Outcome(old(OnDisk()), run, decode)
      ensures ok <==> Proceeds(old(OnDisk()), run, decode) && run.stop >= ALL_STEPS
      ensures ok ==> Finished(old(OnDisk()), run, decode, OnDisk())
      ensures !run.vpsUp || run.port.None? ==> OnDisk() == old(OnDisk())
    {
      FullRunFinishes(OnDisk(), run, decode);
      hide Finished, KeyIn, WithDefault, DotenvText, Installed, Written;
      if run.port.None? || !run.vpsUp {
        return false;
      }
      var masterB64 := run.envKey;
      if masterB64 == "" {
        var onDisk := ReadMasterKeyFromDotenv(dotenv, run.dotenvReadable);
        if onDisk.Some? && onDisk.value != "" {
          masterB64 := onDisk.value;
        }
      }
      if masterB64 == "" {
        masterB64 := run.freshKey;
      }
      var masterKey := decode(masterB64);
      if masterKey.None? {
        return false;
      }
      var cfg := if run.configLoads && config.Some? then config.value else EMPTY_CONFIG;
      var keys := ReplaceOrAppend(cfg.keys, ApiKey(DEFAULT_ID, run.apiHash, "generated by setup"));
      var password := Sealed(masterKey.value, run.password);
      cfg := cfg.(vps := Vps(run.host, run.port.value, run.database, run.username, password), keys := keys);
      if cfg.interval == "" {
        cfg := cfg.(interval := "5m");
      }
      if cfg.batchSize == 0 {
        cfg := cfg.(batchSize := 500);
      }
      if cfg.watermarkColumn == "" {
        cfg := cfg.(watermarkColumn := "updated_at");
      }
      ok := WriteFiles(masterB64, cfg, run.stop);
    }
  }

  // ---- consistency over crashes and reruns ----------------------------------------------

  predicate Decrypts(config: Config, key: Option<nat>) {
    key.Some? && config.vps.password.Sealed? && config.vps.password.key == key.value
  }

  /** The configuration is absent, or the key in the dotenv file decrypts it. */
  predicate Consistent(disk: Disk, decode: Decoder) {
    disk.config.Some? ==> Decrypts(disk.config.value, decode(KeyIn(disk.dotenv)))
  }

  /** Wherever the run stops, the disk is consistent. */
  ghost predicate CrashSafe(disk: Disk, run: Run, decode: Decoder) {
    forall stop: nat :: Consistent(Outcome(disk, run.(stop := stop), decode), decode)
  }

  /** The chosen key survives being written and read back, and an existing configuration was sealed with it. */
  predicate KeySettled(disk: Disk, run: Run, decode: Decoder) {
    var k := ChosenKey(disk, run);
    && decode(KeyIn(Some(DotenvText(k)))) == decode(k)
    && (disk.config.Some? ==> decode(k) == decode(KeyIn(disk.dotenv)))
  }

  lemma OutcomeAt(disk: Disk, run: Run, decode: Decoder, stop: nat)
    requires Proceeds(disk, run, decode)
    ensures var k := ChosenKey(disk, run);
      var t := Outcome(disk, run.(stop := stop), decode);
      && t.dotenv == (if stop < 3 then disk.dotenv else Some(DotenvText(k)))
      && t.config == (if stop < ALL_STEPS then disk.config else Some(Merged(disk, run, decode(k).value)))
  {
  }

  /** From a consistent disk a run that proceeds is crash-safe at every step if and only if its key is settled. */
  lemma CrashSafeIffKeySettled(disk: Disk, run: Run, decode: Decoder)
    requires Consistent(disk, decode) && Proceeds(disk, run, decode)
    ensures CrashSafe(disk, run, decode) <==> KeySettled(disk, run, decode)
  {
    OutcomeAt(disk, run, decode, 3);
    OutcomeAt(disk, run, decode, ALL_STEPS);
    forall stop: nat
      ensures KeySettled(disk, run, decode) ==> Consistent(Outcome(disk, run.(stop := stop), decode), decode)
    {
      OutcomeAt(disk, run, decode, stop);
    }
    if CrashSafe(disk, run, decode) {
      assert Consistent(Outcome(disk, run.(stop := 3), decode), decode);
      assert Consistent(Outcome(disk, run.(stop := ALL_STEPS), decode), decode);
    }
  }

  /**
   * For a chosen key of one line that is: if and only if there is no configuration yet,
   * or the chosen key and the one in the dotenv file decode alike.
   */
  lemma CrashSafeIffSameKey(disk: Disk, run: Run, decode: Decoder)
    requires Consistent(disk, decode) && Proceeds(disk, run, decode) && OneLine(ChosenKey(disk, run))
    ensures CrashSafe(disk, run, decode) <==>
      disk.config.None? || decode(ChosenKey(disk, run)) == decode(KeyIn(disk.dotenv))
  {
    CrashSafeIffKeySettled(disk, run, decode);
    DotenvRoundTrip(ChosenKey(disk, run));
    hide CrashSafe, KeyIn, DotenvText, ChosenKey, OneLine, Consistent, Proceeds;
  }

  /** No environment key, or the one on disk; a readable dotenv file; and a usable generated key. */
  predicate Ordinary(disk: Disk, run: Run, decode: Decoder) {
    && (run.envKey == "" || run.envKey == KeyIn(disk.dotenv))
    && run.dotenvReadable
    && run.freshKey != "" && OneLine(run.freshKey) && decode(run.freshKey).Some?
  }

  lemma OrdinaryStep(disk: Disk, run: Run, decode: Decoder)
    requires decode("").None? && Consistent(disk, decode) && Ordinary(disk, run, decode)
    ensures CrashSafe(disk, run, decode)
    ensures Consistent(Outcome(disk, run, decode), decode)
    ensures KeyIn(disk.dotenv) != "" ==> KeyIn(Outcome(disk, run, decode).dotenv) == KeyIn(disk.dotenv)
  {
    var k := ChosenKey(disk, run);
    KeyInIsOneLine(disk.dotenv);
    DotenvRoundTrip(k);
    hide KeyIn, DotenvText, OneLine;
    if Proceeds(disk, run, decode) {
      assert KeySettled(disk, run, decode);
      CrashSafeIffKeySettled(disk, run, decode);
      OutcomeAt(disk, run, decode, run.stop);
      assert run == run.(stop := run.stop);
    } else {
      assert forall stop: nat :: Outcome(disk, run.(stop := stop), decode) == disk;
    }
  }

  /** The disk after a history of runs. */
  function AfterRuns(disk: Disk, runs: seq<Run>, decode: Decoder): Disk {
    if runs == [] then disk else Outcome(AfterRuns(disk, runs[..|runs| - 1], decode), runs[|runs| - 1], decode)
  }

  ghost predicate AllOrdinary(disk: Disk, runs: seq<Run>, decode: Decoder) {
    forall i | 0 <= i < |runs| :: Ordinary(AfterRuns(disk, runs[..i], decode), runs[i], decode)
  }

  /** Over any number of ordinary runs, each stopped anywhere, the disk stays consistent and a key once there stays. */
  lemma {:induction false} RerunsStayConsistent(disk: Disk, runs: seq<Run>, decode: Decoder)
    requires decode("").None? && Consistent(disk, decode) && AllOrdinary(disk, runs, decode)
    ensures Consistent(AfterRuns(disk, runs, decode), decode)
    ensures KeyIn(disk.dotenv) != "" ==> KeyIn(AfterRuns(disk, runs, decode).dotenv) == KeyIn(disk.dotenv)
    decreases |runs|
  {
    if runs == [] {
    } else {
      var n := |runs| - 1;
      forall i | 0 <= i < n ensures Ordinary(AfterRuns(disk, runs[..n][..i], decode), runs[..n][i], decode) {
        assert runs[..n][..i] == runs[..i];
      }
      RerunsStayConsistent(disk, runs[..n], decode);
      OrdinaryStep(AfterRuns(disk, runs[..n], decode), runs[n], decode);
    }
  }

  /** A different key in the environment can brick the configuration: stopped between the two renames. */
  lemma OtherEnvironmentKeyUnsafe(disk: Disk, run: Run, decode: Decoder)
    requires Consistent(disk, decode) && disk.config.Some? && Proceeds(disk, run, decode)
    requires run.envKey != "" && decode(run.envKey) != decode(KeyIn(disk.dotenv))
    ensures !CrashSafe(disk, run, decode)
  {
    CrashSafeIffKeySettled(disk, run, decode);
  }

  function KeysOf(config: Option<Config>): seq<ApiKey> {
    match config case None => [] case Some(c) => c.keys
  }

  lemma KeysStep(disk: Disk, run: Run, decode: Decoder)
    requires run.configLoads
    ensures var before, after := KeysOf(disk.config), KeysOf(Outcome(disk, run, decode).config);
      && Operators(after) == Operators(before)
      && (after == before || (HasDefault(after) && |after| == |before| + if HasDefault(before) then 0 else 1))
  {
    WithDefaultKeepsOthers(KeysOf(disk.config), ApiKey(DEFAULT_ID, run.apiHash, "generated by setup"));
    hide WithDefault, Operators, HasDefault, KeyIn, DotenvText;
    if Proceeds(disk, run, decode) {
      OutcomeAt(disk, run, decode, run.stop);
      assert run == run.(stop := run.stop);
    }
  }

  /** While existing configurations load, reruns keep the operator's keys in order and add one key in all. */
  lemma {:induction false} RerunsKeepKeys(disk: Disk, runs: seq<Run>, decode: Decoder)
    requires forall r | r in runs :: r.configLoads
    ensures var before, after := KeysOf(disk.config), KeysOf(AfterRuns(disk, runs, decode).config);
      && Operators(after) == Operators(before)
      && |before| <= |after| <= |before| + (if HasDefault(before) then 0 else 1)
      && (HasDefault(before) ==> HasDefault(after))
      && (|after| > |before| ==> HasDefault(after))
    decreases |runs|
  {
    if runs == [] {
    } else {
      var n := |runs| - 1;
      var mid := AfterRuns(disk, runs[..n], decode);
      RerunsKeepKeys(disk, runs[..n], decode);
      assert runs[n] in runs;
      KeysStep(mid, runs[n], decode);
    }
  }
}
