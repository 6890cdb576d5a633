/** The control-file reader and validator of `tools/vflp_prepare_folders.py`:
    `parse_config` turns the lines of `all.ctrl` into the configuration
    dictionary, `empty_value` and `check_parameters` decide whether the
    configuration is usable. */
module ControlFile {

  import opened Base
  import opened PyStr

  /** A value of the configuration dictionary: a string from the file, a
      ":"-split list, or an integer timeout. */
  datatype Value = Str(s: string) | List(items: seq<string>) | Num(n: int)

  /** The entry `tranche_partitions` or `tranche_mappings`: the nested
      dictionary the reader starts with, or the text a plain line of the same
      name overwrote it with. */
  datatype Slot<T> = Dict(entries: map<string, T>) | Replaced(text: string)

  /** The configuration dictionary. The two nested dictionaries are kept
      apart from the flat settings. */
  datatype Config = Config(
    values: map<string, Value>,
    partitions: Slot<seq<string>>,
    mappings: Slot<map<string, string>>)

  /** Why `parse_config` raises: item assignment into a nested dictionary a
      plain line overwrote with text (`TypeError`), a mapping pair that does
      not split into two (`ValueError`), or a key the post-processing reads
      and the file never set (`KeyError`). */
  datatype ReadError = NotADictionary(key: string) | BadPair(value: string) | KeyMissing(key: string)

  /** One `key = value` line. */
  datatype Setting = Setting(key: string, value: string)

  datatype Qualifier = Partition | Mapping

  // ------------------------------------------------------------------ one line

  predicate IsWordChar(c: char) {
    ('a' <= c <= 'z') || ('A' <= c <= 'Z') || ('0' <= c <= '9') || c == '_'
  }

  /** `s` matches `[a-zA-Z0-9_]+`. */
  predicate IsWord(s: string) {
    |s| > 0 && forall i :: 0 <= i < |s| ==> IsWordChar(s[i])
  }

  /** Length of the leading run of word characters. */
  function WordEnd(s: string): (n: nat)
    ensures n <= |s|
    ensures forall i :: 0 <= i < n ==> IsWordChar(s[i])
    ensures n == |s| || !IsWordChar(s[n])
  {
    if s == [] || !IsWordChar(s[0]) then 0 else 1 + WordEnd(s[1..])
  }

  /** `re.search(r'^(?P<parameter>[a-zA-Z0-9_]+)\s*=\s*(?P<parameter_value>.*?)\s*$', line)`:
      a non-empty word, optional whitespace, "=", and the rest with its
      surrounding whitespace trimmed; `.` does not match a newline, so a
      value that would contain one makes the line fail to match. */
  function ParseLine(line: string): (r: Option<Setting>)
    ensures r.Some? ==> IsWord(r.value.key) && StartsWith(line, r.value.key)
    ensures r.Some? ==> '\n' !in r.value.value && Stripped(r.value.value)
  {
    var k := WordEnd(line);
    if k == 0 then None
    else
      WordPrefix(line);
      match ParseValue(line[k..])
      case None => None
      case Some(value) => Some(Setting(line[..k], value))
  }

  /** What follows the key: whitespace, "=", and the trimmed one-line value. */
  function ParseValue(rest: string): (r: Option<string>)
    ensures r.Some? ==> '\n' !in r.value && Stripped(r.value)
  {
    var afterKey := LStrip(rest);
    if afterKey == [] || afterKey[0] != '=' then None
    else OneLine(Strip(afterKey[1..]))
  }

  /** `.` does not match a newline: a value holding one is no match. */
  function OneLine(value: string): (r: Option<string>)
    requires Stripped(value)
    ensures r.Some? ==> '\n' !in r.value && Stripped(r.value)
  {
    if '\n' in value then None else Some(value)
  }

  lemma WordPrefix(line: string)
    ensures var k := WordEnd(line); k > 0 ==> IsWord(line[..k]) && StartsWith(line, line[..k])
  {
    var k := WordEnd(line);
    assert forall i :: 0 <= i < k ==> line[..k][i] == line[i];
  }

  /** `s` has no whitespace at either end, as `strip()` leaves it. */
  predicate Stripped(s: string) {
    s == [] || (!IsSpace(s[0]) && !IsSpace(s[|s| - 1]))
  }

  lemma {:induction false} LStripSpaces(sp: string, t: string)
    requires AllSpace(sp)
    requires t == [] || !IsSpace(t[0])
    ensures LStrip(sp + t) == t
    decreases |sp|
  {
    if sp != [] {
      assert (sp + t)[1..] == sp[1..] + t;
      LStripSpaces(sp[1..], t);
    }
  }

  lemma {:induction false} RStripSpaces(t: string, sp: string)
    requires AllSpace(sp)
    requires t == [] || !IsSpace(t[|t| - 1])
    ensures RStrip(t + sp) == t
    decreases |sp|
  {
    if sp != [] {
      assert (t + sp)[..|t + sp| - 1] == t + sp[..|sp| - 1];
      RStripSpaces(t, sp[..|sp| - 1]);
    } else {
      assert t + sp == t;
    }
  }

  lemma {:induction false} WordEndOf(key: string, rest: string)
    requires IsWord(key)
    requires rest == [] || !IsWordChar(rest[0])
    ensures WordEnd(key + rest) == |key|
    decreases |key|
  {
    if |key| > 1 {
      assert (key + rest)[1..] == key[1..] + rest;
      WordEndOf(key[1..], rest);
    } else {
      assert (key + rest)[1..] == rest;
    }
  }

  lemma StripAround(sp2: string, value: string, sp3: string)
    requires AllSpace(sp2) && AllSpace(sp3) && Stripped(value)
    ensures Strip(sp2 + value + sp3) == value
  {
    var body := value + sp3;
    assert sp2 + value + sp3 == sp2 + body;
    if value == [] {
      assert body == sp3;
      assert AllSpace(sp2 + sp3) by {
        assert forall i :: 0 <= i < |sp2 + sp3| ==> (sp2 + sp3)[i] == if i < |sp2| then sp2[i] else sp3[i - |sp2|];
      }
      LStripSpaces(sp2 + sp3, []);
      assert sp2 + sp3 + [] == sp2 + sp3;
    } else {
      assert body[0] == value[0];
      LStripSpaces(sp2, body);
      RStripSpaces(value, sp3);
    }
  }

  /** Any line of the form `key <ws> = <ws> value <ws>` is read back as
      exactly that setting, whatever whitespace surrounds the "=". */
  lemma ParseLineOf(key: string, sp1: string, sp2: string, value: string, sp3: string)
    requires IsWord(key)
    requires AllSpace(sp1) && AllSpace(sp2) && AllSpace(sp3)
    requires '\n' !in value && Stripped(value)
    ensures ParseLine(key + sp1 + "=" + sp2 + value + sp3) == Some(Setting(key, value))
  {
    var rest := sp1 + "=" + sp2 + value + sp3;
    var line := key + rest;
    assert line == key + sp1 + "=" + sp2 + value + sp3;
    assert rest == [] || !IsWordChar(rest[0]) by {
      if sp1 != [] {
        assert rest[0] == sp1[0];
      } else {
        assert rest[0] == '=';
      }
    }
    WordEndOf(key, rest);
    assert line[|key|..] == rest;
    assert line[..|key|] == key;
    ParseValueOf(sp1, sp2, value, sp3);
  }

  lemma ParseValueOf(sp1: string, sp2: string, value: string, sp3: string)
    requires AllSpace(sp1) && AllSpace(sp2) && AllSpace(sp3)
    requires '\n' !in value && Stripped(value)
    ensures ParseValue(sp1 + "=" + sp2 + value + sp3) == Some(value)
  {
    var tail := sp2 + value + sp3;
    assert sp1 + "=" + sp2 + value + sp3 == sp1 + ("=" + tail);
    LStripSpaces(sp1, "=" + tail);
    StripAround(sp2, value, sp3);
    ParseValueStep(sp1 + ("=" + tail), tail, value);
  }

  /** A rest that left-strips to "=" followed by a text that strips to a
      one-line value reads as that value. */
  lemma ParseValueStep(rest: string, tail: string, value: string)
    requires LStrip(rest) == "=" + tail
    requires Strip(tail) == value && '\n' !in value
    ensures ParseValue(rest) == Some(value)
  {
    assert ("=" + tail)[1..] == tail;
  }

  /** A comment line, starting with "#", is never a setting. */
  lemma CommentIgnored(line: string)
    requires line != [] && line[0] == '#'
    ensures ParseLine(line) == None
  {
    assert !IsWordChar('#');
  }

  // ------------------------------------------------------------------ tranche keys

  function Suffix(q: Qualifier): string {
    match q
    case Partition => "_partition"
    case Mapping => "_mapping"
  }

  /** `re.search(r'^tranche\_(?P<type>.*?)\_(?P<qualifier>partition|mapping)$', key)`:
      the tranche type and the qualifier of a special key, if it is one. */
  function TrancheKey(key: string): (r: Option<(string, Qualifier)>)
    ensures r.Some? ==> key == "tranche_" + r.value.0 + Suffix(r.value.1)
  {
    if StartsWith(key, "tranche_") && |key| >= 18 && EndsWith(key, "_partition") then
      Some((Middle(key, Partition), Partition))
    else if StartsWith(key, "tranche_") && |key| >= 16 && EndsWith(key, "_mapping") then
      Some((Middle(key, Mapping), Mapping))
    else None
  }

  /** The type between the "tranche_" prefix and the qualifier's suffix. */
  function Middle(key: string, q: Qualifier): (t: string)
    requires StartsWith(key, "tranche_") && EndsWith(key, Suffix(q)) && |key| >= 8 + |Suffix(q)|
    ensures t == key[8..|key| - |Suffix(q)|]
    ensures key == "tranche_" + t + Suffix(q)
  {
    Around(key, 8, |Suffix(q)|);
    key[8..|key| - |Suffix(q)|]
  }

  /** A string is its first `n`, middle and last `m` characters. */
  lemma Around(s: string, n: nat, m: nat)
    requires n + m <= |s|
    ensures s == s[..n] + s[n..|s| - m] + s[|s| - m..]
  {
  }

  /** Every key of the form `tranche_<type>_partition` or `tranche_<type>_mapping` is recognised, with its type. */
  lemma TrancheKeyOf(t: string, q: Qualifier)
    ensures TrancheKey("tranche_" + t + Suffix(q)) == Some((t, q))
  {
    var key := "tranche_" + t + Suffix(q);
    assert key[..8] == "tranche_";
    assert key[|key| - |Suffix(q)|..] == Suffix(q);
    if q == Mapping {
      assert !EndsWith(key, "_partition") by {
        assert key[|key| - 1] == 'g';
      }
    }
    assert key[8..|key| - |Suffix(q)|] == t;
  }

  // ------------------------------------------------------------------ mappings

  /** A "from:to" pair splits into exactly two parts (anything else raises a ValueError). */
  predicate ValidPair(part: string) {
    |SplitSep(part, ':')| == 2
  }

  predicate ValidMapping(value: string) {
    forall p :: p in SplitSep(value, ',') ==> ValidPair(p)
  }

  function From(part: string): string
    requires ValidPair(part)
  {
    SplitSep(part, ':')[0]
  }

  function To(part: string): string
    requires ValidPair(part)
  {
    SplitSep(part, ':')[1]
  }

  /** The (from, to) pairs of a mapping value, in order. */
  function Pairs(value: string): (ps: seq<(string, string)>)
    requires ValidMapping(value)
    ensures |ps| == |SplitSep(value, ',')|
  {
    var parts := SplitSep(value, ',');
    seq(|parts|, i requires 0 <= i < |parts| => (From(parts[i]), To(parts[i])))
  }

  /** Lines 54-56: the from→to dictionary of a mapping value's pairs; a
      repeated "from" takes the later "to". */
  function BuildMapping(ps: seq<(string, string)>): (m: map<string, string>)
    ensures forall i :: 0 <= i < |ps| ==> ps[i].0 in m
    ensures forall k :: k in m ==> k in Froms(ps)
  {
    if ps == [] then map[]
    else BuildMapping(ps[..|ps| - 1])[ps[|ps| - 1].0 := ps[|ps| - 1].1]
  }

  function Froms(ps: seq<(string, string)>): (r: seq<string>)
    ensures |r| == |ps| && forall i :: 0 <= i < |ps| ==> r[i] == ps[i].0
  {
    seq(|ps|, i requires 0 <= i < |ps| => ps[i].0)
  }

  /** The last pair with a given "from" decides its "to". */
  lemma {:induction false} BuildMappingLastWins(ps: seq<(string, string)>, i: nat)
    requires i < |ps|
    requires forall j :: i < j < |ps| ==> ps[j].0 != ps[i].0
    ensures BuildMapping(ps)[ps[i].0] == ps[i].1
    decreases |ps|
  {
    if i < |ps| - 1 {
      BuildMappingLastWins(ps[..|ps| - 1], i);
    }
  }

  // ------------------------------------------------------------------ the file

  /** The two entries that hold nested dictionaries. */
  predicate SlotName(key: string) {
    key == "tranche_partitions" || key == "tranche_mappings"
  }

  /** Lines 48-62: record one matched line. */
  function Apply(cfg: Config, s: Setting): (r: Result<Config, ReadError>)
    ensures TrancheKey(s.key).None? && !SlotName(s.key) ==>
              r == Ok(cfg.(values := cfg.values[s.key := Str(s.value)]))
    ensures r.Err? <==> match TrancheKey(s.key)
      case Some((_, Mapping)) => cfg.mappings.Replaced? || !ValidMapping(s.value)
      case Some((_, Partition)) => cfg.partitions.Replaced?
      case None => false
    ensures r.Ok? && TrancheKey(s.key).Some? ==>
              r.value.values == cfg.values
              && r.value.partitions.Replaced? == cfg.partitions.Replaced?
              && r.value.mappings.Replaced? == cfg.mappings.Replaced?
  {
    match TrancheKey(s.key)
    case Some((t, Mapping)) =>
      if cfg.mappings.Replaced? then Err(NotADictionary("tranche_mappings"))
      else if !ValidMapping(s.value) then Err(BadPair(s.value))
      else Ok(cfg.(mappings := Dict(cfg.mappings.entries[t := BuildMapping(Pairs(s.value))])))
    case Some((t, Partition)) =>
      if cfg.partitions.Replaced? then Err(NotADictionary("tranche_partitions"))
      else Ok(cfg.(partitions := Dict(cfg.partitions.entries[t := SplitSep(s.value, ':')])))
    case None =>
      if s.key == "tranche_partitions" then Ok(cfg.(partitions := Replaced(s.value)))
      else if s.key == "tranche_mappings" then Ok(cfg.(mappings := Replaced(s.value)))
      else Ok(cfg.(values := cfg.values[s.key := Str(s.value)]))
  }

  /** The settings of the file's lines, in order: lines that do not match are skipped. */
  function Settings(lines: seq<string>): (ss: seq<Setting>)
    decreases |lines|
  {
    if lines == [] then []
    else
      var last := match ParseLine(lines[|lines| - 1]) case None => [] case Some(s) => [s];
      Settings(lines[..|lines| - 1]) + last
  }

  /** Lines 37-62: the dictionary after recording every setting, in order;
      the first setting that raises ends the reading. */
  function Record(ss: seq<Setting>): (r: Result<Config, ReadError>)
    ensures r.Ok? ==> forall k :: k in r.value.values ==> r.value.values[k].Str?
    decreases |ss|
  {
    if ss == [] then Ok(Config(map[], Dict(map[]), Dict(map[])))
    else
      match Record(ss[..|ss| - 1])
      case Err(e) => Err(e)
      case Ok(cfg) => Apply(cfg, ss[|ss| - 1])
  }

  /** Some setting before position `i` is a plain line named `name`. */
  predicate NamedBefore(ss: seq<Setting>, i: nat, name: string) {
    exists j :: 0 <= j < i && j < |ss| && ss[j].key == name
  }

  /** The setting at position `i` raises: a mapping line whose value has a
      pair that does not split in two, or a tranche line after a plain line
      overwrote its nested dictionary. */
  predicate Breaks(ss: seq<Setting>, i: nat)
    requires i < |ss|
  {
    match TrancheKey(ss[i].key)
    case Some((_, Mapping)) => NamedBefore(ss, i, "tranche_mappings") || !ValidMapping(ss[i].value)
    case Some((_, Partition)) => NamedBefore(ss, i, "tranche_partitions")
    case None => false
  }

  /** A nested dictionary is overwritten exactly when some plain line names it. */
  lemma {:induction false} RecordSlots(ss: seq<Setting>)
    requires Record(ss).Ok?
    ensures Record(ss).value.partitions.Replaced? <==> NamedBefore(ss, |ss|, "tranche_partitions")
    ensures Record(ss).value.mappings.Replaced? <==> NamedBefore(ss, |ss|, "tranche_mappings")
    decreases |ss|
  {
    if ss != [] {
      var pre := ss[..|ss| - 1];
      RecordSlots(pre);
      NamedBeforeSnoc(ss, "tranche_partitions");
      NamedBeforeSnoc(ss, "tranche_mappings");
      TrancheKeyNotSlot(ss[|ss| - 1].key);
    }
  }

  /** Neither slot name is a tranche key. */
  lemma TrancheKeyNotSlot(key: string)
    ensures SlotName(key) ==> TrancheKey(key).None?
  {
    if key == "tranche_partitions" {
      assert !EndsWith(key, "_partition") by { assert key[|key| - 1] == 's'; }
      assert !EndsWith(key, "_mapping") by { assert key[|key| - 1] == 's'; }
    } else if key == "tranche_mappings" {
      assert !EndsWith(key, "_partition") by { assert key[|key| - 1] == 's'; }
      assert !EndsWith(key, "_mapping") by { assert key[|key| - 1] == 's'; }
    }
  }

  lemma NamedBeforeSnoc(ss: seq<Setting>, name: string)
    requires ss != []
    ensures NamedBefore(ss, |ss|, name) <==> NamedBefore(ss[..|ss| - 1], |ss| - 1, name) || ss[|ss| - 1].key == name
  {
    var pre := ss[..|ss| - 1];
    if NamedBefore(ss, |ss|, name) && ss[|ss| - 1].key != name {
      var j :| 0 <= j < |ss| && ss[j].key == name;
      assert pre[j] == ss[j];
    }
    if NamedBefore(pre, |ss| - 1, name) {
      var j :| 0 <= j < |pre| && pre[j].key == name;
      assert pre[j] == ss[j];
    }
  }

  lemma NamedBeforePrefix(ss: seq<Setting>, i: nat, name: string)
    requires ss != [] && i < |ss|
    ensures NamedBefore(ss, i, name) == NamedBefore(ss[..|ss| - 1], i, name)
  {
    var pre := ss[..|ss| - 1];
    if NamedBefore(ss, i, name) {
      var j :| 0 <= j < i && j < |ss| && ss[j].key == name;
      assert pre[j] == ss[j];
    }
    if NamedBefore(pre, i, name) {
      var j :| 0 <= j < i && j < |pre| && pre[j].key == name;
      assert pre[j] == ss[j];
    }
  }

  /** Whether a setting raises depends only on the settings before it. */
  lemma BreaksPrefix(ss: seq<Setting>, i: nat)
    requires ss != [] && i < |ss| - 1
    ensures Breaks(ss, i) == Breaks(ss[..|ss| - 1], i)
  {
    assert ss[..|ss| - 1][i] == ss[i];
    NamedBeforePrefix(ss, i, "tranche_partitions");
    NamedBeforePrefix(ss, i, "tranche_mappings");
  }

  lemma NoneBreaks(ss: seq<Setting>, pre: seq<Setting>)
    requires ss != [] && pre == ss[..|ss| - 1] && !Breaks(ss, |ss| - 1)
    requires forall i :: 0 <= i < |pre| ==> !Breaks(pre, i)
    ensures forall i :: 0 <= i < |ss| ==> !Breaks(ss, i)
  {
    forall i | 0 <= i < |ss| - 1 ensures !Breaks(ss, i) {
      BreaksPrefix(ss, i);
    }
  }

  /** Once the settings before it are recorded, the last setting raises exactly when it breaks. */
  lemma BreaksLast(ss: seq<Setting>)
    requires ss != [] && Record(ss[..|ss| - 1]).Ok?
    ensures Record(ss).Err? == Breaks(ss, |ss| - 1)
  {
    var pre := ss[..|ss| - 1];
    var n := |ss| - 1;
    RecordSlots(pre);
    NamedBeforePrefix(ss, n, "tranche_partitions");
    NamedBeforePrefix(ss, n, "tranche_mappings");
    assert Record(ss) == Apply(Record(pre).value, ss[n]);
  }

  /** Reading raises exactly when some setting breaks. A plain
      `tranche_partitions` or `tranche_mappings` line is recorded without
      raising; only a later tranche line of that kind raises. */
  lemma {:induction false} RecordErrors(ss: seq<Setting>)
    ensures Record(ss).Err? <==> exists i :: 0 <= i < |ss| && Breaks(ss, i)
    decreases |ss|
  {
    if ss != [] {
      var pre := ss[..|ss| - 1];
      var n := |ss| - 1;
      RecordErrors(pre);
      if Record(pre).Ok? {
        BreaksLast(ss);
        if !Breaks(ss, n) {
          NoneBreaks(ss, pre);
        }
      } else {
        var i :| 0 <= i < n && Breaks(pre, i);
        BreaksPrefix(ss, i);
        assert Record(ss).Err?;
      }
    }
  }

  /** The value the last setting of `key` gives it, if any setting does. */
  function LastSetting(ss: seq<Setting>, key: string): (r: Option<string>)
    ensures r.None? <==> forall i :: 0 <= i < |ss| ==> ss[i].key != key
    decreases |ss|
  {
    if ss == [] then None
    else if ss[|ss| - 1].key == key then Some(ss[|ss| - 1].value)
    else
      var pre := ss[..|ss| - 1];
      assert forall i :: 0 <= i < |pre| ==> pre[i] == ss[i];
      LastSetting(pre, key)
  }

  lemma {:induction false} LastSettingOf(ss: seq<Setting>, key: string, i: nat)
    requires i < |ss| && ss[i].key == key
    requires forall j :: i < j < |ss| ==> ss[j].key != key
    ensures LastSetting(ss, key) == Some(ss[i].value)
    decreases |ss|
  {
    if i < |ss| - 1 {
      LastSettingOf(ss[..|ss| - 1], key, i);
    }
  }

  lemma {:induction false} RecordSetting(ss: seq<Setting>, key: string)
    requires Record(ss).Ok?
    requires TrancheKey(key).None? && !SlotName(key)
    ensures LastSetting(ss, key).None? ==> key !in Record(ss).value.values
    ensures LastSetting(ss, key).Some? ==>
              key in Record(ss).value.values && Record(ss).value.values[key] == Str(LastSetting(ss, key).value)
    decreases |ss|
  {
    if ss != [] {
      RecordSetting(ss[..|ss| - 1], key);
    }
  }

  /** The last setting of a plain key decides its value; a key no setting names is absent. */
  lemma LastSettingWins(ss: seq<Setting>, key: string)
    requires Record(ss).Ok?
    requires TrancheKey(key).None? && !SlotName(key)
    ensures forall i :: 0 <= i < |ss| && ss[i].key == key && (forall j :: i < j < |ss| ==> ss[j].key != key)
              ==> key in Record(ss).value.values && Record(ss).value.values[key] == Str(ss[i].value)
    ensures (forall i :: 0 <= i < |ss| ==> ss[i].key != key) ==> key !in Record(ss).value.values
  {
    RecordSetting(ss, key);
    forall i | 0 <= i < |ss| && ss[i].key == key && (forall j :: i < j < |ss| ==> ss[j].key != key)
      ensures LastSetting(ss, key) == Some(ss[i].value)
    {
      LastSettingOf(ss, key, i);
    }
  }

  // ------------------------------------------------------------------ post-processing

  /** The keys the post-processing reads unconditionally (a missing one raises a KeyError). */
  predicate HasRequiredKeys(values: map<string, Value>) {
    && "object_store_job_output_data_prefix" in values && values["object_store_job_output_data_prefix"].Str?
    && "job_name" in values && values["job_name"].Str?
    && "targetformats" in values && values["targetformats"].Str?
    && "tranche_types" in values && values["tranche_types"].Str?
    && "file_fieldnames" in values && values["file_fieldnames"].Str?
    && "attributes_to_generate" in values && values["attributes_to_generate"].Str?
  }

  /** Lines 64-68: the full output prefix and the four ":"-split lists. */
  function Derive(values: map<string, Value>): (r: map<string, Value>)
    requires HasRequiredKeys(values)
    ensures r.Keys == values.Keys + {"object_store_job_output_data_prefix_full", "target_formats"}
    ensures r["object_store_job_output_data_prefix_full"]
            == Str(values["object_store_job_output_data_prefix"].s + "/" + values["job_name"].s)
    ensures r["target_formats"] == List(SplitSep(values["targetformats"].s, ':'))
    ensures r["tranche_types"] == List(SplitSep(values["tranche_types"].s, ':'))
    ensures r["file_fieldnames"] == List(SplitSep(values["file_fieldnames"].s, ':'))
    ensures r["attributes_to_generate"] == List(SplitSep(values["attributes_to_generate"].s, ':'))
    ensures forall k :: k in values && k !in DerivedKeys() ==> r[k] == values[k]
  {
    values["object_store_job_output_data_prefix_full" :=
             Str(values["object_store_job_output_data_prefix"].s + "/" + values["job_name"].s)]
          ["target_formats" := List(SplitSep(values["targetformats"].s, ':'))]
          ["tranche_types" := List(SplitSep(values["tranche_types"].s, ':'))]
          ["file_fieldnames" := List(SplitSep(values["file_fieldnames"].s, ':'))]
          ["attributes_to_generate" := List(SplitSep(values["attributes_to_generate"].s, ':'))]
  }

  function DerivedKeys(): set<string> {
    {"object_store_job_output_data_prefix_full", "target_formats", "tranche_types",
     "file_fieldnames", "attributes_to_generate"}
  }

  /** The seven engine timeouts, each defaulting to 30 seconds. */
  function TimeoutKeys(): seq<string> {
    ["chemaxon_neutralization_timeout", "cxcalc_stereoisomer_timeout", "cxcalc_tautomerization_timeout",
     "cxcalc_protonation_timeout", "obabel_protonation_timeout", "molconvert_conformation_timeout",
     "obabel_conformation_timeout"]
  }

  const DefaultTimeout := 30

  /** `empty_value`: 1 (true) iff the key is absent or holds the empty string. */
  predicate EmptyValue(values: map<string, Value>, key: string) {
    key !in values || values[key] == Str("")
  }

  /** The timeout a raw entry becomes: the default unless it is set to a numeric string. */
  function TimeoutOf(raw: Option<Value>): (r: Value)
    ensures r.Num? && r.n >= 0
    ensures raw.None? || raw == Some(Str("")) ==> r == Num(DefaultTimeout)
    ensures raw.Some? && raw.value.Str? && IsNumeric(raw.value.s) ==> r == Num(ParseNat(raw.value.s))
    ensures raw.Some? && raw.value.Str? && !IsNumeric(raw.value.s) ==> r == Num(DefaultTimeout)
  {
    if raw.None? || raw == Some(Str("")) then Num(DefaultTimeout)
    else if raw.value.Str? && IsNumeric(raw.value.s) then Num(ParseNat(raw.value.s))
    else Num(DefaultTimeout)
  }

  /** Lines 82-90 for one timeout key. */
  function DefaultOne(values: map<string, Value>, key: string): map<string, Value> {
    if EmptyValue(values, key) then values[key := Num(DefaultTimeout)]
    else if !(values[key].Str? && IsNumeric(values[key].s)) then values[key := Num(DefaultTimeout)]
    else values[key := Num(ParseNat(values[key].s))]
  }

  /** Lines 81-90: the loop over the timeout keys, in order. */
  function DefaultTimeouts(values: map<string, Value>, keys: seq<string>): map<string, Value>
    decreases |keys|
  {
    if keys == [] then values else DefaultTimeouts(DefaultOne(values, keys[0]), keys[1..])
  }

  /** After the loop every listed timeout holds its converted value or the
      default, and every other key is untouched. */
  lemma {:induction false} DefaultTimeoutsSpec(values: map<string, Value>, keys: seq<string>)
    requires forall i, j :: 0 <= i < j < |keys| ==> keys[i] != keys[j]
    ensures var r := DefaultTimeouts(values, keys);
      && (forall k :: k in r <==> k in values || k in keys)
      && (forall k :: k in keys ==> r[k] == TimeoutOf(Lookup(values, k)))
      && (forall k :: k in values && k !in keys ==> r[k] == values[k])
    decreases |keys|
  {
    if keys != [] {
      var v1 := DefaultOne(values, keys[0]);
      DefaultTimeoutsSpec(v1, keys[1..]);
      assert forall k :: k in keys[1..] ==> Lookup(v1, k) == Lookup(values, k) by {
        forall k | k in keys[1..] ensures k != keys[0] {
          var j :| 0 <= j < |keys[1..]| && keys[1..][j] == k;
          assert keys[j + 1] == k;
        }
      }
      assert v1[keys[0]] == TimeoutOf(Lookup(values, keys[0]));
    }
  }

  /** Lines 64-90 on the flat settings: derived entries, then timeouts. */
  function Finalize(values: map<string, Value>): map<string, Value>
    requires HasRequiredKeys(values)
  {
    DefaultTimeouts(Derive(values), TimeoutKeys())
  }

  /** The keys lines 64-68 read, in the order they read them. */
  function RequiredKeys(): seq<string> {
    ["object_store_job_output_data_prefix", "job_name", "targetformats", "tranche_types",
     "file_fieldnames", "attributes_to_generate"]
  }

  /** The first of `keys` the dictionary lacks. */
  function FirstMissing(values: map<string, Value>, keys: seq<string>): (r: Option<string>)
    ensures r.None? <==> forall i :: 0 <= i < |keys| ==> keys[i] in values
    ensures r.Some? ==> exists i :: 0 <= i < |keys| && keys[i] == r.value && r.value !in values
                          && forall j :: 0 <= j < i ==> keys[j] in values
    decreases |keys|
  {
    if keys == [] then None
    else if keys[0] !in values then Some(keys[0])
    else
      var r := FirstMissing(values, keys[1..]);
      if r.Some? then
        var i :| 0 <= i < |keys[1..]| && keys[1..][i] == r.value && r.value !in values
                 && forall j :: 0 <= j < i ==> keys[1..][j] in values;
        assert keys[i + 1] == r.value;
        assert forall j :: 1 <= j <= i ==> keys[j] == keys[1..][j - 1];
        r
      else
        assert forall j :: 1 <= j < |keys| ==> keys[j] == keys[1..][j - 1];
        r
  }

  /** `parse_config`: the lines of the control file to the final configuration. */
  function ParseConfig(lines: seq<string>): (r: Result<Config, ReadError>)
    ensures r.Ok? <==> Record(Settings(lines)).Ok? && HasRequiredKeys(Record(Settings(lines)).value.values)
    ensures r.Err? <==> (Record(Settings(lines)).Err?
      || exists i :: 0 <= i < |RequiredKeys()| && RequiredKeys()[i] !in Record(Settings(lines)).value.values)
    ensures r.Ok? ==> r.value.partitions == Record(Settings(lines)).value.partitions
                      && r.value.mappings == Record(Settings(lines)).value.mappings
    ensures r.Ok? ==> r.value.values == Finalize(Record(Settings(lines)).value.values)
  {
    match Record(Settings(lines))
    case Err(e) => Err(e)
    case Ok(raw) =>
      match FirstMissing(raw.values, RequiredKeys())
      case Some(k) => Err(KeyMissing(k))
      case None =>
        assert forall i :: 0 <= i < |RequiredKeys()| ==> RequiredKeys()[i] in raw.values;
        Ok(raw.(values := Finalize(raw.values)))
  }

  /** The timeout keys are distinct and none of them is a derived key. */
  lemma TimeoutKeysApart()
    ensures forall i, j :: 0 <= i < j < |TimeoutKeys()| ==> TimeoutKeys()[i] != TimeoutKeys()[j]
    ensures forall k :: k in TimeoutKeys() ==> k !in DerivedKeys()
  {
  }

  /** Each timeout of the final configuration is the file's numeric value,
      or 30 when the file leaves it out, empty or non-numeric; the split
      lists and the full prefix are those of the file's values. */
  lemma FinalizeSpec(raw: map<string, Value>)
    requires HasRequiredKeys(raw)
    ensures var v := Finalize(raw);
      && (forall k :: k in TimeoutKeys() ==> k in v && v[k] == TimeoutOf(Lookup(raw, k)))
      && (forall k :: k in DerivedKeys() ==> k in v && v[k] == Derive(raw)[k])
      && (forall k :: k in raw && k !in DerivedKeys() && k !in TimeoutKeys() ==> k in v && v[k] == raw[k])
  {
    var d := Derive(raw);
    TimeoutKeysApart();
    DefaultTimeoutsSpec(d, TimeoutKeys());
    FinalizeTimeouts(raw, d);
    FinalizeKept(raw, d);
  }

  lemma FinalizeTimeouts(raw: map<string, Value>, d: map<string, Value>)
    requires HasRequiredKeys(raw) && d == Derive(raw)
    requires forall k :: k in TimeoutKeys() ==> k !in DerivedKeys()
    ensures forall k :: k in TimeoutKeys() ==> Lookup(d, k) == Lookup(raw, k)
  {
    forall k | k in TimeoutKeys()
      ensures Lookup(d, k) == Lookup(raw, k)
    {
      assert k !in DerivedKeys();
    }
  }

  lemma FinalizeKept(raw: map<string, Value>, d: map<string, Value>)
    requires HasRequiredKeys(raw) && d == Derive(raw)
    requires forall k :: k in TimeoutKeys() ==> k !in DerivedKeys()
    requires var r := DefaultTimeouts(d, TimeoutKeys());
      && (forall k :: k in r <==> k in d || k in TimeoutKeys())
      && (forall k :: k in d && k !in TimeoutKeys() ==> r[k] == d[k])
    ensures var v := DefaultTimeouts(d, TimeoutKeys());
      && (forall k :: k in DerivedKeys() ==> k in v && v[k] == d[k])
      && (forall k :: k in raw && k !in DerivedKeys() && k !in TimeoutKeys() ==> k in v && v[k] == raw[k])
  {
  }

  // ------------------------------------------------------------------ validation

  /** The key holds exactly the string `s`. */
  predicate StrIs(values: map<string, Value>, key: string, s: string) {
    key in values && values[key] == Str(s)
  }

  /** A message `check_parameters` prints. */
  datatype Problem =
    | BothNames
    | NoThreads
    | BadStorageMode
    | MissingKey(key: string, reason: string)
    | TempdirNotShm
    | AwsNeedsS3
    | SlurmNeedsSharedfs
    | NoBatchsystem
    | UnsupportedBatchsystem(name: string)

  /** The text printed for each problem. */
  function Message(p: Problem): string {
    match p
    case BothNames => "* Define either job_letter or job_name (job_letter is being deprecated)"
    case NoThreads => "* 'threads_to_use' must be set in all.ctrl"
    case BadStorageMode => "* 'job_storage_mode' must be set to 's3' or 'sharedfs'"
    case MissingKey(key, reason) => "* '" + key + "' must be set if " + reason
    case TempdirNotShm => "* RECOMMENDED that 'tempdir_default' be '/dev/shm' if awsbatch is used"
    case AwsNeedsS3 => "* 'job_storage_mode' must be set to 's3' batchsystem is 'awsbatch'"
    case SlurmNeedsSharedfs => "* 'job_storage_mode' must be set to 'sharedfs' batchsystem is 'slurm'"
    case NoBatchsystem => "* 'batchsystem' must be set in all.ctrl"
    case UnsupportedBatchsystem(name) => "* batchsystem '" + name + "' is not supported. Only awsbatch and slurm are supported"
  }

  /** What `check_parameters` reports: the error flag and the problems printed, in order. */
  datatype Check = Check(error: bool, problems: seq<Problem>)

  function Report(c: Check, failed: bool, p: Problem): (r: Check)
    ensures r.error <==> c.error || failed
  {
    if failed then Check(true, c.problems + [p]) else c
  }

  function AwsKeys(): seq<string> {
    ["aws_batch_prefix", "aws_batch_number_of_queues", "aws_batch_array_job_size", "aws_ecr_repository_name",
     "aws_region", "aws_batch_subjob_vcpus", "aws_batch_subjob_memory", "aws_batch_subjob_timeout"]
  }

  function S3Keys(): seq<string> {
    ["object_store_job_output_data_bucket", "object_store_job_output_data_prefix",
     "object_store_ligand_library_bucket", "object_store_ligand_library_prefix"]
  }

  predicate AnyEmpty(values: map<string, Value>, keys: seq<string>) {
    exists i :: 0 <= i < |keys| && EmptyValue(values, keys[i])
  }

  /** One "must be set" check per key, in order. */
  function RequireAll(c: Check, values: map<string, Value>, keys: seq<string>, reason: string): (r: Check)
    ensures r.error <==> c.error || AnyEmpty(values, keys)
    decreases |keys|
  {
    if keys == [] then c
    else
      var c1 := Report(c, EmptyValue(values, keys[0]), MissingKey(keys[0], reason));
      assert forall i :: 1 <= i < |keys| ==> keys[1..][i - 1] == keys[i];
      assert AnyEmpty(values, keys) <==> EmptyValue(values, keys[0]) || AnyEmpty(values, keys[1..]);
      RequireAll(c1, values, keys[1..], reason)
  }

  /** Lines 110-112: `job_letter` and `job_name` must not both be set. */
  predicate NamesClash(v: map<string, Value>) {
    !EmptyValue(v, "job_letter") && !EmptyValue(v, "job_name")
  }

  /** Lines 125-136: the storage-mode rules. */
  predicate StorageInvalid(v: map<string, Value>) {
    || !(StrIs(v, "job_storage_mode", "s3") || StrIs(v, "job_storage_mode", "sharedfs"))
    || (StrIs(v, "job_storage_mode", "s3") && AnyEmpty(v, S3Keys()))
  }

  /** Lines 139-181: the batch-system rules; an unsupported batch system breaks none. */
  predicate BatchInvalid(v: map<string, Value>) {
    || EmptyValue(v, "batchsystem")
    || (StrIs(v, "batchsystem", "awsbatch")
        && (AnyEmpty(v, AwsKeys()) || !StrIs(v, "tempdir_default", "/dev/shm") || !StrIs(v, "job_storage_mode", "s3")))
    || (StrIs(v, "batchsystem", "slurm")
        && (EmptyValue(v, "slurm_template") || !StrIs(v, "job_storage_mode", "sharedfs")))
  }

  /** The rules of a usable configuration, stated independently of the order of the checks. */
  predicate Invalid(v: map<string, Value>) {
    NamesClash(v) || EmptyValue(v, "threads_to_use") || StorageInvalid(v) || BatchInvalid(v)
  }

  /** Lines 125-136. */
  function CheckStorage(c: Check, v: map<string, Value>): (r: Check)
    ensures r.error <==> c.error || StorageInvalid(v)
  {
    if !(StrIs(v, "job_storage_mode", "s3") || StrIs(v, "job_storage_mode", "sharedfs")) then
      Report(c, true, BadStorageMode)
    else if StrIs(v, "job_storage_mode", "s3") then
      RequireAll(c, v, S3Keys(), "job_storage_mode is 's3'")
    else c
  }

  /** Lines 142-167: the awsbatch requirements. */
  function CheckAws(c: Check, v: map<string, Value>): (r: Check)
    ensures r.error <==> c.error || AnyEmpty(v, AwsKeys()) || !StrIs(v, "tempdir_default", "/dev/shm")
                         || !StrIs(v, "job_storage_mode", "s3")
  {
    var c1 := RequireAll(c, v, AwsKeys(), "batchsystem is 'awsbatch'");
    var c2 := Report(c1, !StrIs(v, "tempdir_default", "/dev/shm"),
                     TempdirNotShm);
    Report(c2, !StrIs(v, "job_storage_mode", "s3"), AwsNeedsS3)
  }

  /** Lines 168-174: the slurm requirements. */
  function CheckSlurm(c: Check, v: map<string, Value>): (r: Check)
    ensures r.error <==> c.error || EmptyValue(v, "slurm_template") || !StrIs(v, "job_storage_mode", "sharedfs")
  {
    var c1 := Report(c, EmptyValue(v, "slurm_template"), MissingKey("slurm_template", "batchsystem is 'slurm'"));
    Report(c1, !StrIs(v, "job_storage_mode", "sharedfs"), SlurmNeedsSharedfs)
  }

  /** Lines 139-181. */
  function CheckBatch(c: Check, v: map<string, Value>): (r: Check)
    ensures r.error <==> c.error || BatchInvalid(v)
    ensures !EmptyValue(v, "batchsystem") && !StrIs(v, "batchsystem", "awsbatch") && !StrIs(v, "batchsystem", "slurm")
            ==> r.error == c.error && |r.problems| == |c.problems| + 1
  {
    if EmptyValue(v, "batchsystem") then
      Report(c, true, NoBatchsystem)
    else if StrIs(v, "batchsystem", "awsbatch") then
      CheckAws(c, v)
    else if StrIs(v, "batchsystem", "slurm") then
      CheckSlurm(c, v)
    else
      var shown := if v["batchsystem"].Str? then v["batchsystem"].s else "";
      Check(c.error, c.problems + [UnsupportedBatchsystem(shown)])
  }

  /** `check_parameters`: the report, and the configuration with `job_name`
      copied into `job_letter` (lines 113-114). The copy is applied last
      here; no later check reads `job_letter`. */
  function CheckParameters(values: map<string, Value>): (r: (Check, map<string, Value>))
    ensures r.0.error <==> Invalid(values)
    ensures !EmptyValue(values, "job_name") ==> r.1 == values["job_letter" := values["job_name"]]
    ensures EmptyValue(values, "job_name") ==> r.1 == values
  {
    var c1 := Report(Check(false, []), NamesClash(values),
                     BothNames);
    var c2 := Report(c1, EmptyValue(values, "threads_to_use"), NoThreads);
    var c3 := CheckStorage(c2, values);
    var c4 := CheckBatch(c3, values);
    var copied := if !EmptyValue(values, "job_name") then values["job_letter" := values["job_name"]] else values;
    (c4, copied)
  }

  /** A batch system other than awsbatch or slurm adds a message but never the error. */
  lemma UnsupportedBatchOnlyReported(values: map<string, Value>)
    requires !EmptyValue(values, "batchsystem")
    requires !StrIs(values, "batchsystem", "awsbatch") && !StrIs(values, "batchsystem", "slurm")
    ensures CheckParameters(values).0.error
            <==> NamesClash(values) || EmptyValue(values, "threads_to_use") || StorageInvalid(values)
  {
  }
}
