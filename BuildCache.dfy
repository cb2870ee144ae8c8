/**
 * The build cache (modelsrc\vbspaddon_mdls.cache): one text line per
 * compiled model, recording the source models with their header checksums
 * and the key and path of the model built from them. Fields are separated
 * by the escape character 0x1b; an empty field ends the model list.
 *
 * The file itself is left out: a line is a string as ReadLine returns it
 * (its newline included), checksums come from an oracle from model path to
 * the header's checksum word, and file existence from another.
 */
module BuildCache {
  import opened Common

  const SEPARATOR: char := 27 as char
  const NUL: char := 0 as char
  const MAX_PATH: nat := 260
  const MAX_CHECKSUM_LENGTH: nat := 11

  /** 6 paths, 6 checksums, 12 separators. */
  const MAX_CACHE_LINE: nat := MAX_PATH * 6 + MAX_CHECKSUM_LENGTH * 6 + 12

  /** GetModelChecksum: the third header word of the model file, as its bit
      pattern, or None when the file cannot be opened. */
  type Checksums = string -> Option<u32>

  // ---------------------------------------------------------------------
  // Hexadecimal fields
  // ---------------------------------------------------------------------

  function HexDigit(d: nat): char
    requires d < 16
  {
    "0123456789abcdef"[d]
  }

  predicate IsHexChar(c: char)
  {
    '0' <= c <= '9' || 'a' <= c <= 'f' || 'A' <= c <= 'F'
  }

  function HexValue(c: char): nat
    requires IsHexChar(c)
  {
    if '0' <= c <= '9' then c as int - '0' as int
    else if 'a' <= c <= 'f' then c as int - 'a' as int + 10
    else c as int - 'A' as int + 10
  }

  /** %x: lower-case hexadecimal without leading zeros. */
  function Hex(v: nat): (r: string)
    ensures |r| >= 1
    decreases v
  {
    if v < 16 then [HexDigit(v)] else Hex(v / 16) + [HexDigit(v % 16)]
  }

  lemma {:induction false} HexDigits(v: nat)
    ensures forall i :: 0 <= i < |Hex(v)| ==> IsHexChar(Hex(v)[i])
    decreases v
  {
    if v >= 16 {
      HexDigits(v / 16);
    }
  }

  /** The "0x%x" field written for a checksum or key. */
  function HexField(v: u32): string
  {
    "0x" + Hex(v)
  }

  /** V_atoi64's hexadecimal loop: digits accumulate until a non-digit. */
  function HexRun(s: string, acc: int): int
  {
    if s == [] || !IsHexChar(s[0]) then acc else HexRun(s[1..], acc * 16 + HexValue(s[0]))
  }

  /** V_atoi64's decimal loop. */
  function DecRun(s: string, acc: int): int
  {
    if s == [] || !('0' <= s[0] <= '9') then acc else DecRun(s[1..], acc * 10 + (s[0] as int - '0' as int))
  }

  /** V_atoi64 without the sign: 0x/0X hexadecimal, a quoted character, or
      decimal. */
  function UnsignedValue(s: string): int
  {
    if |s| >= 2 && s[0] == '0' && (s[1] == 'x' || s[1] == 'X') then HexRun(s[2..], 0)
    else if |s| >= 1 && s[0] == '\'' then (if |s| >= 2 then s[1] as int else 0)
    else DecRun(s, 0)
  }

  /** V_atoi64 (tier1): an optional '-', then UnsignedValue. */
  function Atoi64(s: string): int
  {
    if |s| >= 1 && s[0] == '-' then -UnsignedValue(s[1..]) else UnsignedValue(s)
  }

  lemma {:induction false} HexRunAppend(s: string, t: string, acc: int)
    requires forall i :: 0 <= i < |s| ==> IsHexChar(s[i])
    ensures HexRun(s + t, acc) == HexRun(t, HexRun(s, acc))
    decreases |s|
  {
    if s != [] {
      assert IsHexChar(s[0]);
      assert (s + t)[1..] == s[1..] + t;
      HexRunAppend(s[1..], t, acc * 16 + HexValue(s[0]));
    } else {
      assert s + t == t;
    }
  }

  lemma {:induction false} HexRunOfHex(v: nat)
    ensures HexRun(Hex(v), 0) == v
    decreases v
  {
    if v < 16 {
      HexDigitValue(v);
    } else {
      var q, d := v / 16, v % 16;
      HexRunOfHex(q);
      HexDigits(q);
      HexDigitValue(d);
      HexRunAppend(Hex(q), [HexDigit(d)], 0);
      assert [HexDigit(d)][1..] == [];
      assert HexRun([HexDigit(d)], q) == q * 16 + d;
    }
  }

  lemma HexDigitValue(d: nat)
    requires d < 16
    ensures IsHexChar(HexDigit(d)) && HexValue(HexDigit(d)) == d
  {
  }

  /** Reading back a written hexadecimal field gives the value written. */
  lemma HexFieldRoundTrip(v: u32)
    ensures Atoi64(HexField(v)) % TWO32 == v
  {
    assert HexField(v)[2..] == Hex(v);
    HexRunOfHex(v);
  }

  // ---------------------------------------------------------------------
  // Writing lines
  // ---------------------------------------------------------------------

  /** One source model's part of a line: name, SEP, 0x checksum, SEP. */
  function ModelEntry(name: string, checksum: u32): string
  {
    EntryText(name, HexField(checksum))
  }

  /** An entry with its checksum field already formatted. */
  function EntryText(name: string, field: string): string
  {
    name + [SEPARATOR] + field + [SEPARATOR]
  }

  function Entries(models: seq<(string, u32)>): string
  {
    if models == [] then "" else ModelEntry(models[0].0, models[0].1) + Entries(models[1..])
  }

  /** The part after the model list: SEP, 0x key, SEP, path, newline. */
  function LineTail(crc: u32, path: string): string
  {
    [SEPARATOR] + HexField(crc) + [SEPARATOR] + path + "\n"
  }

  /** A cache line for the given models with their checksums. */
  function CacheLine(models: seq<(string, u32)>, crc: u32, path: string): string
  {
    Entries(models) + LineTail(crc, path)
  }

  /** WriteCacheLine for one model: no line when its checksum cannot be read. */
  function SingleCacheLine(modelName: string, crc: u32, path: string, checksums: Checksums): (r: Option<string>)
  {
    match checksums(modelName)
    case None => None
    case Some(c) =>
      Some(modelName + [SEPARATOR] + HexField(c) + [SEPARATOR] + [SEPARATOR] + HexField(crc) + [SEPARATOR] + path + "\n")
  }

  /** The two overloads write the same line for a single model. */
  lemma SingleLineIsGroupLine(modelName: string, crc: u32, path: string, checksums: Checksums)
    ensures SingleCacheLine(modelName, crc, path, checksums) ==
      if checksums(modelName).None? then None
      else Some(CacheLine([(modelName, checksums(modelName).value)], crc, path))
  {
    if checksums(modelName).Some? {
      var c := checksums(modelName).value;
      assert Entries([(modelName, c)]) == ModelEntry(modelName, c) + Entries([]);
      assert ModelEntry(modelName, c) + "" == ModelEntry(modelName, c);
      var a := modelName + [SEPARATOR] + HexField(c) + [SEPARATOR];
      var b := [SEPARATOR] + HexField(crc) + [SEPARATOR] + path + "\n";
      assert a + b == modelName + [SEPARATOR] + HexField(c) + [SEPARATOR] + [SEPARATOR] + HexField(crc) + [SEPARATOR] + path + "\n";
    }
  }

  /** The models of a group, each once, in first-appearance order; the set of
      seen names compares without letter case, as the CUtlHashDict does. */
  function Distinct(names: seq<string>, seen: set<string>): (r: seq<string>)
    ensures forall i :: 0 <= i < |r| ==> r[i] in names
    ensures forall i :: 0 <= i < |r| ==> ToLower(r[i]) !in seen
  {
    if names == [] then []
    else if ToLower(names[0]) in seen then Distinct(names[1..], seen)
    else [names[0]] + Distinct(names[1..], seen + {ToLower(names[0])})
  }

  predicate NoTwoAlike(names: seq<string>)
  {
    forall i, j :: 0 <= i < j < |names| ==> ToLower(names[i]) != ToLower(names[j])
  }

  /** No two entries share a name, even up to letter case. */
  lemma {:induction false} DistinctIsDistinct(names: seq<string>, seen: set<string>)
    ensures NoTwoAlike(Distinct(names, seen))
    decreases |names|
  {
    if names != [] {
      if ToLower(names[0]) in seen {
        assert Distinct(names, seen) == Distinct(names[1..], seen);
        DistinctIsDistinct(names[1..], seen);
      } else {
        var s2 := seen + {ToLower(names[0])};
        var r := Distinct(names, seen);
        var rest := Distinct(names[1..], s2);
        DistinctIsDistinct(names[1..], s2);
        assert r == [names[0]] + rest;
        forall i, j | 0 <= i < j < |r|
          ensures ToLower(r[i]) != ToLower(r[j])
        {
          assert r[j] == rest[j - 1];
          if i > 0 {
            assert r[i] == rest[i - 1];
          } else {
            assert r[0] == names[0] && ToLower(names[0]) in s2;
            assert ToLower(rest[j - 1]) !in s2;
          }
        }
      }
    }
  }

  /** Every name of the group is represented. */
  lemma {:induction false} DistinctCovers(names: seq<string>, seen: set<string>, k: nat)
    requires k < |names| && ToLower(names[k]) !in seen
    ensures exists i :: 0 <= i < |Distinct(names, seen)| && ToLower(Distinct(names, seen)[i]) == ToLower(names[k])
    decreases |names|
  {
    var r := Distinct(names, seen);
    if k == 0 {
      assert r[0] == names[0];
    } else if ToLower(names[0]) in seen {
      DistinctCovers(names[1..], seen, k - 1);
    } else if ToLower(names[k]) == ToLower(names[0]) {
      assert r[0] == names[0];
    } else {
      var s2 := seen + {ToLower(names[0])};
      DistinctCovers(names[1..], s2, k - 1);
      var i :| 0 <= i < |Distinct(names[1..], s2)| && ToLower(Distinct(names[1..], s2)[i]) == ToLower(names[k]);
      assert r[i + 1] == Distinct(names[1..], s2)[i];
    }
  }

  /** The checksum of every model, or None when one cannot be read. */
  function WithChecksums(names: seq<string>, checksums: Checksums): (r: Option<seq<(string, u32)>>)
    ensures r.Some? <==> forall i :: 0 <= i < |names| ==> checksums(names[i]).Some?
    ensures r.Some? ==> |r.value| == |names|
    ensures r.Some? ==> forall i :: 0 <= i < |names| ==> r.value[i] == (names[i], checksums(names[i]).value)
  {
    if names == [] then Some([])
    else match checksums(names[0])
      case None => None
      case Some(c) =>
        match WithChecksums(names[1..], checksums)
        case None => None
        case Some(rest) => Some([(names[0], c)] + rest)
  }

  /** WriteCacheLine for a merged group: each distinct model once, or no line
      at all when a checksum cannot be read. */
  function GroupCacheLineOf(names: seq<string>, crc: u32, path: string, checksums: Checksums): Option<string>
  {
    match WithChecksums(Distinct(names, {}), checksums)
    case None => None
    case Some(models) => Some(CacheLine(models, crc, path))
  }

  /** models followed by whatever the rest yields. */
  function Join(models: seq<(string, u32)>, rest: Option<seq<(string, u32)>>): Option<seq<(string, u32)>>
  {
    if rest.None? then None else Some(models + rest.value)
  }

  lemma JoinStep(models: seq<(string, u32)>, name: string, rest: seq<string>, checksums: Checksums)
    requires checksums(name).Some?
    ensures Join(models, WithChecksums([name] + rest, checksums)) ==
      Join(models + [(name, checksums(name).value)], WithChecksums(rest, checksums))
  {
    assert ([name] + rest)[1..] == rest;
    var w := WithChecksums(rest, checksums);
    if w.Some? {
      assert models + ([(name, checksums(name).value)] + w.value) == models + [(name, checksums(name).value)] + w.value;
    }
  }

  /** The loop of the group overload. */
  method GroupCacheLine(names: seq<string>, crc: u32, path: string, checksums: Checksums) returns (line: Option<string>)
    ensures line == GroupCacheLineOf(names, crc, path, checksums)
  {
    var text := "";
    var seen: set<string> := {};
    ghost var models: seq<(string, u32)> := [];
    assert names[0..] == names;
    var all := WithChecksums(Distinct(names, {}), checksums);
    if all.Some? {
      assert [] + all.value == all.value;
    }
    for i := 0 to |names|
      invariant WithChecksums(Distinct(names, {}), checksums) == Join(models, WithChecksums(Distinct(names[i..], seen), checksums))
      invariant text == Entries(models)
    {
      var name := names[i];
      assert names[i..] == [name] + names[i + 1..];
      assert names[i..][1..] == names[i + 1..];
      if ToLower(name) in seen {
        continue;
      }
      var c := checksums(name);
      if c.None? {
        return None;
      }
      JoinStep(models, name, Distinct(names[i + 1..], seen + {ToLower(name)}), checksums);
      EntriesAppend(models, (name, c.value));
      text := text + ModelEntry(name, c.value);
      models := models + [(name, c.value)];
      seen := seen + {ToLower(name)};
    }
    assert names[|names|..] == [];
    assert models + [] == models;
    line := Some(text + LineTail(crc, path));
  }

  lemma {:induction false} EntriesAppend(models: seq<(string, u32)>, m: (string, u32))
    ensures Entries(models + [m]) == Entries(models) + ModelEntry(m.0, m.1)
    decreases |models|
  {
    if models == [] {
      assert [m][1..] == [];
      assert [] + [m] == [m];
    } else {
      assert (models + [m])[1..] == models[1..] + [m];
      EntriesAppend(models[1..], m);
    }
  }

  // ---------------------------------------------------------------------
  // Reading lines
  // ---------------------------------------------------------------------

  /** The characters GetNextSeperatorPos stops at. */
  predicate IsStop(c: char)
  {
    c == SEPARATOR || c == NUL || c == '\n'
  }

  /** The line buffer: the line, then its terminating NUL. */
  function CharAt(line: string, i: nat): char
    requires i <= |line|
  {
    if i < |line| then line[i] else NUL
  }

  /** GetNextSeperatorPos: the first stop at or after i. */
  function NextSeparator(line: string, i: nat): (r: nat)
    requires i <= |line|
    ensures i <= r <= |line| && IsStop(CharAt(line, r))
    decreases |line| - i
  {
    if i == |line| || IsStop(line[i]) then i else NextSeparator(line, i + 1)
  }

  method GetNextSeperatorPos(line: string, lastPos: nat) returns (pos: nat)
    requires lastPos <= |line| < MAX_CACHE_LINE
    ensures pos == NextSeparator(line, lastPos)
  {
    var i := lastPos;
    while i < MAX_CACHE_LINE
      invariant lastPos <= i <= |line|
      invariant NextSeparator(line, i) == NextSeparator(line, lastPos)
      decreases |line| - i
    {
      if IsStop(CharAt(line, i)) {
        return i;
      }
      i := i + 1;
    }
    return MAX_CACHE_LINE;
  }

  /** The model list of a line read from position i: the position of the
      separator that ends it, or None when a model's checksum cannot be read
      or differs from the recorded one. A field that ends at the line's
      terminator leaves the next read past the line, which rejects it. */
  function ParseModels(line: string, i: nat, checksums: Checksums): (r: Option<nat>)
    requires i <= |line|
    ensures r.Some? ==> i <= r.value < |line| && line[r.value] == SEPARATOR
    decreases |line| - i
  {
    if CharAt(line, i) == SEPARATOR then Some(i)
    else
      var cur := NextSeparator(line, i);
      match checksums(line[i..cur])
      case None => None
      case Some(actual) =>
        if cur + 1 > |line| then None
        else
          var next := NextSeparator(line, cur + 1);
          if actual != Atoi64(line[cur + 1..next]) % TWO32 then None
          else if next + 1 > |line| then None
          else ParseModels(line, next + 1, checksums)
  }

  datatype LineResult = Rejected | Accepted(crc: u32, path: string, length: nat)

  /** The key and path after the model list that ends at separator q. */
  function ParseTail(line: string, q: nat, fileExists: string -> bool): (r: LineResult)
    requires q < |line|
    ensures r.Accepted? ==> q + 2 < r.length <= |line| + 1
  {
    var p := q + 1;
    var cur := NextSeparator(line, p);
    var crc := Atoi64(line[p..cur]) % TWO32;
    if cur + 1 > |line| then Rejected
    else
      var next := NextSeparator(line, cur + 1);
      var path := line[cur + 1..next];
      if !fileExists(path) then Rejected
      else Accepted(crc, path, next + 1)
  }

  /** ParseCacheLine on a line: the key and path it records and the length it
      returns, or Rejected for a return value of 0. */
  function ParseLine(line: string, checksums: Checksums, fileExists: string -> bool): (r: LineResult)
    ensures r.Accepted? ==> 0 < r.length <= |line| + 1
  {
    match ParseModels(line, 0, checksums)
    case None => Rejected
    case Some(q) => ParseTail(line, q, fileExists)
  }

  /** The loop over the model list. */
  method ParseModelList(line: string, checksums: Checksums) returns (end: Option<nat>)
    requires |line| < MAX_CACHE_LINE
    ensures end == ParseModels(line, 0, checksums)
  {
    var lastPos := 0;
    while CharAt(line, lastPos) != SEPARATOR
      invariant lastPos <= |line|
      invariant ParseModels(line, lastPos, checksums) == ParseModels(line, 0, checksums)
      decreases |line| - lastPos
    {
      ghost var start := lastPos;
      var curPos := GetNextSeperatorPos(line, lastPos);
      var actual := checksums(line[lastPos..curPos]);
      if actual.None? || curPos + 1 > |line| {
        ModelsRejected(line, start, checksums);
        return None;
      }
      lastPos := curPos + 1;
      curPos := GetNextSeperatorPos(line, lastPos);
      var recorded := Atoi64(line[lastPos..curPos]) % TWO32;
      if actual.value != recorded || curPos + 1 > |line| {
        ModelsRejected(line, start, checksums);
        return None;
      }
      lastPos := curPos + 1;
      ModelsAdvance(line, start, checksums);
    }
    return Some(lastPos);
  }

  /** An entry that names no model on disk, that records a different
      checksum, or that runs into the end of the line rejects the list. */
  lemma ModelsRejected(line: string, i: nat, checksums: Checksums)
    requires i <= |line| && CharAt(line, i) != SEPARATOR
    requires var cur := NextSeparator(line, i);
      checksums(line[i..cur]).None? || cur + 1 > |line| ||
      var next := NextSeparator(line, cur + 1);
      checksums(line[i..cur]).value != Atoi64(line[cur + 1..next]) % TWO32 || next + 1 > |line|
    ensures ParseModels(line, i, checksums) == None
  {
  }

  /** A matching entry hands the rest of the list to the next entry. */
  lemma ModelsAdvance(line: string, i: nat, checksums: Checksums)
    requires i <= |line| && CharAt(line, i) != SEPARATOR
    requires var cur := NextSeparator(line, i);
      checksums(line[i..cur]).Some? && cur + 1 <= |line| &&
      var next := NextSeparator(line, cur + 1);
      checksums(line[i..cur]).value == Atoi64(line[cur + 1..next]) % TWO32 && next + 1 <= |line|
    ensures ParseModels(line, i, checksums) ==
      ParseModels(line, NextSeparator(line, NextSeparator(line, i) + 1) + 1, checksums)
  {
  }

  /** ParseCacheLine: the length to keep (0 to drop the line) and the
      combined-prop map after the insert an accepted line makes. */
  method ParseCacheLine(line: string, combined: map<u32, string>, checksums: Checksums, fileExists: string -> bool)
    returns (length: nat, newCombined: map<u32, string>)
    requires |line| < MAX_CACHE_LINE
    ensures ParseLine(line, checksums, fileExists).Rejected? ==> length == 0 && newCombined == combined
    ensures ParseLine(line, checksums, fileExists).Accepted? ==>
      var r := ParseLine(line, checksums, fileExists);
      length == r.length && newCombined == combined[r.crc := r.path]
  {
    var end := ParseModelList(line, checksums);
    if end.None? {
      return 0, combined;
    }
    var lastPos := end.value + 1;
    var curPos := GetNextSeperatorPos(line, lastPos);
    var groupedCrc := Atoi64(line[lastPos..curPos]) % TWO32;
    if curPos + 1 > |line| {
      return 0, combined;
    }
    lastPos := curPos + 1;
    curPos := GetNextSeperatorPos(line, lastPos);
    var path := line[lastPos..curPos];
    if !fileExists(path) {
      return 0, combined;
    }
    return curPos + 1, combined[groupedCrc := path];
  }

  /** The InitCache filter: the lines ParseCacheLine keeps, in order, each
      cut to the length it returned (the terminator is not copied back). */
  function KeptLines(lines: seq<string>, checksums: Checksums, fileExists: string -> bool): seq<string>
  {
    if lines == [] then []
    else
      var init := KeptLines(lines[..|lines| - 1], checksums, fileExists);
      var line := lines[|lines| - 1];
      match ParseLine(line, checksums, fileExists)
      case Rejected => init
      case Accepted(_, _, n) => init + [line[..if n <= |line| then n else |line|]]
  }

  /** The combined-prop map after InitCache: every accepted line's key and
      path, a later line's replacing an earlier one's. */
  function CombinedFrom(lines: seq<string>, combined: map<u32, string>, checksums: Checksums, fileExists: string -> bool): map<u32, string>
  {
    if lines == [] then combined
    else
      var before := CombinedFrom(lines[..|lines| - 1], combined, checksums, fileExists);
      match ParseLine(lines[|lines| - 1], checksums, fileExists)
      case Rejected => before
      case Accepted(crc, path, _) => before[crc := path]
  }

  method InitCache(lines: seq<string>, combined: map<u32, string>, checksums: Checksums, fileExists: string -> bool)
    returns (kept: seq<string>, newCombined: map<u32, string>)
    requires forall i :: 0 <= i < |lines| ==> |lines[i]| < MAX_CACHE_LINE
    ensures kept == KeptLines(lines, checksums, fileExists)
    ensures newCombined == CombinedFrom(lines, combined, checksums, fileExists)
  {
    kept, newCombined := [], combined;
    for i := 0 to |lines|
      invariant kept == KeptLines(lines[..i], checksums, fileExists)
      invariant newCombined == CombinedFrom(lines[..i], combined, checksums, fileExists)
    {
      assert lines[..i + 1][..i] == lines[..i];
      var line := lines[i];
      var lineLength;
      lineLength, newCombined := ParseCacheLine(line, newCombined, checksums, fileExists);
      if lineLength != 0 {
        kept := kept + [line[..if lineLength <= |line| then lineLength else |line|]];
      }
    }
    assert lines[..|lines|] == lines;
  }

  // ---------------------------------------------------------------------
  // The round trip
  // ---------------------------------------------------------------------

  /** A name or path the record format can carry: no separator, newline or
      NUL inside. */
  predicate Clean(s: string)
  {
    forall i :: 0 <= i < |s| ==> !IsStop(s[i])
  }

  predicate CleanModels(models: seq<(string, u32)>)
  {
    forall i :: 0 <= i < |models| ==> |models[i].0| > 0 && Clean(models[i].0)
  }

  /** Every recorded checksum equals the current one. */
  predicate ChecksumsMatch(models: seq<(string, u32)>, checksums: Checksums)
  {
    forall i :: 0 <= i < |models| ==> checksums(models[i].0) == Some(models[i].1)
  }

  lemma SliceSplit(line: string, i: nat, a: string, b: string)
    requires i + |a| + |b| <= |line| && line[i..i + |a| + |b|] == a + b
    ensures line[i..i + |a|] == a && line[i + |a|..i + |a| + |b|] == b
  {
    assert line[i..i + |a|] == line[i..i + |a| + |b|][..|a|];
    assert line[i + |a|..i + |a| + |b|] == line[i..i + |a| + |b|][|a|..];
  }

  lemma {:induction false} NextSeparatorAt(line: string, i: nat, k: nat)
    requires i <= k < |line| && IsStop(line[k])
    requires forall j :: i <= j < k ==> !IsStop(line[j])
    ensures NextSeparator(line, i) == k
    decreases k - i
  {
    if i < k {
      NextSeparatorAt(line, i + 1, k);
    }
  }

  lemma FieldAt(line: string, i: nat, field: string)
    requires i + |field| < |line| && line[i..i + |field|] == field && Clean(field)
    requires IsStop(line[i + |field|])
    ensures NextSeparator(line, i) == i + |field|
  {
    forall j | i <= j < i + |field|
      ensures !IsStop(line[j])
    {
      assert line[j] == field[j - i];
    }
    NextSeparatorAt(line, i, i + |field|);
  }

  lemma HexFieldClean(v: u32)
    ensures Clean(HexField(v)) && |HexField(v)| >= 3
  {
    HexDigits(v);
    assert HexField(v)[2..] == Hex(v);
  }

  /** One model entry e, name then checksum field h, read at position i. */
  lemma ModelEntryAt(line: string, i: nat, e: string, name: string, h: string)
    requires |name| > 0 && Clean(name) && Clean(h)
    requires e == name + [SEPARATOR] + h + [SEPARATOR]
    requires i + |e| <= |line| && line[i..i + |e|] == e
    ensures CharAt(line, i) != SEPARATOR
    ensures NextSeparator(line, i) == i + |name| && line[i..i + |name|] == name
    ensures NextSeparator(line, i + |name| + 1) == i + |e| - 1
    ensures line[i + |name| + 1..i + |e| - 1] == h
  {
    EntryLayout(line, i, name, h);
    FieldAt(line, i, name);
    FieldAt(line, i + |name| + 1, h);
  }

  /** Where the parts of an entry lie in the line. */
  lemma EntryLayout(line: string, i: nat, name: string, h: string)
    requires |name| > 0 && i + |name| + |h| + 2 <= |line|
    requires line[i..i + |name| + |h| + 2] == name + [SEPARATOR] + h + [SEPARATOR]
    ensures line[i] == name[0]
    ensures line[i..i + |name|] == name && line[i + |name|] == SEPARATOR
    ensures line[i + |name| + 1..i + |name| + 1 + |h|] == h && line[i + |name| + 1 + |h|] == SEPARATOR
  {
    var a := name + [SEPARATOR] + h;
    SliceSplit(line, i, a, [SEPARATOR]);
    SliceSplit(line, i, name + [SEPARATOR], h);
    SliceSplit(line, i, name, [SEPARATOR]);
    assert line[i] == line[i..i + |name|][0];
    assert line[i + |name|] == line[i + |name|..i + |name| + 1][0];
    assert line[i + |a|] == line[i + |a|..i + |a| + 1][0];
  }

  /** A written model entry with its checksum field kept as text: the name,
      the field's text and the value that text stands for. */
  type Written = (string, string, u32)

  function Texts(ws: seq<Written>): string
  {
    if ws == [] then "" else EntryText(ws[0].0, ws[0].1) + Texts(ws[1..])
  }

  /** The entries WriteCacheLine writes for models. */
  function WrittenOf(models: seq<(string, u32)>): (ws: seq<Written>)
    ensures |ws| == |models|
    ensures forall k :: 0 <= k < |ws| ==> ws[k] == (models[k].0, HexField(models[k].1), models[k].1)
  {
    if models == [] then [] else [(models[0].0, HexField(models[0].1), models[0].1)] + WrittenOf(models[1..])
  }

  predicate WellWritten(ws: seq<Written>)
  {
    forall k :: 0 <= k < |ws| ==>
      |ws[k].0| > 0 && Clean(ws[k].0) && Clean(ws[k].1) && Atoi64(ws[k].1) % TWO32 == ws[k].2
  }

  predicate WrittenMatch(ws: seq<Written>, checksums: Checksums)
  {
    forall k :: 0 <= k < |ws| ==> checksums(ws[k].0) == Some(ws[k].2)
  }

  lemma {:induction false} EntriesAsTexts(models: seq<(string, u32)>)
    ensures Entries(models) == Texts(WrittenOf(models))
    decreases |models|
  {
    if models != [] {
      EntriesAsTexts(models[1..]);
      assert WrittenOf(models)[1..] == WrittenOf(models[1..]);
    }
  }

  lemma WrittenOfFacts(models: seq<(string, u32)>, checksums: Checksums)
    requires CleanModels(models)
    ensures WellWritten(WrittenOf(models))
    ensures WrittenMatch(WrittenOf(models), checksums) == ChecksumsMatch(models, checksums)
  {
    var ws := WrittenOf(models);
    forall k | 0 <= k < |ws|
      ensures |ws[k].0| > 0 && Clean(ws[k].0) && Clean(ws[k].1) && Atoi64(ws[k].1) % TWO32 == ws[k].2
    {
      HexFieldClean(models[k].1);
      HexFieldRoundTrip(models[k].1);
    }
    if ChecksumsMatch(models, checksums) {
      forall k | 0 <= k < |ws| ensures checksums(ws[k].0) == Some(ws[k].2) {
        assert ws[k].0 == models[k].0;
      }
    }
    if WrittenMatch(ws, checksums) {
      forall k | 0 <= k < |models| ensures checksums(models[k].0) == Some(models[k].1) {
        assert ws[k].0 == models[k].0;
      }
    }
  }

  /** line holds the texts of ws one after another from position i. */
  predicate TextsAt(line: string, i: nat, ws: seq<Written>)
    decreases |ws|
  {
    ws == [] ||
    var e := EntryText(ws[0].0, ws[0].1);
    i + |e| <= |line| && line[i..i + |e|] == e && TextsAt(line, i + |e|, ws[1..])
  }

  lemma {:induction false} TextsAtOf(line: string, i: nat, ws: seq<Written>)
    requires i + |Texts(ws)| <= |line|
    requires line[i..i + |Texts(ws)|] == Texts(ws)
    ensures TextsAt(line, i, ws)
    decreases |ws|
  {
    if ws != [] {
      var e := EntryText(ws[0].0, ws[0].1);
      assert Texts(ws) == e + Texts(ws[1..]);
      SliceSplit(line, i, e, Texts(ws[1..]));
      TextsAtOf(line, i + |e|, ws[1..]);
    }
  }

  /** The model list of a written line parses back to the position of the
      closing separator exactly when every model's checksum still matches. */
  lemma {:induction false} ParseModelsOf(line: string, i: nat, ws: seq<Written>, checksums: Checksums)
    requires WellWritten(ws) && TextsAt(line, i, ws)
    requires i + |Texts(ws)| < |line| && line[i + |Texts(ws)|] == SEPARATOR
    ensures ParseModels(line, i, checksums) ==
      if WrittenMatch(ws, checksums) then Some(i + |Texts(ws)|) else None
    decreases |ws|
  {
    if ws == [] {
      assert ParseModels(line, i, checksums) == Some(i);
    } else {
      var rest := ws[1..];
      var n := EntryStep(line, i, ws, checksums);
      if checksums(ws[0].0) == Some(ws[0].2) {
        WrittenTail(ws, checksums);
        assert i + n + |Texts(rest)| == i + |Texts(ws)|;
        ParseModelsOf(line, i + n, rest, checksums);
      } else {
        assert !WrittenMatch(ws, checksums) by {
          assert checksums(ws[0].0) != Some(ws[0].2);
        }
      }
    }
  }

  /** Reading the first entry of a written model list: n is its length. */
  lemma EntryStep(line: string, i: nat, ws: seq<Written>, checksums: Checksums) returns (n: nat)
    requires ws != [] && WellWritten(ws[..1])
    requires TextsAt(line, i, ws) && i + |Texts(ws)| < |line|
    ensures n + |Texts(ws[1..])| == |Texts(ws)|
    ensures TextsAt(line, i + n, ws[1..])
    ensures ParseModels(line, i, checksums) ==
      if checksums(ws[0].0) == Some(ws[0].2) then ParseModels(line, i + n, checksums) else None
  {
    n := FirstEntryAt(line, i, ws);
    FirstWellWritten(ws);
    EntryParsed(line, i, ws[0].0, ws[0].1, ws[0].2, checksums, n);
  }

  lemma FirstWellWritten(ws: seq<Written>)
    requires ws != [] && WellWritten(ws[..1])
    ensures |ws[0].0| > 0 && Clean(ws[0].0) && Clean(ws[0].1) && Atoi64(ws[0].1) % TWO32 == ws[0].2
  {
    assert ws[..1][0] == ws[0];
  }

  /** Where the first written entry sits in the line. */
  lemma FirstEntryAt(line: string, i: nat, ws: seq<Written>) returns (n: nat)
    requires ws != [] && TextsAt(line, i, ws)
    ensures n == |EntryText(ws[0].0, ws[0].1)| && n + |Texts(ws[1..])| == |Texts(ws)|
    ensures i + n <= |line| && line[i..i + n] == EntryText(ws[0].0, ws[0].1)
    ensures TextsAt(line, i + n, ws[1..])
  {
    n := |EntryText(ws[0].0, ws[0].1)|;
    assert Texts(ws) == EntryText(ws[0].0, ws[0].1) + Texts(ws[1..]);
  }

  /** One written entry read back at position i. */
  lemma EntryParsed(line: string, i: nat, name: string, h: string, c: u32, checksums: Checksums, n: nat)
    requires |name| > 0 && Clean(name) && Clean(h) && Atoi64(h) % TWO32 == c
    requires n == |EntryText(name, h)| && i + n < |line| && line[i..i + n] == EntryText(name, h)
    ensures ParseModels(line, i, checksums) ==
      if checksums(name) == Some(c) then ParseModels(line, i + n, checksums) else None
  {
    var e := EntryText(name, h);
    ModelEntryAt(line, i, e, name, h);
    EntryParse(line, i, i + |name|, i + |e| - 1, i + |e|, checksums, name, c);
  }

  lemma EntryParse(line: string, i: nat, cur: nat, next: nat, after: nat, checksums: Checksums, name: string, c: u32)
    requires i <= cur < next < |line| && after == next + 1 && CharAt(line, i) != SEPARATOR
    requires NextSeparator(line, i) == cur && NextSeparator(line, cur + 1) == next
    requires line[i..cur] == name && Atoi64(line[cur + 1..next]) % TWO32 == c
    ensures ParseModels(line, i, checksums) ==
      if checksums(name) == Some(c) then ParseModels(line, after, checksums) else None
  {
    ParseModelsStep(line, i, cur, next, checksums);
  }

  /** ParseModels over one entry whose fields end at cur and next. */
  lemma ParseModelsStep(line: string, i: nat, cur: nat, next: nat, checksums: Checksums)
    requires i <= cur < next < |line| && CharAt(line, i) != SEPARATOR
    requires NextSeparator(line, i) == cur && NextSeparator(line, cur + 1) == next
    ensures ParseModels(line, i, checksums) ==
      match checksums(line[i..cur])
      case None => None
      case Some(actual) =>
        if actual != Atoi64(line[cur + 1..next]) % TWO32 then None else ParseModels(line, next + 1, checksums)
  {
  }

  /** The rest of a well-written list is well written, and matches exactly
      when the whole list does, given that its first entry matches. */
  lemma WrittenTail(ws: seq<Written>, checksums: Checksums)
    requires ws != [] && WellWritten(ws) && checksums(ws[0].0) == Some(ws[0].2)
    ensures WellWritten(ws[1..])
    ensures WrittenMatch(ws, checksums) == WrittenMatch(ws[1..], checksums)
  {
    var rest := ws[1..];
    forall k | 0 <= k < |rest|
      ensures |rest[k].0| > 0 && Clean(rest[k].0) && Clean(rest[k].1) && Atoi64(rest[k].1) % TWO32 == rest[k].2
    {
      assert rest[k] == ws[k + 1];
    }
    if WrittenMatch(rest, checksums) {
      forall k | 0 <= k < |ws| ensures checksums(ws[k].0) == Some(ws[k].2) {
        if k > 0 { assert ws[k] == rest[k - 1]; }
      }
    }
    if WrittenMatch(ws, checksums) {
      forall k | 0 <= k < |rest| ensures checksums(rest[k].0) == Some(rest[k].2) {
        assert rest[k] == ws[k + 1];
      }
    }
  }

  /** A line WriteCacheLine writes is accepted by ParseCacheLine exactly when
      every recorded checksum equals the current one and the built model
      exists; it then yields the key and path written and the whole line's
      length, newline included. */
  lemma CacheLineRoundTrip(models: seq<(string, u32)>, crc: u32, path: string, checksums: Checksums, fileExists: string -> bool)
    requires CleanModels(models) && Clean(path)
    ensures ParseLine(CacheLine(models, crc, path), checksums, fileExists) ==
      if ChecksumsMatch(models, checksums) && fileExists(path)
      then Accepted(crc, path, |CacheLine(models, crc, path)|)
      else Rejected
  {
    var line := CacheLine(models, crc, path);
    var ws := WrittenOf(models);
    var en := Entries(models);
    var t := LineTail(crc, path);
    EntriesAsTexts(models);
    WrittenOfFacts(models, checksums);
    assert line == en + t;
    assert line[0..|en|] == en;
    assert line[|en|..|line|] == t;
    assert line[|en|] == t[0] == SEPARATOR;
    TextsAtOf(line, 0, ws);
    LineParsed(line, |en|, ws, crc, path, checksums, fileExists);
  }

  /** The line written for one rescaled model reads back, in a later run, as
      that model's key and path exactly when its checksum is unchanged and
      the compiled model exists. */
  lemma SingleLineRoundTrip(modelName: string, crc: u32, path: string, checksums: Checksums,
                            later: Checksums, fileExists: string -> bool)
    requires checksums(modelName).Some? && |modelName| > 0 && Clean(modelName) && Clean(path)
    ensures SingleCacheLine(modelName, crc, path, checksums).Some?
    ensures var line := SingleCacheLine(modelName, crc, path, checksums).value;
      ParseLine(line, later, fileExists) ==
        if later(modelName) == checksums(modelName) && fileExists(path) then Accepted(crc, path, |line|) else Rejected
  {
    var models := [(modelName, checksums(modelName).value)];
    SingleLineIsGroupLine(modelName, crc, path, checksums);
    CacheLineRoundTrip(models, crc, path, later, fileExists);
    assert ChecksumsMatch(models, later) <==> later(modelName) == checksums(modelName);
  }

  /** A line laid out as the writer lays it out, read back. */
  lemma LineParsed(line: string, q: nat, ws: seq<Written>, crc: u32, path: string,
                   checksums: Checksums, fileExists: string -> bool)
    requires WellWritten(ws) && Clean(path)
    requires TextsAt(line, 0, ws) && q == |Texts(ws)|
    requires q + |LineTail(crc, path)| == |line| && line[q..|line|] == LineTail(crc, path)
    requires line[q] == SEPARATOR
    ensures ParseLine(line, checksums, fileExists) ==
      if WrittenMatch(ws, checksums) && fileExists(path) then Accepted(crc, path, |line|) else Rejected
  {
    ParseModelsOf(line, 0, ws, checksums);
    ParseTailOf(line, q, crc, path, fileExists);
  }

  /** The key and path of a written line's tail read back. */
  lemma ParseTailOf(line: string, q: nat, crc: u32, path: string, fileExists: string -> bool)
    requires Clean(path) && q + |LineTail(crc, path)| == |line|
    requires line[q..|line|] == LineTail(crc, path)
    ensures ParseTail(line, q, fileExists) == if fileExists(path) then Accepted(crc, path, |line|) else Rejected
  {
    HexFieldClean(crc);
    HexFieldRoundTrip(crc);
    TailAt(line, q, HexField(crc), path, fileExists);
  }

  /** The same, with the key field abstracted to its text h. */
  lemma TailAt(line: string, q: nat, h: string, path: string, fileExists: string -> bool)
    requires Clean(h) && Clean(path) && q + |h| + |path| + 3 == |line|
    requires line[q..|line|] == [SEPARATOR] + h + [SEPARATOR] + path + "\n"
    ensures ParseTail(line, q, fileExists) ==
      if fileExists(path) then Accepted(Atoi64(h) % TWO32, path, |line|) else Rejected
  {
    var cur := q + 1 + |h|;
    var next := cur + 1 + |path|;
    TailFields(line, q, h, path);
    FieldAt(line, q + 1, h);
    FieldAt(line, cur + 1, path);
    TailParse(line, q, cur, next, fileExists);
  }

  /** Where the key, the path and the stops of a line's tail sit. */
  lemma TailFields(line: string, q: nat, h: string, path: string)
    requires q + |h| + |path| + 3 == |line|
    requires line[q..|line|] == [SEPARATOR] + h + [SEPARATOR] + path + "\n"
    ensures var cur := q + 1 + |h|; var next := cur + 1 + |path|;
      line[q + 1..cur] == h && line[cur] == SEPARATOR && line[cur + 1..next] == path &&
      line[next] == '\n' && next + 1 == |line|
  {
    var t := [SEPARATOR] + h + [SEPARATOR] + path + "\n";
    var cur := q + 1 + |h|;
    var next := cur + 1 + |path|;
    assert t[1..1 + |h|] == h;
    assert t[2 + |h|..2 + |h| + |path|] == path;
    SubSlice(line, q, t, 1, 1 + |h|);
    SubSlice(line, q, t, 2 + |h|, 2 + |h| + |path|);
    assert line[cur] == t[1 + |h|];
    assert line[next] == t[2 + |h| + |path|];
  }

  lemma SubSlice(line: string, q: nat, t: string, i: nat, j: nat)
    requires q + |t| == |line| && line[q..|line|] == t && i <= j <= |t|
    ensures line[q + i..q + j] == t[i..j]
  {
    forall k | 0 <= k < j - i
      ensures line[q + i..q + j][k] == t[i..j][k]
    {
      assert t[i + k] == line[q..|line|][i + k];
    }
  }

  lemma TailParse(line: string, q: nat, cur: nat, next: nat, fileExists: string -> bool)
    requires q < cur < next < |line|
    requires NextSeparator(line, q + 1) == cur && NextSeparator(line, cur + 1) == next
    ensures ParseTail(line, q, fileExists) ==
      if fileExists(line[cur + 1..next]) then Accepted(Atoi64(line[q + 1..cur]) % TWO32, line[cur + 1..next], next + 1) else Rejected
  {
  }
}
