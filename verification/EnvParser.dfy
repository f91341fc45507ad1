/**
 The extra scan-pod variables from `--build-scanner-extra-env` flags and the comma-separated
 BUILD_SCANNER_EXTRA_ENV_VARS: trimming, cutting at the first '=', and later entries winning.
 */
module EnvParser {
  import opened Options
  import opened Strings

  /** `unicode.IsSpace`. */
  predicate IsSpace(c: char) {
    || '\t' <= c <= '\r' || c == ' ' || c == '\U{85}' || c == '\U{A0}' || c == '\U{1680}'
    || '\U{2000}' <= c <= '\U{200A}' || '\U{2028}' <= c <= '\U{2029}'
    || c == '\U{202F}' || c == '\U{205F}' || c == '\U{3000}'
  }

  function TrimLeft(s: string): string {
    if s != [] && IsSpace(s[0]) then TrimLeft(s[1..]) else s
  }

  function TrimRight(s: string): string {
    if s != [] && IsSpace(s[|s| - 1]) then TrimRight(s[..|s| - 1]) else s
  }

  function TrimSpace(s: string): string {
    TrimRight(TrimLeft(s))
  }

  predicate NameStart(c: char) {
    'A' <= c <= 'Z' || 'a' <= c <= 'z' || c == '_'
  }

  /** `^[A-Za-z_][A-Za-z0-9_]*$` */
  predicate LegalName(k: string) {
    k != [] && NameStart(k[0]) && forall i | 0 < i < |k| :: NameStart(k[i]) || '0' <= k[i] <= '9'
  }

  /** `parseKV` up to storing; None is its error. */
  function ParseEntry(s: string): Option<(string, string)> {
    var t := TrimSpace(s);
    var i := Index(t, '=');
    if i == |t| then None
    else
      var k := TrimSpace(t[..i]);
      if !LegalName(k) then None else Some((k, t[i + 1..]))
  }

  /** Storing entries one by one; None when one of them stops the program. */
  function Load(vars: StringMap, entries: seq<string>): Option<StringMap>
    decreases |entries|
  {
    if entries == [] then Some(vars)
    else
      match ParseEntry(entries[0])
      case None => None
      case Some((k, v)) => Load(vars[k := v], entries[1..])
  }

  /** The entries of the environment variable: blank ones between commas are dropped. */
  function VariableEntries(s: string): seq<string> {
    if s == "" then [] else NonBlank(Split(s, ','))
  }

  function NonBlank(parts: seq<string>): seq<string> {
    if parts == [] then []
    else
      var kv := TrimSpace(parts[0]);
      (if kv == "" then [] else [kv]) + NonBlank(parts[1..])
  }

  /** The flags are parsed before the variable is read. */
  function Parse(flags: seq<string>, variable: string): Option<StringMap> {
    Load(map[], flags + VariableEntries(variable))
  }

  /** The map the closure of `main` fills. */
  class ExtraEnv {
    var vars: StringMap

    constructor ()
      ensures vars == map[]
    {
      vars := map[];
    }

    method ParseKV(s: string) returns (ok: bool)
      modifies this
      ensures ok <==> ParseEntry(s).Some?
      ensures vars == if ok then old(vars)[ParseEntry(s).value.0 := ParseEntry(s).value.1] else old(vars)
    {
      var t := TrimSpace(s);
      var i := Index(t, '=');
      if i == |t| {
        return false;
      }
      var k, v := TrimSpace(t[..i]), t[i + 1..];
      if k == "" || !LegalName(k) {
        return false;
      }
      vars := vars[k := v];
      ok := true;
    }

    /** Flag values in order, then the entries of the variable; false when the program would exit. */
    method ReadAll(flags: seq<string>, variable: string) returns (ok: bool)
      requires vars == map[]
      modifies this
      ensures ok <==> Parse(flags, variable).Some?
      ensures ok ==> vars == Parse(flags, variable).value
    {
      LoadAppend(vars, flags, VariableEntries(variable));
      ok := Store(flags);
      if ok {
        var entries: seq<string> := [];
        if variable != "" {
          entries := DropBlank(Split(variable, ','));
        }
        ok := Store(entries);
      }
    }

    method DropBlank(parts: seq<string>) returns (entries: seq<string>)
      ensures entries == NonBlank(parts)
    {
      entries := [];
      assert parts[0..] == parts;
      for i := 0 to |parts|
        invariant entries + NonBlank(parts[i..]) == NonBlank(parts)
      {
        NonBlankStep(entries, parts, i);
        var kv := TrimSpace(parts[i]);
        if kv != "" {
          entries := entries + [kv];
        }
      }
    }

    method Store(entries: seq<string>) returns (ok: bool)
      modifies this
      ensures ok <==> Load(old(vars), entries).Some?
      ensures ok ==> vars == Load(old(vars), entries).value
    {
      assert entries[0..] == entries;
      for i := 0 to |entries|
        invariant Load(vars, entries[i..]) == Load(old(vars), entries)
      {
        assert entries[i..][1..] == entries[i + 1..];
        ok := ParseKV(entries[i]);
        if !ok {
          return;
        }
      }
      ok := true;
    }
  }

  lemma NonBlankStep(entries: seq<string>, parts: seq<string>, i: nat)
    requires i < |parts|
    ensures var kv := TrimSpace(parts[i]);
            entries + NonBlank(parts[i..]) == (if kv == "" then entries else entries + [kv]) + NonBlank(parts[i + 1..])
  {
    assert parts[i..][1..] == parts[i + 1..];
  }

  lemma {:induction false} LoadAppend(vars: StringMap, first: seq<string>, second: seq<string>)
    ensures Load(vars, first + second) ==
            if Load(vars, first).None? then None else Load(Load(vars, first).value, second)
    decreases |first|
  {
    if first == [] {
      assert first + second == second;
    } else {
      assert (first + second)[1..] == first[1..] + second;
      var e := ParseEntry(first[0]);
      if e.Some? {
        LoadAppend(vars[e.value.0 := e.value.1], first[1..], second);
      }
    }
  }

  // ---- What an entry is ---------------------------------------------------------------------

  lemma SpaceMeaning(c: char)
    ensures IsSpace(c) <==>
            || c as int in {9, 10, 11, 12, 13, 32, 0x85, 0xA0, 0x1680, 0x2028, 0x2029, 0x202F, 0x205F, 0x3000}
            || 0x2000 <= c as int <= 0x200A
  {
  }

  predicate Spaces(s: string) {
    forall i | 0 <= i < |s| :: IsSpace(s[i])
  }

  predicate Tight(s: string) {
    s != [] ==> !IsSpace(s[0]) && !IsSpace(s[|s| - 1])
  }

  lemma {:induction false} TrimLeftOf(a: string, s: string)
    requires Spaces(a) && (s != [] ==> !IsSpace(s[0]))
    ensures TrimLeft(a + s) == s
  {
    if a == [] {
      assert a + s == s;
    } else {
      assert (a + s)[1..] == a[1..] + s;
      TrimLeftOf(a[1..], s);
    }
  }

  lemma {:induction false} TrimRightOf(s: string, b: string)
    requires Spaces(b) && (s != [] ==> !IsSpace(s[|s| - 1]))
    ensures TrimRight(s + b) == s
  {
    if b == [] {
      assert s + b == s;
    } else {
      var k := |b| - 1;
      assert (s + b)[..|s + b| - 1] == s + b[..k];
      TrimRightOf(s, b[..k]);
    }
  }

  /** Trimming takes the white space off both ends and no more. */
  lemma TrimOf(a: string, s: string, b: string)
    requires Spaces(a) && Spaces(b) && Tight(s)
    ensures TrimSpace(a + s + b) == s
  {
    if s == [] {
      assert a + s + b == (a + b) + [];
      TrimLeftOf(a + b, []);
    } else {
      assert a + s + b == a + (s + b);
      TrimLeftOf(a, s + b);
    }
    TrimRightOf(s, b);
    TrimRightOf([], []);
  }

  lemma {:induction false} TrimLeftParts(s: string) returns (a: string)
    ensures Spaces(a) && s == a + TrimLeft(s) && (TrimLeft(s) != [] ==> !IsSpace(TrimLeft(s)[0]))
  {
    if s != [] && IsSpace(s[0]) {
      var rest := TrimLeftParts(s[1..]);
      a := [s[0]] + rest;
    } else {
      a := [];
    }
  }

  lemma {:induction false} TrimRightParts(s: string) returns (b: string)
    ensures Spaces(b) && s == TrimRight(s) + b
    ensures TrimRight(s) != [] ==> !IsSpace(TrimRight(s)[|TrimRight(s)| - 1])
  {
    if s != [] && IsSpace(s[|s| - 1]) {
      var k := |s| - 1;
      var rest := TrimRightParts(s[..k]);
      b := rest + [s[k]];
      assert s == s[..k] + [s[k]];
    } else {
      b := [];
    }
  }

  lemma TrimParts(s: string) returns (a: string, b: string)
    ensures Spaces(a) && Spaces(b) && Tight(TrimSpace(s)) && s == a + TrimSpace(s) + b
  {
    a := TrimLeftParts(s);
    b := TrimRightParts(TrimLeft(s));
    assert TrimSpace(s) != [] ==> TrimSpace(s)[0] == TrimLeft(s)[0];
  }

  lemma LegalNameMeaning(k: string)
    ensures LegalName(k) <==>
            && k != [] && !('0' <= k[0] <= '9')
            && forall i | 0 <= i < |k| ::
                 'A' <= k[i] <= 'Z' || 'a' <= k[i] <= 'z' || k[i] == '_' || '0' <= k[i] <= '9'
  {
  }

  /** White space may stand around the name and behind the value, but a value keeps what it starts with. */
  ghost predicate Writes(s: string, k: string, v: string) {
    exists a, b, c | Spaces(a) && Spaces(b) && Spaces(c) :: s == a + k + b + "=" + v + c
  }

  /** An entry gives a name and a value exactly when it writes them; it fails when it writes none. */
  lemma EntryMeaning(s: string, k: string, v: string)
    ensures ParseEntry(s) == Some((k, v)) <==>
            LegalName(k) && (v != [] ==> !IsSpace(v[|v| - 1])) && Writes(s, k, v)
  {
    if LegalName(k) && (v != [] ==> !IsSpace(v[|v| - 1])) && Writes(s, k, v) {
      var a, b, c :| Spaces(a) && Spaces(b) && Spaces(c) && s == a + k + b + "=" + v + c;
      WrittenIsParsed(a, k, b, v, c);
    }
    if ParseEntry(s) == Some((k, v)) {
      ParsedIsWritten(s);
    }
  }

  lemma WrittenIsParsed(a: string, k: string, b: string, v: string, c: string)
    requires Spaces(a) && Spaces(b) && Spaces(c) && LegalName(k) && (v != [] ==> !IsSpace(v[|v| - 1]))
    ensures ParseEntry(a + k + b + "=" + v + c) == Some((k, v))
  {
    var t := k + b + "=" + v;
    CutOf(k, b, v);
    Regroup(a, k, b, v, c);
    TrimOf(a, t, c);
    TrimName(k, b);
  }

  lemma TrimName(k: string, b: string)
    requires Spaces(b) && LegalName(k)
    ensures TrimSpace(k + b) == k
  {
    NameIsPlain(k);
    assert [] + k + b == k + b;
    TrimOf([], k, b);
  }

  lemma CutOf(k: string, b: string, v: string)
    requires Spaces(b) && LegalName(k) && (v != [] ==> !IsSpace(v[|v| - 1]))
    ensures var t := k + b + "=" + v;
            && Tight(t) && Index(t, '=') == |k + b| && t[..|k + b|] == k + b && t[|k + b| + 1..] == v
  {
    NameIsPlain(k);
    var left := k + b;
    var t := left + "=" + v;
    assert t[0] == k[0] && t[|t| - 1] == if v == [] then '=' else v[|v| - 1];
    assert forall i | 0 <= i < |left| :: t[i] == left[i] && left[i] != '=';
    IndexAt(t, '=', |left|);
  }

  lemma ParsedIsWritten(s: string)
    requires ParseEntry(s).Some?
    ensures var e := ParseEntry(s).value;
            LegalName(e.0) && (e.1 != [] ==> !IsSpace(e.1[|e.1| - 1])) && Writes(s, e.0, e.1)
  {
    var t := TrimSpace(s);
    var i := Index(t, '=');
    EntryValue(s);
    var a, c := TrimParts(s);
    var b := NameParts(t, i);
    CutParts(t, i);
    TogetherWrites(a, TrimSpace(t[..i]), b, t[i + 1..], c);
  }

  lemma CutParts(t: string, i: nat)
    requires i < |t| && t[i] == '='
    ensures t == t[..i] + "=" + t[i + 1..]
  {
  }

  lemma TogetherWrites(a: string, k: string, b: string, v: string, c: string)
    requires Spaces(a) && Spaces(b) && Spaces(c)
    ensures Writes(a + (k + b + "=" + v) + c, k, v)
  {
    Regroup(a, k, b, v, c);
  }

  lemma NameParts(t: string, i: nat) returns (b: string)
    requires Tight(t) && i < |t|
    ensures Spaces(b) && t[..i] == TrimSpace(t[..i]) + b
  {
    var left := t[..i];
    assert TrimLeft(left) == left;
    b := TrimRightParts(left);
  }

  lemma Regroup(a: string, k: string, b: string, v: string, c: string)
    ensures a + (k + b + "=" + v) + c == a + k + b + "=" + v + c
  {
  }

  lemma {:induction false} NonBlankAppend(p: seq<string>, q: seq<string>)
    ensures NonBlank(p + q) == NonBlank(p) + NonBlank(q)
  {
    if p == [] {
      assert p + q == q;
    } else {
      assert (p + q)[1..] == p[1..] + q;
      NonBlankAppend(p[1..], q);
    }
  }

  lemma NonBlankOne(s: string)
    ensures NonBlank([s]) == if Spaces(s) then [] else [TrimSpace(s)]
  {
    if Spaces(s) {
      assert s == s + [] + [];
      TrimOf(s, [], []);
    } else {
      var a, b := TrimParts(s);
      assert TrimSpace(s) == [] ==> s == a + b;
    }
  }

  /** The variable's entries are the trimmed pieces between its commas, without those that are all white space. */
  lemma VariableMeaning(parts: seq<string>)
    requires parts != [] && forall i | 0 <= i < |parts| :: ',' !in parts[i]
    ensures VariableEntries(Join(parts, ',')) == NonBlank(parts)
  {
    SplitJoin(parts, ',');
    if Join(parts, ',') == "" {
      assert Split("", ',') == [""];
      NonBlankOne("");
    }
  }

  /** Reading fails exactly when some entry does not parse. */
  lemma {:induction false} LoadMeaning(vars: StringMap, entries: seq<string>)
    ensures Load(vars, entries).Some? <==> forall i | 0 <= i < |entries| :: ParseEntry(entries[i]).Some?
    decreases |entries|
  {
    if entries != [] && ParseEntry(entries[0]).Some? {
      var e := ParseEntry(entries[0]).value;
      LoadMeaning(vars[e.0 := e.1], entries[1..]);
      assert forall i | 0 < i < |entries| :: entries[i] == entries[1..][i - 1];
    }
  }

  // ---- What is stored -----------------------------------------------------------------------

  /** Entry `i` is the last one with this key. */
  predicate IsLast(entries: seq<string>, key: string, i: nat)
    requires i < |entries|
  {
    && HasKey(entries[i], key)
    && forall j | i < j < |entries| :: !HasKey(entries[j], key)
  }

  predicate HasKey(entry: string, key: string) {
    ParseEntry(entry).Some? && ParseEntry(entry).value.0 == key
  }

  lemma {:induction false} LoadKeepsOthers(vars: StringMap, entries: seq<string>, key: string)
    requires Load(vars, entries).Some? && forall i | 0 <= i < |entries| :: !HasKey(entries[i], key)
    ensures var after := Load(vars, entries).value;
            (key in after <==> key in vars) && (key in vars ==> after[key] == vars[key])
    decreases |entries|
  {
    if entries != [] {
      var e := ParseEntry(entries[0]).value;
      assert !HasKey(entries[0], key);
      LoadKeepsOthers(vars[e.0 := e.1], entries[1..], key);
    }
  }

  /** Loading leaves a key with the value of the last entry that has it. */
  lemma {:induction false} LoadIsLastWins(vars: StringMap, entries: seq<string>, key: string, i: nat)
    requires Load(vars, entries).Some? && i < |entries| && IsLast(entries, key, i)
    ensures var after := Load(vars, entries).value;
            key in after && after[key] == ParseEntry(entries[i]).value.1
    decreases |entries|
  {
    var e := ParseEntry(entries[0]).value;
    var rest := entries[1..];
    if i == 0 {
      LoadKeepsOthers(vars[e.0 := e.1], rest, key);
    } else {
      assert rest[i - 1] == entries[i];
      LoadIsLastWins(vars[e.0 := e.1], rest, key, i - 1);
    }
  }

  predicate LegalValue(v: string) {
    ',' !in v && (v != [] ==> !IsSpace(v[|v| - 1]))
  }

  lemma {:induction false} TrimRightEnds(s: string)
    ensures TrimRight(s) != [] ==> !IsSpace(TrimRight(s)[|TrimRight(s)| - 1])
    ensures TrimRight(s) <= s
  {
    if s != [] && IsSpace(s[|s| - 1]) {
      TrimRightEnds(s[..|s| - 1]);
    }
  }

  lemma {:induction false} TrimLeftSuffix(s: string)
    ensures exists i :: 0 <= i <= |s| && TrimLeft(s) == s[i..]
  {
    if s != [] && IsSpace(s[0]) {
      TrimLeftSuffix(s[1..]);
      var i :| 0 <= i <= |s| - 1 && TrimLeft(s[1..]) == s[1..][i..];
      assert TrimLeft(s) == s[i + 1..];
    } else {
      assert s[0..] == s;
    }
  }

  lemma TrimmedSuffix(s: string, i: nat)
    requires i <= |TrimSpace(s)|
    ensures var v := TrimSpace(s)[i..]; v != [] ==> !IsSpace(v[|v| - 1])
    ensures ',' !in s ==> ',' !in TrimSpace(s)[i..]
  {
    TrimRightEnds(TrimLeft(s));
    TrimLeftSuffix(s);
  }

  /** A parsed value never ends in white space, and has no comma unless the entry had one. */
  lemma EntryValue(s: string)
    requires ParseEntry(s).Some?
    ensures LegalName(ParseEntry(s).value.0)
    ensures var v := ParseEntry(s).value.1; v != [] ==> !IsSpace(v[|v| - 1])
    ensures ',' !in s ==> LegalValue(ParseEntry(s).value.1)
  {
    TrimmedSuffix(s, Index(TrimSpace(s), '=') + 1);
  }

  /** Whatever is loaded on top of legal entries is legal; values too when no entry has a comma. */
  lemma {:induction false} LoadKeepsLegal(vars: StringMap, entries: seq<string>, commaFree: bool)
    requires Load(vars, entries).Some? && forall k | k in vars :: LegalName(k) && (commaFree ==> LegalValue(vars[k]))
    requires commaFree ==> forall i | 0 <= i < |entries| :: ',' !in entries[i]
    ensures var after := Load(vars, entries).value;
            forall k | k in after :: LegalName(k) && (commaFree ==> LegalValue(after[k]))
    decreases |entries|
  {
    if entries != [] {
      EntryValue(entries[0]);
      var e := ParseEntry(entries[0]).value;
      LoadKeepsLegal(vars[e.0 := e.1], entries[1..], commaFree);
    }
  }

  /** Every key in the parsed map is a legal variable name. */
  lemma StoredNamesAreLegal(flags: seq<string>, variable: string)
    requires Parse(flags, variable).Some?
    ensures forall k | k in Parse(flags, variable).value :: LegalName(k)
  {
    LoadKeepsLegal(map[], flags + VariableEntries(variable), false);
  }

  /** A lookup gives the value of the last entry with that key, flags coming before the variable. */
  lemma LookupIsLastWins(flags: seq<string>, variable: string, key: string)
    requires Parse(flags, variable).Some?
    ensures var entries := flags + VariableEntries(variable);
            var after := Parse(flags, variable).value;
            && (forall i: nat | i < |entries| && IsLast(entries, key, i) ::
                  key in after && after[key] == ParseEntry(entries[i]).value.1)
            && (key in after <==> exists i :: 0 <= i < |entries| && HasKey(entries[i], key))
  {
    var entries := flags + VariableEntries(variable);
    forall i: nat | i < |entries| && IsLast(entries, key, i)
      ensures key in Parse(flags, variable).value && Parse(flags, variable).value[key] == ParseEntry(entries[i]).value.1
    {
      LoadIsLastWins(map[], entries, key, i);
    }
    if i :| 0 <= i < |entries| && HasKey(entries[i], key) {
      var last := LastIndex(entries, key, i);
    } else {
      LoadKeepsOthers(map[], entries, key);
    }
  }

  lemma LastIndex(entries: seq<string>, key: string, i: nat) returns (last: nat)
    requires i < |entries| && HasKey(entries[i], key)
    ensures last < |entries| && IsLast(entries, key, last)
    decreases |entries| - i
  {
    if j :| i < j < |entries| && HasKey(entries[j], key) {
      last := LastIndex(entries, key, j);
    } else {
      last := i;
    }
  }

  // ---- Round trip ---------------------------------------------------------------------------

  function EntryOf(k: string, v: string): string {
    k + "=" + v
  }

  function EntriesOf(m: StringMap, keys: seq<string>): seq<string>
    requires forall i | 0 <= i < |keys| :: keys[i] in m
  {
    if keys == [] then [] else [EntryOf(keys[0], m[keys[0]])] + EntriesOf(m, keys[1..])
  }

  ghost predicate Enumerates(m: StringMap, keys: seq<string>) {
    (forall i, j | 0 <= i < j < |keys| :: keys[i] != keys[j]) && forall k :: k in keys <==> k in m
  }

  ghost predicate LegalMap(m: StringMap) {
    forall k | k in m :: LegalName(k) && LegalValue(m[k])
  }

  lemma NameIsPlain(k: string)
    requires LegalName(k)
    ensures forall i | 0 <= i < |k| :: !IsSpace(k[i]) && k[i] != '=' && k[i] != ','
  {
  }

  /** A legal key and value survive being written as an entry and parsed again. */
  lemma EntryRoundTrip(k: string, v: string)
    requires LegalName(k) && LegalValue(v)
    ensures TrimSpace(EntryOf(k, v)) == EntryOf(k, v)
    ensures ParseEntry(EntryOf(k, v)) == Some((k, v))
    ensures ',' !in EntryOf(k, v)
  {
    NameIsPlain(k);
    var s := EntryOf(k, v);
    assert s[0] == k[0];
    assert s[|s| - 1] == if v == [] then '=' else v[|v| - 1];
    assert TrimSpace(s) == s;
    IndexAt(s, '=', |k|);
    assert s[..|k|] == k && s[|k| + 1..] == v;
    assert TrimSpace(k) == k;
  }

  function Restrict(m: StringMap, keys: seq<string>): StringMap
    requires forall i | 0 <= i < |keys| :: keys[i] in m
  {
    map k | k in keys :: m[k]
  }

  lemma {:induction false} EntriesParse(acc: StringMap, m: StringMap, keys: seq<string>)
    requires LegalMap(m) && (forall i | 0 <= i < |keys| :: keys[i] in m)
    ensures Load(acc, EntriesOf(m, keys)) == Some(acc + Restrict(m, keys))
    decreases |keys|
  {
    if keys != [] {
      var k := keys[0];
      EntryRoundTrip(k, m[k]);
      EntriesParse(acc[k := m[k]], m, keys[1..]);
      assert EntriesOf(m, keys)[1..] == EntriesOf(m, keys[1..]);
      RestrictTail(acc, m, keys);
    } else {
      assert acc + Restrict(m, keys) == acc;
    }
  }

  lemma RestrictTail(acc: StringMap, m: StringMap, keys: seq<string>)
    requires keys != [] && (forall i | 0 <= i < |keys| :: keys[i] in m)
    ensures acc[keys[0] := m[keys[0]]] + Restrict(m, keys[1..]) == acc + Restrict(m, keys)
  {
    assert keys == [keys[0]] + keys[1..];
  }

  lemma {:induction false} EntriesAreClean(m: StringMap, keys: seq<string>)
    requires LegalMap(m) && (forall i | 0 <= i < |keys| :: keys[i] in m)
    ensures var e := EntriesOf(m, keys);
            |e| == |keys| && NonBlank(e) == e && forall i | 0 <= i < |e| :: ',' !in e[i]
    decreases |keys|
  {
    if keys != [] {
      EntriesAreClean(m, keys[1..]);
      EntryRoundTrip(keys[0], m[keys[0]]);
      assert EntriesOf(m, keys)[1..] == EntriesOf(m, keys[1..]);
    }
  }

  lemma VariableEntriesBack(m: StringMap, keys: seq<string>)
    requires LegalMap(m) && (forall i | 0 <= i < |keys| :: keys[i] in m)
    ensures VariableEntries(Join(EntriesOf(m, keys), ',')) == EntriesOf(m, keys)
  {
    var e := EntriesOf(m, keys);
    EntriesAreClean(m, keys);
    if keys != [] {
      SplitJoin(e, ',');
      assert '=' in EntryOf(keys[0], m[keys[0]]);
      JoinNonEmpty(e, ',');
    }
  }

  lemma LegalRoundTrip(m: StringMap, keys: seq<string>)
    requires Enumerates(m, keys) && LegalMap(m)
    ensures Parse([], Join(EntriesOf(m, keys), ',')) == Some(m)
  {
    VariableEntriesBack(m, keys);
    EntriesParse(map[], m, keys);
    RestrictToAll(m, keys);
    ParseWithoutFlags(Join(EntriesOf(m, keys), ','));
  }

  lemma RestrictToAll(m: StringMap, keys: seq<string>)
    requires Enumerates(m, keys)
    ensures (forall i | 0 <= i < |keys| :: keys[i] in m) && map[] + Restrict(m, keys) == m
  {
  }

  lemma ParseWithoutFlags(variable: string)
    ensures Parse([], variable) == Load(map[], VariableEntries(variable))
  {
    assert [] + VariableEntries(variable) == VariableEntries(variable);
  }

  lemma JoinNonEmpty(parts: seq<string>, c: char)
    requires parts != [] && parts[0] != ""
    ensures Join(parts, c) != ""
  {
  }

  /** Whatever the variable's text, what is parsed from it is a legal map. */
  lemma ParsedIsLegal(variable: string)
    requires Parse([], variable).Some?
    ensures LegalMap(Parse([], variable).value)
  {
    var entries := VariableEntries(variable);
    ParseWithoutFlags(variable);
    if variable != "" {
      NonBlankCommaFree(Split(variable, ','));
    }
    LoadKeepsLegal(map[], entries, true);
  }

  lemma {:induction false} NonBlankCommaFree(parts: seq<string>)
    requires forall i | 0 <= i < |parts| :: ',' !in parts[i]
    ensures forall i | 0 <= i < |NonBlank(parts)| :: ',' !in NonBlank(parts)[i]
  {
    if parts != [] {
      NonBlankCommaFree(parts[1..]);
      TrimRightEnds(TrimLeft(parts[0]));
      TrimLeftSuffix(parts[0]);
    }
  }

  /**
   Writing a map as comma-joined KEY=VALUE entries, in any order, and parsing that gives the map back
   if and only if its keys are legal names and no value has a comma or ends in white space.
   */
  lemma RoundTripIff(m: StringMap, keys: seq<string>)
    requires Enumerates(m, keys)
    ensures Parse([], Join(EntriesOf(m, keys), ',')) == Some(m) <==> LegalMap(m)
  {
    if LegalMap(m) {
      LegalRoundTrip(m, keys);
    } else if Parse([], Join(EntriesOf(m, keys), ',')).Some? {
      ParsedIsLegal(Join(EntriesOf(m, keys), ','));
    }
  }
}
