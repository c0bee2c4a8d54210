/**
 The license configuration string: written by the portal (`export_config` in
 apps/portal-api/app.py), read by ingress (`ParseLicenseRecords` in
 apps/ingress/internal/ingress/config.go) and kept by the hot-reload store
 (apps/ingress/internal/ingress/license.go).
 */
module LicenseConfig {
  import opened Prelude
  import opened Text

  datatype Record = Record(license: string, secret: string, hmac: string, instance: string, platform: string,
                           active: bool, pending: string, maxPerDay: int)

  datatype Result<+T> = Ok(value: T) | Err

  /** strconv.Atoi, which only the seventh field reaches. */
  type Atoi = string -> Option<int>

  function Field(fields: seq<string>, i: nat): (s: string) {
    if i < |fields| then Trim(Unicode, fields[i]) else ""
  }

  /** One non-blank entry: license:secret:hmac:instance[:platform[:pending[:max]]]. */
  function ParseEntry(atoi: Atoi, part: string): (r: Result<Record>) {
    var fields := Split(part, ':');
    if |fields| < 4 || |fields| > 7 then Err
    else
      var limit := Field(fields, 6);
      var n := if limit == "" then Some(0) else atoi(limit);
      if n.None? || Field(fields, 0) == "" || Field(fields, 3) == "" then Err
      else Ok(Record(Field(fields, 0), Field(fields, 1), Field(fields, 2), Field(fields, 3),
                     if |fields| >= 5 then Field(fields, 4) else "mt5", true, Field(fields, 5), n.value))
  }

  function ParseParts(atoi: Atoi, parts: seq<string>): (r: Result<seq<Record>>) {
    if parts == [] then Ok([])
    else
      var part := Trim(Unicode, parts[0]);
      if part == "" then ParseParts(atoi, parts[1..])
      else match ParseEntry(atoi, part)
        case Err => Err
        case Ok(rec) =>
          match ParseParts(atoi, parts[1..])
          case Err => Err
          case Ok(rest) => Ok([rec] + rest)
  }

  /** `ParseLicenseRecords`. */
  function Parse(atoi: Atoi, raw: string): (r: Result<seq<Record>>) {
    if Trim(Unicode, raw) == "" then Ok([]) else ParseParts(atoi, Split(Trim(Unicode, raw), ';'))
  }

  /** The loop of `ParseLicenseRecords`. */
  method ParseLoop(atoi: Atoi, text: string) returns (r: Result<seq<Record>>)
    ensures r == Parse(atoi, text)
  {
    hide ParseEntry, Trim;
    var raw := Trim(Unicode, text);
    if raw == "" { return Ok([]); }
    var parts := Split(raw, ';');
    var records := [];
    var i := 0;
    assert parts[0..] == parts;
    PrefixedFacts([], [], ParseParts(atoi, parts));
    while i < |parts|
      invariant i <= |parts|
      invariant ParseParts(atoi, parts) == Prefixed(records, ParseParts(atoi, parts[i..]))
    {
      var part := Trim(Unicode, parts[i]);
      assert parts[i..][1..] == parts[i + 1..];
      i := i + 1;
      if part == "" { continue; }
      var entry := ParseEntry(atoi, part);
      if entry.Err? { return Err; }
      PrefixedFacts(records, [entry.value], ParseParts(atoi, parts[i..]));
      records := records + [entry.value];
    }
    PrefixedFacts(records, [], Ok([]));
    return Ok(records);
  }

  function Prefixed(records: seq<Record>, r: Result<seq<Record>>): (q: Result<seq<Record>>) {
    if r.Ok? then Ok(records + r.value) else Err
  }

  lemma PrefixedFacts(a: seq<Record>, b: seq<Record>, r: Result<seq<Record>>)
    ensures Prefixed([], r) == r && Prefixed(a, Ok([])) == Ok(a)
    ensures Prefixed(a, Prefixed(b, r)) == Prefixed(a + b, r)
  {
    assert a + [] == a;
    if r.Ok? {
      assert [] + r.value == r.value;
      assert a + (b + r.value) == a + b + r.value;
    }
  }

  /** An entry is four to seven fields around colons. It is refused exactly when there are fewer or more, when the
      license or the instance is blank or when a seventh field that is not blank is no number; else each field,
      trimmed, is read in its place. A platform is assumed only where there is no field for one. */
  lemma EntryReads(atoi: Atoi, fs: seq<string>)
    requires fs != [] && forall i :: 0 <= i < |fs| ==> ':' !in fs[i]
    ensures var r := ParseEntry(atoi, Join(fs, ':'));
            if |fs| < 4 || |fs| > 7 then r.Err?
            else
              var limit := if |fs| == 7 then Trim(Unicode, fs[6]) else "";
              var bad := Trim(Unicode, fs[0]) == "" || Trim(Unicode, fs[3]) == "" || (limit != "" && atoi(limit).None?);
              && (r.Err? <==> bad)
              && (!bad ==>
                    && r.value.license == Trim(Unicode, fs[0]) && r.value.secret == Trim(Unicode, fs[1])
                    && r.value.hmac == Trim(Unicode, fs[2]) && r.value.instance == Trim(Unicode, fs[3])
                    && r.value.platform == (if |fs| >= 5 then Trim(Unicode, fs[4]) else "mt5") && r.value.active
                    && r.value.pending == (if |fs| >= 6 then Trim(Unicode, fs[5]) else "")
                    && r.value.maxPerDay == (if limit == "" then 0 else atoi(limit).value))
  {
    hide Split, Trim, Join;
    SplitJoin(fs, ':');
  }

  /** A configuration is refused exactly when an entry that is not blank is; else the records are those of such
      entries, in order. */
  lemma {:induction false} EntriesRead(atoi: Atoi, parts: seq<string>)
    ensures ParseParts(atoi, parts).Err? <==>
            exists i :: 0 <= i < |parts| && Trim(Unicode, parts[i]) != ""
                        && ParseEntry(atoi, Trim(Unicode, parts[i])).Err?
    ensures parts != [] && ParseParts(atoi, parts).Ok? ==>
              var n := |parts| - 1;
              && ParseParts(atoi, parts[..n]).Ok?
              && ParseParts(atoi, parts).value == ParseParts(atoi, parts[..n]).value
                 + (if Trim(Unicode, parts[n]) == "" then [] else [ParseEntry(atoi, Trim(Unicode, parts[n])).value])
  {
    hide ParseEntry, Trim;
    if parts != [] {
      var rest, n := parts[1..], |parts| - 1;
      EntriesRead(atoi, rest);
      if i :| 0 <= i < |rest| && Trim(Unicode, rest[i]) != "" && ParseEntry(atoi, Trim(Unicode, rest[i])).Err? {
        assert parts[i + 1] == rest[i];
      }
      if n > 0 {
        assert parts[..n][1..] == rest[..n - 1] && parts[n] == rest[n - 1] && parts[..n][0] == parts[0];
      } else {
        assert parts[..n] == [] && rest == [];
      }
    }
  }

  // ---------------------------------------------------------------- export

  datatype License = License(key: string, hmac: string, pending: string)
  datatype Instance = Instance(key: string, platform: string)

  function Entry(lic: License, inst: Instance): (s: string) {
    Join([lic.key, "", lic.hmac, inst.key, inst.platform, lic.pending], ':')
  }

  function Entries(lic: License, insts: seq<Instance>): (ss: seq<string>)
    ensures |ss| == |insts|
  {
    if insts == [] then [] else [Entry(lic, insts[0])] + Entries(lic, insts[1..])
  }

  /** `export_config`. */
  function Export(lic: License, insts: seq<Instance>): (s: string) {
    if insts == [] then "" else Join(Entries(lic, insts), ';')
  }

  /** The record an instance is meant to become. */
  function Meant(lic: License, inst: Instance): (r: Record) {
    Record(lic.key, "", lic.hmac, inst.key, inst.platform, true, lic.pending, 0)
  }

  function AllMeant(lic: License, insts: seq<Instance>): (rs: seq<Record>)
    ensures |rs| == |insts|
  {
    if insts == [] then [] else [Meant(lic, insts[0])] + AllMeant(lic, insts[1..])
  }

  /** A value that neither separator nor trimming touches. */
  predicate Clean(s: string) {
    Trimmed(Unicode, s) && ':' !in s && ';' !in s
  }

  predicate Exportable(lic: License, inst: Instance) {
    && Clean(lic.key) && Clean(lic.hmac) && Clean(lic.pending) && Clean(inst.key) && Clean(inst.platform)
    && lic.key != "" && inst.key != ""
  }

  ghost predicate AllExportable(lic: License, insts: seq<Instance>) {
    forall i :: 0 <= i < |insts| ==> Exportable(lic, insts[i])
  }

  lemma EntryFacts(lic: License, inst: Instance)
    requires Exportable(lic, inst)
    ensures var e := Entry(lic, inst); e != "" && Trimmed(Unicode, e) && ';' !in e
    ensures Split(Entry(lic, inst), ':') == [lic.key, "", lic.hmac, inst.key, inst.platform, lic.pending]
  {
    SplitJoin([lic.key, "", lic.hmac, inst.key, inst.platform, lic.pending], ':');
    SixJoined(lic.key, "", lic.hmac, inst.key, inst.platform, lic.pending);
  }

  lemma SixJoined(a: string, b: string, c: string, d: string, e: string, f: string)
    ensures Join([a, b, c, d, e, f], ':') == a + ":" + b + ":" + c + ":" + d + ":" + e + ":" + f
  {
    assert Join([f], ':') == f;
    assert Join([e, f], ':') == e + ":" + f;
    assert Join([d, e, f], ':') == d + ":" + Join([e, f], ':');
    assert Join([c, d, e, f], ':') == c + ":" + Join([d, e, f], ':');
    assert Join([b, c, d, e, f], ':') == b + ":" + Join([c, d, e, f], ':');
    assert Join([a, b, c, d, e, f], ':') == a + ":" + Join([b, c, d, e, f], ':');
  }

  lemma ParseExported(atoi: Atoi, lic: License, inst: Instance)
    requires Exportable(lic, inst)
    ensures ParseEntry(atoi, Entry(lic, inst)) == Ok(Meant(lic, inst))
  {
    hide Trim, Entry, Split;
    EntryFacts(lic, inst);
    TrimFacts(Unicode, lic.key);
    TrimFacts(Unicode, "");
    TrimFacts(Unicode, lic.hmac);
    TrimFacts(Unicode, inst.key);
    TrimFacts(Unicode, inst.platform);
    TrimFacts(Unicode, lic.pending);
  }

  lemma {:induction false} ParseAllExported(atoi: Atoi, lic: License, insts: seq<Instance>)
    requires AllExportable(lic, insts)
    ensures ParseParts(atoi, Entries(lic, insts)) == Ok(AllMeant(lic, insts))
    ensures forall i :: 0 <= i < |insts| ==>
              var e := Entries(lic, insts)[i]; e != "" && Trimmed(Unicode, e) && ';' !in e
  {
    hide ParseEntry, Entry, Trim, Trimmed;
    if insts != [] {
      EntryFacts(lic, insts[0]);
      TrimFacts(Unicode, Entry(lic, insts[0]));
      ParseExported(atoi, lic, insts[0]);
      ParseAllExported(atoi, lic, insts[1..]);
    }
  }

  lemma {:induction false} JoinTrimmed(ss: seq<string>)
    requires ss != [] && forall i :: 0 <= i < |ss| ==> ss[i] != "" && Trimmed(Unicode, ss[i])
    ensures Join(ss, ';') != "" && Trimmed(Unicode, Join(ss, ';')) && Join(ss, ';')[0] == ss[0][0]
  {
    if |ss| > 1 { JoinTrimmed(ss[1..]); }
  }

  /** Clean values come back exactly, in order. */
  lemma ExportRoundTrip(atoi: Atoi, lic: License, insts: seq<Instance>)
    requires AllExportable(lic, insts)
    ensures Parse(atoi, Export(lic, insts)) == Ok(AllMeant(lic, insts))
  {
    hide ParseParts, Split, Entries, AllMeant, Exportable;
    TrimFacts(Unicode, "");
    if insts == [] {
      NothingMeant(lic);
    } else {
      ParseAllExported(atoi, lic, insts);
      JoinTrimmed(Entries(lic, insts));
      TrimFacts(Unicode, Export(lic, insts));
      SplitJoin(Entries(lic, insts), ';');
    }
  }

  lemma NothingMeant(lic: License)
    ensures AllMeant(lic, []) == []
  {
  }

  // ---------------------------------------------------------------- only if

  predicate CleanRecord(r: Record) {
    Clean(r.license) && Clean(r.hmac) && Clean(r.pending) && Clean(r.instance) && Clean(r.platform)
    && r.license != "" && r.instance != ""
  }

  lemma FieldClean(part: string, i: nat)
    requires ';' !in part
    ensures Clean(Field(Split(part, ':'), i))
  {
    var fields := Split(part, ':');
    SplitFacts(part, ':');
    if i < |fields| {
      assert fields[i] in fields;
      TrimFacts(Unicode, fields[i]);
    }
  }

  lemma EntryClean(atoi: Atoi, part: string)
    requires ';' !in part && ParseEntry(atoi, part).Ok?
    ensures CleanRecord(ParseEntry(atoi, part).value)
  {
    hide Field, Split, Clean;
    FieldClean(part, 0);
    FieldClean(part, 2);
    FieldClean(part, 3);
    FieldClean(part, 4);
    FieldClean(part, 5);
    Mt5Clean();
  }

  lemma Mt5Clean()
    ensures Clean("mt5")
  {
  }

  lemma {:induction false} PartsClean(atoi: Atoi, parts: seq<string>)
    requires ParseParts(atoi, parts).Ok? && forall i :: 0 <= i < |parts| ==> ';' !in parts[i]
    ensures forall i :: 0 <= i < |ParseParts(atoi, parts).value| ==> CleanRecord(ParseParts(atoi, parts).value[i])
  {
    hide ParseEntry, CleanRecord, Trim;
    if parts != [] {
      var part := Trim(Unicode, parts[0]);
      TrimFacts(Unicode, parts[0]);
      if part != "" { EntryClean(atoi, part); }
      PartsClean(atoi, parts[1..]);
    }
  }

  /** The export reads back exactly when every value is clean. */
  lemma ExportRoundTripIff(atoi: Atoi, lic: License, insts: seq<Instance>)
    ensures Parse(atoi, Export(lic, insts)) == Ok(AllMeant(lic, insts)) <==> AllExportable(lic, insts)
  {
    hide ParseParts, Split, Trim, Export, CleanRecord, Exportable;
    if AllExportable(lic, insts) {
      ExportRoundTrip(atoi, lic, insts);
    } else if Parse(atoi, Export(lic, insts)) == Ok(AllMeant(lic, insts)) {
      var text := Trim(Unicode, Export(lic, insts));
      if text != "" {
        var parts := Split(text, ';');
        SplitFacts(text, ';');
        forall i | 0 <= i < |parts| ensures ';' !in parts[i] { assert parts[i] in parts; }
        PartsClean(atoi, parts);
      }
      forall i | 0 <= i < |insts| ensures Exportable(lic, insts[i]) {
        MeantAt(lic, insts, i);
        MeantClean(lic, insts[i]);
      }
    }
  }

  lemma {:induction false} MeantAt(lic: License, insts: seq<Instance>, i: nat)
    requires i < |insts|
    ensures AllMeant(lic, insts)[i] == Meant(lic, insts[i])
  {
    if i > 0 { MeantAt(lic, insts[1..], i - 1); }
  }

  lemma MeantClean(lic: License, inst: Instance)
    ensures CleanRecord(Meant(lic, inst)) ==> Exportable(lic, inst)
  {
  }

  // ---------------------------------------------------------------- what the portal stores

  predicate KeyChar(c: char) {
    'A' <= c <= 'Z' || 'a' <= c <= 'z' || '0' <= c <= '9' || c == '_' || c == '-'
  }

  predicate Keyed(s: string) {
    s != "" && forall c :: c in s ==> KeyChar(c)
  }

  predicate EndsInNewline(s: string) {
    s != "" && s[|s| - 1] == '\n'
  }

  /** The portal's test of an instance key: `$` also matches before a final newline. */
  predicate PortalAccepts(s: string) {
    Keyed(s) || (EndsInNewline(s) && Keyed(s[..|s| - 1]))
  }

  lemma KeyedClean(s: string)
    requires Keyed(s)
    ensures Clean(s)
  {
    assert s[0] in s && s[|s| - 1] in s;
  }

  /**
   For licenses and instances as the portal creates them, the round trip holds
   exactly when no instance key ends in a newline.
   */
  lemma PortalRoundTrip(atoi: Atoi, lic: License, insts: seq<Instance>)
    requires Keyed(lic.key) && Keyed(lic.hmac) && (lic.pending == "" || Keyed(lic.pending))
    requires forall i :: 0 <= i < |insts| ==> PortalAccepts(insts[i].key) && Keyed(insts[i].platform)
    ensures Parse(atoi, Export(lic, insts)) == Ok(AllMeant(lic, insts)) <==>
            forall i :: 0 <= i < |insts| ==> !EndsInNewline(insts[i].key)
  {
    hide Parse, Export, AllMeant, Clean;
    ExportRoundTripIff(atoi, lic, insts);
    KeyedClean(lic.key);
    KeyedClean(lic.hmac);
    if lic.pending != "" { KeyedClean(lic.pending); } else { EmptyClean(); }
    forall i | 0 <= i < |insts|
      ensures Exportable(lic, insts[i]) <==> !EndsInNewline(insts[i].key)
    {
      KeyedClean(insts[i].platform);
      NewlineDecides(insts[i].key);
    }
  }

  /** Such a key exists: the portal takes "ea" followed by a newline, and ingress reads another key. */
  lemma NewlineKeyIsLost(atoi: Atoi)
    ensures PortalAccepts("ea\n")
    ensures var lic, insts := License("60123456789", "0f", ""), [Instance("ea\n", "mt5")];
            Parse(atoi, Export(lic, insts)) != Ok(AllMeant(lic, insts))
  {
    hide Parse, Export, AllMeant;
    var lic, insts := License("60123456789", "0f", ""), [Instance("ea\n", "mt5")];
    assert "ea\n"[..2] == "ea";
    assert EndsInNewline(insts[0].key);
    PortalRoundTrip(atoi, lic, insts);
  }

  lemma EmptyClean()
    ensures Clean("")
  {
  }

  lemma NewlineDecides(key: string)
    requires PortalAccepts(key)
    ensures key != "" && (Clean(key) <==> !EndsInNewline(key))
  {
    if Keyed(key) {
      KeyedClean(key);
      assert key[|key| - 1] in key;
    }
  }

  // ---------------------------------------------------------------- the store

  datatype Lookup = Found(record: Record) | NotFound | Inactive

  /** The last record of a license. */
  function Last(records: seq<Record>, license: string): (r: Option<Record>) {
    if records == [] then None
    else if records[|records| - 1].license == license then Some(records[|records| - 1])
    else Last(records[..|records| - 1], license)
  }

  class HotReloadStore {
    var records: map<string, Record>

    /** `Reload`: build the map aside, then swap it in. */
    method Reload(list: seq<Record>)
      modifies this
      ensures forall license :: (license in records <==> Last(list, license).Some?)
      ensures forall license :: license in records ==> records[license] == Last(list, license).value
    {
      var m: map<string, Record> := map[];
      for i := 0 to |list|
        invariant forall license :: license in m <==> Last(list[..i], license).Some?
        invariant forall license :: license in m ==> m[license] == Last(list[..i], license).value
      {
        assert list[..i + 1][..i] == list[..i];
        m := m[list[i].license := list[i]];
      }
      assert list[..|list|] == list;
      records := m;
    }

    /** `Lookup`. */
    method Find(license: string) returns (r: Lookup)
      ensures r == if license !in records then NotFound
                   else if !records[license].active then Inactive else Found(records[license])
    {
      if license !in records { return NotFound; }
      var record := records[license];
      if !record.active { return Inactive; }
      return Found(record);
    }
  }

  /** Export, parse, reload, look up: the license answers with its last active instance. */
  method ReloadExport(atoi: Atoi, lic: License, insts: seq<Instance>) returns (r: Lookup)
    requires AllExportable(lic, insts)
    ensures r == if insts == [] then NotFound else Found(Meant(lic, insts[|insts| - 1]))
  {
    hide ParseParts, Split, Trim, Export, Exportable, Parse;
    ExportRoundTrip(atoi, lic, insts);
    var parsed := ParseLoop(atoi, Export(lic, insts));
    var store := new HotReloadStore;
    store.Reload(parsed.value);
    r := store.Find(lic.key);
    if insts != [] { MeantAt(lic, insts, |insts| - 1); }
  }
}
