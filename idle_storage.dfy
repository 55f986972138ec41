// Idle Forge (Android): the "key=value;key=value" level-map serialiser and
// parser of GameStorage.kt, the Kotlin string primitives they use, and the
// validating read of a save from an abstract key/value store.

module IdleStorage {
  import opened Wrappers
  import opened Text
  import opened IdleModels

  const SaveVersion: int := 1

  const KeyVersion := "version"
  const KeyMetal := "metal"
  const KeyCredits := "credits"
  const KeyScience := "science"
  const KeyTapMetal := "tap_metal"
  const KeyTapCredits := "tap_credits"
  const KeyMultiplier := "multiplier"
  const KeyBuildings := "buildings"
  const KeyUpgrades := "upgrades"
  const KeyTaps := "taps"
  const KeySessionSeconds := "session_seconds"
  const KeyLastSavedEpochMs := "last_saved_epoch_ms"

  /** Kotlin's `Char.isWhitespace()`: the Java whitespace controls plus every
      Unicode space, line and paragraph separator. */
  predicate IsWhitespace(c: char) {
    c == '\t' || c == '\n' || c == '\U{000B}' || c == '\U{000C}' || c == '\r'
    || ('\U{001C}' <= c <= '\U{001F}') || c == ' ' || c == '\U{00A0}' || c == '\U{1680}'
    || ('\U{2000}' <= c <= '\U{200A}') || c == '\U{2028}' || c == '\U{2029}'
    || c == '\U{202F}' || c == '\U{205F}' || c == '\U{3000}'
  }

  /** `isBlank()`: empty or only whitespace. */
  predicate IsBlank(s: string) {
    forall i :: 0 <= i < |s| ==> IsWhitespace(s[i])
  }

  function TrimStart(s: string): (r: string)
    ensures |r| <= |s| && r == s[|s| - |r|..]
    ensures |r| == 0 || !IsWhitespace(r[0])
    ensures |r| == 0 ==> IsBlank(s)
    decreases |s|
  {
    if |s| > 0 && IsWhitespace(s[0]) then TrimStart(s[1..]) else s
  }

  function TrimEnd(s: string): (r: string)
    ensures |r| <= |s| && r == s[..|r|]
    ensures |r| == 0 || !IsWhitespace(r[|r| - 1])
    ensures |r| == 0 ==> IsBlank(s)
    decreases |s|
  {
    if |s| > 0 && IsWhitespace(s[|s| - 1]) then TrimEnd(s[..|s| - 1]) else s
  }

  /** `trim()`: drops leading and trailing whitespace. The result has no
      whitespace at either end and is empty exactly when the input is blank. */
  function Trim(s: string): (r: string)
    ensures |r| == 0 || (!IsWhitespace(r[0]) && !IsWhitespace(r[|r| - 1]))
    ensures |r| == 0 <==> IsBlank(s)
    ensures |r| <= |s|
  {
    TrimEnd(TrimStart(s))
  }

  /** A string with no whitespace at either end trims to itself. */
  lemma TrimmedIsFixed(s: string)
    requires |s| == 0 || (!IsWhitespace(s[0]) && !IsWhitespace(s[|s| - 1]))
    ensures Trim(s) == s
  {
  }

  const IntMin: int := -2147483648
  const IntMax: int := 2147483647

  /** `toIntOrNull()`: an optional '+' or '-' followed by at least one decimal
      digit, within the 32-bit range. */
  function ParseInt(s: string): (r: Option<int>)
    ensures r.Some? ==> IntMin <= r.value <= IntMax
    ensures |s| == 0 ==> r.None?
  {
    if |s| == 0 then None
    else if s[0] == '-' || s[0] == '+' then
      if |s| == 1 || !AllDigits(s[1..]) then None
      else
        var v: int := if s[0] == '-' then -(DigitsValue(s[1..]) as int) else DigitsValue(s[1..]);
        if IntMin <= v <= IntMax then Some(v) else None
    else if AllDigits(s) && DigitsValue(s) <= IntMax then Some(DigitsValue(s))
    else None
  }

  /** Reading back `Int.toString()` gives the integer back. */
  lemma ParseIntToString(n: int)
    requires IntMin <= n <= IntMax
    ensures ParseInt(IntToString(n)) == Some(n)
  {
    if n >= 0 {
      DigitsValueOfNatToString(n);
      assert IsDigit(NatToString(n)[0]);
    } else {
      DigitsValueOfNatToString(-n);
      assert IntToString(n)[1..] == NatToString(-n);
    }
  }

  /** One "key=value" chunk of `encodeMap`. */
  function EncodeEntry(key: string, value: nat): string {
    key + "=" + NatToString(value)
  }

  /** The chunks of `encodeMap`, one per entry, in iteration order. */
  function EncodeChunks(entries: seq<(string, nat)>): (chunks: seq<string>)
    ensures |chunks| == |entries|
    decreases |entries|
  {
    if |entries| == 0 then []
    else
      var last := entries[|entries| - 1];
      EncodeChunks(entries[..|entries| - 1]) + [EncodeEntry(last.0, last.1)]
  }

  /** `encodeMap`: the entries of a level map, in iteration order, as
      "key=value" joined by ';'; an empty map writes the empty string and
      otherwise the first entry's chunk opens the text. */
  function EncodeMap(entries: seq<(string, nat)>): (r: string)
    ensures |entries| == 0 ==> r == ""
    ensures |entries| > 0 ==> EncodeEntry(entries[0].0, entries[0].1) <= r
  {
    if |entries| > 0 then
      JoinStartsWithFirst(EncodeChunks(entries), ';');
      EncodeChunksPrefix(entries, 1);
      Join(EncodeChunks(entries), ';')
    else Join(EncodeChunks(entries), ';')
  }

  /** The map a sequence of entries builds when a later key overwrites an
      earlier one (a Kotlin `Map`'s content, given its entries). */
  function MapOf(entries: seq<(string, nat)>): map<string, nat>
    decreases |entries|
  {
    if |entries| == 0 then map[]
    else
      var last := entries[|entries| - 1];
      MapOf(entries[..|entries| - 1])[last.0 := last.1]
  }

  /** The parts of a chunk `decodeMap` keeps: exactly two, an Int value and a
      non-empty key once trimmed. */
  predicate ChunkAccepted(parts: seq<string>) {
    |parts| == 2 && ParseInt(Trim(parts[1])).Some? && |Trim(parts[0])| > 0
  }

  /** One chunk of `decodeMap`: it must split into exactly two parts on '=',
      the trimmed value must be an Int and the trimmed key non-empty; the
      value is then floored at 0. */
  function DecodeChunk(chunk: string): (r: Option<(string, nat)>)
    ensures r.Some? ==> |r.value.0| > 0 && '=' !in r.value.0
    ensures r.Some? ==> !IsWhitespace(r.value.0[0]) && !IsWhitespace(r.value.0[|r.value.0| - 1])
    ensures |Split(chunk, '=')| != 2 ==> r.None?
  {
    var parts := Split(chunk, '=');
    if |parts| != 2 then None
    else
      var key := Trim(parts[0]);
      match ParseInt(Trim(parts[1]))
      case None => None
      case Some(v) =>
        if |key| == 0 then None
        else
          SplitPartsLackSeparator(chunk, '=');
          Some((key, if v < 0 then 0 else v))
  }

  /** What one chunk yields: an entry exactly when it is accepted, namely the
      trimmed key with the Int value, a negative value coerced to 0. */
  lemma DecodeChunkMeaning(chunk: string)
    ensures DecodeChunk(chunk).Some? <==> ChunkAccepted(Split(chunk, '='))
    ensures DecodeChunk(chunk).Some? ==> DecodeChunk(chunk).value.0 == Trim(Split(chunk, '=')[0])
    ensures DecodeChunk(chunk).Some? ==> var v := ParseInt(Trim(Split(chunk, '=')[1])).value;
      (v >= 0 ==> DecodeChunk(chunk).value.1 == v) && (v < 0 ==> DecodeChunk(chunk).value.1 == 0)
  {
  }

  /** No part of a split holds the separator. */
  lemma {:induction false} SplitPartsLackSeparator(s: string, sep: char)
    ensures forall i :: 0 <= i < |Split(s, sep)| ==> sep !in Split(s, sep)[i]
    decreases |s|
  {
    if |s| > 0 {
      SplitPartsLackSeparator(s[1..], sep);
    }
  }

  /** The map the `decodeMap` loop has built after the given chunks. */
  function DecodeChunks(chunks: seq<string>): map<string, nat>
    decreases |chunks|
  {
    if |chunks| == 0 then map[]
    else
      Absorb(DecodeChunks(chunks[..|chunks| - 1]), DecodeChunk(chunks[|chunks| - 1]))
  }

  /** One pass of the `decodeMap` loop: a well-formed chunk sets its key. */
  function Absorb(m: map<string, nat>, entry: Option<(string, nat)>): map<string, nat> {
    match entry
    case None => m
    case Some(kv) => m[kv.0 := kv.1]
  }

  /** Every key the chunks set is non-empty, trimmed and free of '='. */
  lemma {:induction false} DecodeChunksKeys(chunks: seq<string>)
    ensures forall k :: k in DecodeChunks(chunks) ==> KeyShape(k)
    decreases |chunks|
  {
    if |chunks| > 0 {
      DecodeChunksKeys(chunks[..|chunks| - 1]);
    }
  }

  /** One more chunk in the `decodeMap` loop: one that is not "key=Int" with
      a non-empty key leaves the map alone, and an accepted one sets its
      trimmed key to the value, a negative value becoming 0. */
  lemma DecodeChunksStep(chunks: seq<string>, chunk: string)
    ensures var parts := Split(chunk, '=');
      && (!ChunkAccepted(parts) ==> DecodeChunks(chunks + [chunk]) == DecodeChunks(chunks))
      && (ChunkAccepted(parts) && ParseInt(Trim(parts[1])).value < 0 ==>
            DecodeChunks(chunks + [chunk]) == DecodeChunks(chunks)[Trim(parts[0]) := 0])
      && (ChunkAccepted(parts) && ParseInt(Trim(parts[1])).value >= 0 ==>
            DecodeChunks(chunks + [chunk]) == DecodeChunks(chunks)[Trim(parts[0]) := ParseInt(Trim(parts[1])).value])
  {
    assert (chunks + [chunk])[..|chunks|] == chunks;
    DecodeChunkMeaning(chunk);
  }

  /** A save string of one chunk "key=value": a value that is not an Int
      decodes to nothing, and a negative one decodes to the key at 0. */
  lemma DecodeMapOneChunk(key: string, value: string)
    requires ';' !in key && '=' !in key && ';' !in value && '=' !in value
    requires |key| > 0 && !IsWhitespace(key[0]) && !IsWhitespace(key[|key| - 1])
    requires |value| > 0 && !IsWhitespace(value[0]) && !IsWhitespace(value[|value| - 1])
    ensures ParseInt(value).None? ==> DecodeMapSpec(key + "=" + value) == map[]
    ensures ParseInt(value).Some? && ParseInt(value).value < 0 ==> DecodeMapSpec(key + "=" + value) == map[key := 0]
    ensures ParseInt(value).Some? && ParseInt(value).value >= 0 ==>
      DecodeMapSpec(key + "=" + value) == map[key := ParseInt(value).value]
  {
    var raw := key + "=" + value;
    OneChunk(key, value);
    assert !IsBlank(raw) by { assert raw[0] == key[0]; }
    DecodeChunksStep([], raw);
    assert [] + [raw] == [raw];
  }

  /** "ore=-7" decodes to ore at 0. */
  lemma DecodeMapNegativeExample()
    ensures DecodeMapSpec("ore" + "=" + "-7") == map["ore" := 0]
  {
    assert ParseInt("-7") == Some(-7) by {
      assert AllDigits("7") && DigitsValue("7") == 7;
    }
    DecodeMapOneChunk("ore", "-7");
  }

  /** "key=value" with neither part holding ';', '=' or surrounding
      whitespace is one chunk of two trimmed parts. */
  lemma OneChunk(key: string, value: string)
    requires ';' !in key && '=' !in key && ';' !in value && '=' !in value
    requires |key| > 0 && !IsWhitespace(key[0]) && !IsWhitespace(key[|key| - 1])
    requires |value| > 0 && !IsWhitespace(value[0]) && !IsWhitespace(value[|value| - 1])
    ensures Split(key + "=" + value, ';') == [key + "=" + value]
    ensures Split(key + "=" + value, '=') == [key, value]
    ensures Trim(key) == key && Trim(value) == value
  {
    var chunk := key + "=" + value;
    assert chunk == key + ("=" + value);
    SplitPrefix(chunk, "", ';');
    assert chunk + "" == chunk;
    SplitPrefix(value, "", '=');
    assert value + "" == value;
    assert Split("=" + value, '=') == [""] + Split(value, '=') by {
      assert ("=" + value)[1..] == value;
    }
    SplitPrefix(key, "=" + value, '=');
    assert key + "" == key;
    TrimmedIsFixed(key);
    TrimmedIsFixed(value);
  }

  predicate KeyShape(k: string) {
    |k| > 0 && '=' !in k && !IsWhitespace(k[0]) && !IsWhitespace(k[|k| - 1])
  }

  lemma AbsorbUnion(x: map<string, nat>, y: map<string, nat>, entry: Option<(string, nat)>)
    ensures Absorb(x + y, entry) == x + Absorb(y, entry)
  {
  }

  /** `decodeMap`'s result: empty for a blank string, otherwise the map the
      ';'-separated chunks build; every key it holds is non-empty, trimmed
      and free of '='. */
  function DecodeMapSpec(raw: string): (m: map<string, nat>)
    ensures IsBlank(raw) ==> m == map[]
    ensures forall k :: k in m ==> KeyShape(k)
  {
    DecodeChunksKeys(Split(raw, ';'));
    if IsBlank(raw) then map[] else DecodeChunks(Split(raw, ';'))
  }

  /** Decoding is a fold: the chunks of a concatenation build the union of
      the two maps, the later chunks winning on a shared key. */
  lemma {:induction false} DecodeChunksAppend(a: seq<string>, b: seq<string>)
    ensures DecodeChunks(a + b) == DecodeChunks(a) + DecodeChunks(b)
    decreases |b|
  {
    if |b| > 0 {
      var b' := b[..|b| - 1];
      assert (a + b)[..|a + b| - 1] == a + b';
      assert (a + b)[|a + b| - 1] == b[|b| - 1];
      DecodeChunksAppend(a, b');
      AbsorbUnion(DecodeChunks(a), DecodeChunks(b'), DecodeChunk(b[|b| - 1]));
    } else {
      assert a + b == a;
    }
  }

  /** Keys `encodeMap` can write and `decodeMap` reads back unchanged. */
  predicate EncodableKey(k: string) {
    |k| > 0 && !IsWhitespace(k[0]) && !IsWhitespace(k[|k| - 1]) && ';' !in k && '=' !in k
  }

  predicate Encodable(entries: seq<(string, nat)>) {
    forall i :: 0 <= i < |entries| ==> EncodableKey(entries[i].0) && entries[i].1 <= IntMax
  }

  lemma NoWhitespaceInDigits(s: string)
    requires AllDigits(s)
    ensures forall i :: 0 <= i < |s| ==> !IsWhitespace(s[i]) && s[i] != ';' && s[i] != '='
  {
  }

  /** One encoded chunk decodes to its entry. */
  lemma DecodeEncodedEntry(key: string, value: nat)
    requires EncodableKey(key) && value <= IntMax
    ensures DecodeChunk(EncodeEntry(key, value)) == Some((key, value))
  {
    var digits := NatToString(value);
    NoWhitespaceInDigits(digits);
    assert '=' !in digits;
    SplitPrefix(digits, "", '=');
    assert digits + "" == digits;
    assert Split(digits, '=') == [digits];
    assert Split("=" + digits, '=') == [""] + Split(digits, '=') by {
      assert ("=" + digits)[1..] == digits;
    }
    assert EncodeEntry(key, value) == key + ("=" + digits);
    SplitPrefix(key, "=" + digits, '=');
    assert key + "" == key;
    assert Split(EncodeEntry(key, value), '=') == [key, digits];
    TrimmedIsFixed(key);
    TrimmedIsFixed(digits);
    ParseIntToString(value);
  }

  lemma {:induction false} DecodeEncodedChunks(entries: seq<(string, nat)>)
    requires Encodable(entries)
    ensures DecodeChunks(EncodeChunks(entries)) == MapOf(entries)
    decreases |entries|
  {
    if |entries| > 0 {
      var init := entries[..|entries| - 1];
      var last := entries[|entries| - 1];
      var chunks := EncodeChunks(entries);
      assert chunks[..|chunks| - 1] == EncodeChunks(init);
      DecodeEncodedChunks(init);
      DecodeEncodedEntry(last.0, last.1);
    }
  }

  /** `decodeMap(encodeMap(m)) == m` for keys that are non-empty, carry no
      surrounding whitespace and hold neither ';' nor '=', and for values in
      the Int range. */
  lemma DecodeEncodeRoundTrip(entries: seq<(string, nat)>)
    requires Encodable(entries)
    ensures DecodeMapSpec(EncodeMap(entries)) == MapOf(entries)
  {
    var chunks := EncodeChunks(entries);
    var raw := EncodeMap(entries);
    if |entries| > 0 {
      forall i | 0 <= i < |chunks| ensures ';' !in chunks[i] {
        ChunkLacksSemicolon(entries[..i + 1]);
        assert EncodeChunks(entries[..i + 1])[i] == chunks[i] by {
          EncodeChunksPrefix(entries, i + 1);
        }
      }
      SplitJoin(chunks, ';');
      JoinStartsWithFirst(chunks, ';');
      assert raw[0] == entries[0].0[0] by {
        EncodeChunksPrefix(entries, 1);
        assert chunks[0] == EncodeEntry(entries[0].0, entries[0].1);
      }
      assert !IsBlank(raw);
      DecodeEncodedChunks(entries);
    }
  }

  lemma ChunkLacksSemicolon(entries: seq<(string, nat)>)
    requires |entries| > 0 && EncodableKey(entries[|entries| - 1].0)
    ensures ';' !in EncodeChunks(entries)[|entries| - 1]
  {
    var last := entries[|entries| - 1];
    NoWhitespaceInDigits(NatToString(last.1));
  }

  lemma {:induction false} EncodeChunksPrefix(entries: seq<(string, nat)>, n: nat)
    requires n <= |entries|
    ensures EncodeChunks(entries[..n]) == EncodeChunks(entries)[..n]
    decreases |entries|
  {
    if n < |entries| {
      var init := entries[..|entries| - 1];
      EncodeChunksPrefix(init, n);
      assert init[..n] == entries[..n];
    } else {
      assert entries[..n] == entries;
    }
  }

  lemma JoinStartsWithFirst(parts: seq<string>, sep: char)
    requires |parts| >= 1
    ensures parts[0] <= Join(parts, sep)
  {
    if |parts| > 1 {
      assert Join(parts, sep) == parts[0] + ([sep] + Join(parts[1..], sep));
    }
  }

  /** `decodeMap`: walks the ';'-separated chunks, skipping malformed ones and
      letting a later key overwrite an earlier one. */
  method DecodeMap(raw: string) returns (output: map<string, nat>)
    ensures output == DecodeMapSpec(raw)
    ensures IsBlank(raw) ==> output == map[]
  {
    if IsBlank(raw) {
      return map[];
    }
    output := map[];
    var chunks := Split(raw, ';');
    for i := 0 to |chunks|
      invariant output == DecodeChunks(chunks[..i])
    {
      var chunk := chunks[i];
      assert chunks[..i + 1] == chunks[..i] + [chunk];
      DecodeChunksStep(chunks[..i], chunk);
      var parts := Split(chunk, '=');
      if |parts| != 2 {
        continue;
      }
      var key := Trim(parts[0]);
      var value := ParseInt(Trim(parts[1]));
      if value.None? {
        continue;
      }
      if |key| > 0 {
        output := output[key := if value.value < 0 then 0 else value.value];
      }
    }
    assert chunks[..|chunks|] == chunks;
  }

  /** What `load` reads a snapshot back as. */
  datatype SaveSnapshot = SaveSnapshot(
    resources: ResourceState,
    tapMetal: real,
    tapCredits: real,
    productionMultiplier: real,
    buildings: map<string, nat>,
    upgrades: map<string, nat>,
    taps: int,
    sessionSeconds: real,
    savedAtEpochMs: int)

  /** The shared-preferences store, one map per stored type. */
  datatype Prefs = Prefs(ints: map<string, int>, longs: map<string, int>, strings: map<string, string>)

  function IntOr(prefs: Prefs, key: string, default: int): int {
    if key in prefs.ints then prefs.ints[key] else default
  }

  function LongOr(prefs: Prefs, key: string, default: int): int {
    if key in prefs.longs then prefs.longs[key] else default
  }

  function StringOr(prefs: Prefs, key: string, default: string): string {
    if key in prefs.strings then prefs.strings[key] else default
  }

  /** `getString(key, null)?.toDoubleOrNull()`, with the number parser given. */
  function ReadDouble(prefs: Prefs, key: string, toDouble: string -> Option<real>): Option<real> {
    if key in prefs.strings then toDouble(prefs.strings[key]) else None
  }

  /** `load`: nothing on a version mismatch or when a resource amount is
      missing or unparsable; otherwise every optional field with its default
      and the level maps overlaid on the all-zero defaults. */
  method Load(prefs: Prefs, toDouble: string -> Option<real>, nowMs: int) returns (snapshot: Option<SaveSnapshot>)
    ensures snapshot.None? <==>
      IntOr(prefs, KeyVersion, 0) != SaveVersion
      || ReadDouble(prefs, KeyMetal, toDouble).None?
      || ReadDouble(prefs, KeyCredits, toDouble).None?
      || ReadDouble(prefs, KeyScience, toDouble).None?
    ensures snapshot.Some? ==>
      var s := snapshot.value;
      && s.resources == ResourceState(ReadDouble(prefs, KeyMetal, toDouble).value,
                                      ReadDouble(prefs, KeyCredits, toDouble).value,
                                      ReadDouble(prefs, KeyScience, toDouble).value)
      && s.tapMetal == ReadDouble(prefs, KeyTapMetal, toDouble).GetOr(1.0)
      && s.tapCredits == ReadDouble(prefs, KeyTapCredits, toDouble).GetOr(0.0)
      && s.productionMultiplier == ReadDouble(prefs, KeyMultiplier, toDouble).GetOr(1.0)
      && s.buildings == DefaultBuildingLevels + DecodeMapSpec(StringOr(prefs, KeyBuildings, ""))
      && s.upgrades == DefaultUpgradeRanks + DecodeMapSpec(StringOr(prefs, KeyUpgrades, ""))
      && s.taps == LongOr(prefs, KeyTaps, 0)
      && s.sessionSeconds == ReadDouble(prefs, KeySessionSeconds, toDouble).GetOr(0.0)
      && s.savedAtEpochMs == LongOr(prefs, KeyLastSavedEpochMs, nowMs)
    ensures snapshot.Some? ==>
      (forall id :: id in DefaultBuildingLevels ==> id in snapshot.value.buildings)
      && (forall id :: id in DefaultUpgradeRanks ==> id in snapshot.value.upgrades)
  {
    if IntOr(prefs, KeyVersion, 0) != SaveVersion {
      return None;
    }
    var metal := ReadDouble(prefs, KeyMetal, toDouble);
    if metal.None? {
      return None;
    }
    var credits := ReadDouble(prefs, KeyCredits, toDouble);
    if credits.None? {
      return None;
    }
    var science := ReadDouble(prefs, KeyScience, toDouble);
    if science.None? {
      return None;
    }
    var tapMetal := ReadDouble(prefs, KeyTapMetal, toDouble).GetOr(1.0);
    var tapCredits := ReadDouble(prefs, KeyTapCredits, toDouble).GetOr(0.0);
    var multiplier := ReadDouble(prefs, KeyMultiplier, toDouble).GetOr(1.0);
    var buildingMap := DecodeMap(StringOr(prefs, KeyBuildings, ""));
    var upgradeMap := DecodeMap(StringOr(prefs, KeyUpgrades, ""));
    snapshot := Some(SaveSnapshot(
      ResourceState(metal.value, credits.value, science.value),
      tapMetal, tapCredits, multiplier,
      DefaultBuildingLevels + buildingMap,
      DefaultUpgradeRanks + upgradeMap,
      LongOr(prefs, KeyTaps, 0),
      ReadDouble(prefs, KeySessionSeconds, toDouble).GetOr(0.0),
      LongOr(prefs, KeyLastSavedEpochMs, nowMs)));
  }
}
